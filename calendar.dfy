/**
 * The dose-history calendar (`MedicationTrackerCalendar`): the events of a
 * requested range are one event per recorded dose whose day lies in the
 * range, plus one refill reminder per medication that asks for it, sorted by
 * start time. ISO 8601 rendering, `strftime` clock rendering and the refill
 * description (which prints floating-point estimates) are supplied by a
 * `Formatter`.
 */
module Calendar {
  import opened Wrappers
  import opened Time
  import opened Models
  import Coordinator

  const Domain: string := "medication_tracker"
  /** A dose event lasts five minutes. */
  const DoseEventLength: int := 5 * MicrosPerMinute
  /** A refill reminder starts at 09:00 and lasts one hour. */
  const RefillTimeOfDay: int := 9 * MicrosPerHour
  const RefillEventLength: int := MicrosPerHour

  datatype CalendarEvent = CalendarEvent(start: int, end: int, summary: string, description: string, uid: string)

  /** The requested range `[start, end]`, as datetimes. */
  datatype Window = Window(start: int, end: int)

  datatype Formatter = Formatter(
    isoDateTime: int -> string,
    isoDate: int -> string,
    clockTime: int -> string,
    refillDescription: MedicationEntry -> string)

  /** Both ends are compared by date, inclusively. */
  predicate InWindow(w: Window, day: int) {
    DayOf(w.start) <= day <= DayOf(w.end)
  }

  // ---------------------------------------------------------------------
  // Event text

  const TakenMark: char := '\U{2705}'
  const SkippedMark: char := '\U{274C}'

  /** `_create_event_summary`: the status mark and word, then `: name (dosage)`. */
  function EventSummary(m: MedicationEntry, r: DoseRecord): (s: string)
    ensures |s| > 0 && s[|s| - 1] == ')'
    ensures s[0] == TakenMark <==> r.taken
    ensures s[0] == SkippedMark <==> !r.taken
    ensures r.taken ==> s == "\U{2705} Taken: " + m.data.name + " (" + m.data.dosage + ")"
    ensures !r.taken ==> s == "\U{274C} Skipped: " + m.data.name + " (" + m.data.dosage + ")"
  {
    (if r.taken then [TakenMark] + " Taken" else [SkippedMark] + " Skipped")
      + ": " + m.data.name + " (" + m.data.dosage + ")"
  }

  /** Two summaries of the same medication agree only when they agree on taken versus skipped. */
  lemma SummaryShowsStatus(m: MedicationEntry, r1: DoseRecord, r2: DoseRecord)
    requires EventSummary(m, r1) == EventSummary(m, r2)
    ensures r1.taken == r2.taken
  {
    assert EventSummary(m, r1)[0] == EventSummary(m, r2)[0];
  }

  /** `"\n".join(lines)` */
  function JoinLines(lines: seq<string>): (s: string)
    ensures lines == [] ==> s == ""
    ensures lines != [] ==> lines[0] <= s
    ensures |lines| > 1 ==> |s| > |lines[0]| && s[|lines[0]|] == '\n'
  {
    if |lines| == 0 then ""
    else if |lines| == 1 then lines[0]
    else lines[0] + "\n" + JoinLines(lines[1..])
  }

  /** `s.split("\n")` */
  function SplitLines(s: string): (r: seq<string>)
    ensures |r| > 0
  {
    if |s| == 0 then [""]
    else
      var rest := SplitLines(s[1..]);
      if s[0] == '\n' then [""] + rest else [[s[0]] + rest[0]] + rest[1..]
  }

  predicate NoNewline(s: string) {
    forall i :: 0 <= i < |s| ==> s[i] != '\n'
  }

  lemma {:induction false} SplitSingleLine(a: string)
    requires NoNewline(a)
    ensures SplitLines(a) == [a]
  {
    if |a| > 0 {
      SplitSingleLine(a[1..]);
      assert [a[0]] + a[1..] == a;
    }
  }

  lemma {:induction false} SplitFirstLine(a: string, t: string)
    requires NoNewline(a)
    ensures SplitLines(a + "\n" + t) == [a] + SplitLines(t)
    decreases |a|
  {
    var s := a + "\n" + t;
    if |a| == 0 {
      assert s[1..] == t;
    } else {
      assert s[1..] == a[1..] + "\n" + t;
      SplitFirstLine(a[1..], t);
      assert [a[0]] + a[1..] == a;
    }
  }

  /** Joining lines without newlines and splitting the result gives the lines back. */
  lemma {:induction false} SplitJoinLines(lines: seq<string>)
    requires |lines| > 0
    requires forall k :: 0 <= k < |lines| ==> NoNewline(lines[k])
    ensures SplitLines(JoinLines(lines)) == lines
  {
    if |lines| == 1 {
      SplitSingleLine(lines[0]);
    } else {
      SplitJoinLines(lines[1..]);
      SplitFirstLine(lines[0], JoinLines(lines[1..]));
      assert [lines[0]] + lines[1..] == lines;
    }
  }

  /** The line `prefix...` occurs in `lines`. */
  predicate HasLine(lines: seq<string>, prefix: string) {
    exists k :: 0 <= k < |lines| && prefix <= lines[k]
  }

  /** The lines of `_create_event_description`. */
  function DescriptionLines(m: MedicationEntry, r: DoseRecord, fmt: Formatter): (lines: seq<string>)
    ensures |lines| == 4 + (if r.notes != "" then 1 else 0) + (if m.data.frequency != "" then 1 else 0)
    ensures lines[0] == "Medication: " + m.data.name && lines[1] == "Dosage: " + m.data.dosage
    ensures lines[2] == (if r.taken then "Status: Taken" else "Status: Skipped")
    ensures lines[3] == "Time: " + fmt.clockTime(r.timestamp)
    ensures r.notes != "" ==> lines[4] == "Notes: " + r.notes
    ensures m.data.frequency != "" ==> lines[|lines| - 1] == "Frequency: " + m.data.frequency
  {
    var base := [
      "Medication: " + m.data.name,
      "Dosage: " + m.data.dosage,
      "Status: " + (if r.taken then "Taken" else "Skipped"),
      "Time: " + fmt.clockTime(r.timestamp)];
    var withNotes := if r.notes != "" then base + ["Notes: " + r.notes] else base;
    if m.data.frequency != "" then withNotes + ["Frequency: " + m.data.frequency] else withNotes
  }

  lemma StartsWith(p: string, q: string, line: string)
    requires |p| > 0 && |q| > 0 && p[0] != q[0]
    ensures !(p <= q + line)
  {
    assert (q + line)[0] == q[0];
  }

  /** A Notes line appears exactly when the dose has notes, a Frequency line exactly when the medication has a frequency. */
  lemma DescriptionOptionalLines(m: MedicationEntry, r: DoseRecord, fmt: Formatter)
    ensures HasLine(DescriptionLines(m, r, fmt), "Notes: ") <==> r.notes != ""
    ensures HasLine(DescriptionLines(m, r, fmt), "Frequency: ") <==> m.data.frequency != ""
  {
    var lines := DescriptionLines(m, r, fmt);
    var status := if r.taken then "Taken" else "Skipped";
    assert lines[2] == "Status: " + status;
    forall k | 0 <= k < |lines| && "Notes: " <= lines[k] ensures r.notes != "" && k == 4 {
      StartsWith("Notes: ", "Medication: ", m.data.name);
      StartsWith("Notes: ", "Dosage: ", m.data.dosage);
      StartsWith("Notes: ", "Status: ", status);
      StartsWith("Notes: ", "Time: ", fmt.clockTime(r.timestamp));
      StartsWith("Notes: ", "Frequency: ", m.data.frequency);
    }
    forall k | 0 <= k < |lines| && "Frequency: " <= lines[k] ensures m.data.frequency != "" && k == |lines| - 1 {
      StartsWith("Frequency: ", "Medication: ", m.data.name);
      StartsWith("Frequency: ", "Dosage: ", m.data.dosage);
      StartsWith("Frequency: ", "Status: ", status);
      StartsWith("Frequency: ", "Time: ", fmt.clockTime(r.timestamp));
      StartsWith("Frequency: ", "Notes: ", r.notes);
    }
    if r.notes != "" {
      assert "Notes: " <= lines[4];
    }
    if m.data.frequency != "" {
      assert "Frequency: " <= lines[|lines| - 1];
    }
  }

  /**
   * `_create_event_description`: the lines joined by newlines. When no field
   * contains a newline, the description splits back into exactly those lines.
   */
  method EventDescription(m: MedicationEntry, r: DoseRecord, fmt: Formatter) returns (description: string)
    ensures description == JoinLines(DescriptionLines(m, r, fmt))
  {
    var parts := [
      "Medication: " + m.data.name,
      "Dosage: " + m.data.dosage,
      "Status: " + (if r.taken then "Taken" else "Skipped"),
      "Time: " + fmt.clockTime(r.timestamp)];
    if r.notes != "" {
      parts := parts + ["Notes: " + r.notes];
    }
    if m.data.frequency != "" {
      parts := parts + ["Frequency: " + m.data.frequency];
    }
    description := JoinLines(parts);
  }

  /** A description whose fields have no newline splits back into its lines. */
  lemma DescriptionSplitsIntoLines(m: MedicationEntry, r: DoseRecord, fmt: Formatter)
    requires NoNewline(m.data.name) && NoNewline(m.data.dosage) && NoNewline(m.data.frequency)
    requires NoNewline(r.notes) && NoNewline(fmt.clockTime(r.timestamp))
    ensures SplitLines(JoinLines(DescriptionLines(m, r, fmt))) == DescriptionLines(m, r, fmt)
  {
    DescriptionLinesNoNewline(m, r, fmt);
    SplitJoinLines(DescriptionLines(m, r, fmt));
  }

  lemma DescriptionLinesNoNewline(m: MedicationEntry, r: DoseRecord, fmt: Formatter)
    requires NoNewline(m.data.name) && NoNewline(m.data.dosage) && NoNewline(m.data.frequency)
    requires NoNewline(r.notes) && NoNewline(fmt.clockTime(r.timestamp))
    ensures forall k :: 0 <= k < |DescriptionLines(m, r, fmt)| ==> NoNewline(DescriptionLines(m, r, fmt)[k])
  {
    var lines := DescriptionLines(m, r, fmt);
    LabelsHaveNoNewline();
    ConcatNoNewline("Medication: ", m.data.name);
    ConcatNoNewline("Dosage: ", m.data.dosage);
    ConcatNoNewline("Time: ", fmt.clockTime(r.timestamp));
    ConcatNoNewline("Notes: ", r.notes);
    ConcatNoNewline("Frequency: ", m.data.frequency);
    forall k | 0 <= k < |lines| ensures NoNewline(lines[k]) {
      if k == 4 && r.notes != "" {
        assert lines[k] == "Notes: " + r.notes;
      } else if k >= 4 {
        assert lines[k] == "Frequency: " + m.data.frequency;
      }
    }
  }

  lemma LabelsHaveNoNewline()
    ensures NoNewline("Medication: ") && NoNewline("Dosage: ") && NoNewline("Time: ")
    ensures NoNewline("Notes: ") && NoNewline("Frequency: ")
    ensures NoNewline("Status: Taken") && NoNewline("Status: Skipped")
  {
  }

  lemma ConcatNoNewline(a: string, b: string)
    requires NoNewline(a) && NoNewline(b)
    ensures NoNewline(a + b)
  {
    assert forall i :: |a| <= i < |a + b| ==> (a + b)[i] == b[i - |a|];
  }

  // ---------------------------------------------------------------------
  // Events

  /** The event for one dose record. */
  function DoseEvent(id: string, m: MedicationEntry, r: DoseRecord, fmt: Formatter): (e: CalendarEvent)
    ensures e.start == r.timestamp && e.end == e.start + DoseEventLength
    ensures e.summary == EventSummary(m, r)
    ensures e.uid == Domain + "_" + id + "_" + fmt.isoDateTime(r.timestamp)
    ensures e.description == JoinLines(DescriptionLines(m, r, fmt))
  {
    CalendarEvent(r.timestamp, r.timestamp + DoseEventLength, EventSummary(m, r),
                  JoinLines(DescriptionLines(m, r, fmt)), Domain + "_" + id + "_" + fmt.isoDateTime(r.timestamp))
  }

  /** The refill reminder for day `day`: 09:00 to 10:00 that day. */
  function RefillEvent(id: string, m: MedicationEntry, day: int, fmt: Formatter): (e: CalendarEvent)
    ensures DayOf(e.start) == day && e.start == StartOfDay(day) + RefillTimeOfDay
    ensures e.end == e.start + RefillEventLength
    ensures e.uid == Domain + "_" + id + "_refill_" + fmt.isoDate(day)
    ensures e.summary == "\U{1F48A} Refill Needed: " + m.data.name && e.description == fmt.refillDescription(m)
  {
    var start := StartOfDay(day) + RefillTimeOfDay;
    DayOfWithin(start, day);
    CalendarEvent(start, start + RefillEventLength, "\U{1F48A} Refill Needed: " + m.data.name,
                  fmt.refillDescription(m), Domain + "_" + id + "_refill_" + fmt.isoDate(day))
  }

  /** The records of `history` whose date lies in the range, in history order. */
  function InRange(history: seq<DoseRecord>, w: Window): (rs: seq<DoseRecord>)
    ensures |rs| <= |history|
    ensures forall r :: r in rs <==> r in history && InWindow(w, DayOf(r.timestamp))
  {
    if history == [] then []
    else
      var last := history[|history| - 1];
      assert history == history[..|history| - 1] + [last];
      InRange(history[..|history| - 1], w) + (if InWindow(w, DayOf(last.timestamp)) then [last] else [])
  }

  /** One dose event per record in the range, in history order. */
  function DoseEvents(id: string, m: MedicationEntry, history: seq<DoseRecord>, w: Window, fmt: Formatter): (es: seq<CalendarEvent>)
    ensures |es| == |InRange(history, w)|
    ensures forall k :: 0 <= k < |es| ==> es[k] == DoseEvent(id, m, InRange(history, w)[k], fmt)
  {
    var rs := InRange(history, w);
    seq(|rs|, k requires 0 <= k < |rs| => DoseEvent(id, m, rs[k], fmt))
  }

  /** A refill reminder is shown: tracking on, calendar display on, and an estimated date inside the range. */
  predicate ShowsRefill(b: EntryBehaviour, m: MedicationEntry, w: Window)
    ensures ShowsRefill(b, m, w) ==>
      b.estimatedRefillDate(m).Some? && InWindow(w, DayOf(StartOfDay(b.estimatedRefillDate(m).value) + RefillTimeOfDay))
  {
    && m.data.supplyTrackingEnabled
    && m.data.showRefillOnCalendar
    && b.estimatedRefillDate(m).Some?
    && InWindow(w, b.estimatedRefillDate(m).value)
  }

  /** The events of one medication: its dose events, then its refill reminder if shown. */
  function ItemEvents(id: string, m: MedicationEntry, w: Window, b: EntryBehaviour, fmt: Formatter): (es: seq<CalendarEvent>)
    ensures |es| == |InRange(m.dose.doseHistory, w)| + (if ShowsRefill(b, m, w) then 1 else 0)
    ensures es[..|InRange(m.dose.doseHistory, w)|] == DoseEvents(id, m, m.dose.doseHistory, w, fmt)
    ensures ShowsRefill(b, m, w) ==> es[|es| - 1] == RefillEvent(id, m, b.estimatedRefillDate(m).value, fmt)
  {
    DoseEvents(id, m, m.dose.doseHistory, w, fmt)
      + (if ShowsRefill(b, m, w) then [RefillEvent(id, m, b.estimatedRefillDate(m).value, fmt)] else [])
  }

  /** The parts joined end to end. */
  function Concat<T>(parts: seq<seq<T>>): seq<T> {
    if parts == [] then [] else Concat(parts[..|parts| - 1]) + parts[|parts| - 1]
  }

  lemma {:induction false} ConcatMembership<T>(parts: seq<seq<T>>, x: T)
    ensures x in Concat(parts) <==> exists i :: 0 <= i < |parts| && x in parts[i]
  {
    if parts != [] {
      var n := |parts| - 1;
      var init := parts[..n];
      ConcatMembership(init, x);
      if i :| 0 <= i < |init| && x in init[i] {
        assert init[i] == parts[i];
      }
      if i :| 0 <= i < n && x in parts[i] {
        assert init[i] == parts[i];
      }
    }
  }

  /** The events of each medication of `items`, in iteration order. */
  function PerMedication(items: seq<(string, MedicationEntry)>, w: Window, b: EntryBehaviour, fmt: Formatter): (parts: seq<seq<CalendarEvent>>)
    ensures |parts| == |items|
  {
    seq(|items|, i requires 0 <= i < |items| => ItemEvents(items[i].0, items[i].1, w, b, fmt))
  }

  /** The unsorted events of all medications, in iteration order. */
  function CollectEvents(items: seq<(string, MedicationEntry)>, w: Window, b: EntryBehaviour, fmt: Formatter): seq<CalendarEvent> {
    Concat(PerMedication(items, w, b, fmt))
  }

  /** Taking one more medication appends its events. */
  lemma CollectEventsSnoc(items: seq<(string, MedicationEntry)>, i: nat, w: Window, b: EntryBehaviour, fmt: Formatter)
    requires i < |items|
    ensures CollectEvents(items[..i + 1], w, b, fmt) ==
      CollectEvents(items[..i], w, b, fmt) + ItemEvents(items[i].0, items[i].1, w, b, fmt)
  {
    var parts := PerMedication(items[..i + 1], w, b, fmt);
    assert parts[..i] == PerMedication(items[..i], w, b, fmt);
  }

  /** Filtering two runs of history one after the other keeps both runs' records, in order. */
  lemma {:induction false} InRangeAppend(h1: seq<DoseRecord>, h2: seq<DoseRecord>, w: Window)
    ensures InRange(h1 + h2, w) == InRange(h1, w) + InRange(h2, w)
  {
    if h2 == [] {
      assert h1 + h2 == h1;
    } else {
      var n := |h2| - 1;
      assert (h1 + h2)[..|h1 + h2| - 1] == h1 + h2[..n];
      assert (h1 + h2)[|h1 + h2| - 1] == h2[n];
      InRangeAppend(h1, h2[..n], w);
    }
  }

  /** No record is dropped unless outside the range: all are kept exactly when all are in range. */
  lemma {:induction false} InRangeCount(history: seq<DoseRecord>, w: Window)
    ensures |InRange(history, w)| == |history| <==>
      forall k :: 0 <= k < |history| ==> InWindow(w, DayOf(history[k].timestamp))
  {
    if history != [] {
      var n := |history| - 1;
      var last := history[n];
      InRangeCount(history[..n], w);
      assert |InRange(history, w)| == |InRange(history[..n], w)| + (if InWindow(w, DayOf(last.timestamp)) then 1 else 0);
      assert forall k :: 0 <= k < n ==> history[..n][k] == history[k];
    }
  }

  /** Extending the history by one record adds its event exactly when the record is in range. */
  lemma DoseEventsSnoc(id: string, m: MedicationEntry, history: seq<DoseRecord>, j: nat, w: Window, fmt: Formatter)
    requires j < |history|
    ensures DoseEvents(id, m, history[..j + 1], w, fmt) ==
      DoseEvents(id, m, history[..j], w, fmt)
        + (if InWindow(w, DayOf(history[j].timestamp)) then [DoseEvent(id, m, history[j], fmt)] else [])
  {
    assert history[..j + 1][..j] == history[..j];
  }

  /** One step of the dose loop: appending the next record's event, when in range, extends the events by one record. */
  lemma DoseEventsStep(events: seq<CalendarEvent>, out: seq<CalendarEvent>, id: string, m: MedicationEntry,
                       history: seq<DoseRecord>, j: nat, w: Window, fmt: Formatter)
    requires j < |history| && out == events + DoseEvents(id, m, history[..j], w, fmt)
    ensures out + (if InWindow(w, DayOf(history[j].timestamp)) then [DoseEvent(id, m, history[j], fmt)] else [])
      == events + DoseEvents(id, m, history[..j + 1], w, fmt)
  {
    DoseEventsSnoc(id, m, history, j, w, fmt);
  }

  /** A shown dose event is the event of a history record whose date lies in the range. */
  lemma DoseEventsFrom(id: string, m: MedicationEntry, history: seq<DoseRecord>, w: Window, fmt: Formatter, e: CalendarEvent)
    requires e in DoseEvents(id, m, history, w, fmt)
    ensures exists r :: r in history && InWindow(w, DayOf(r.timestamp)) && e == DoseEvent(id, m, r, fmt)
  {
    var rs := InRange(history, w);
    var es := DoseEvents(id, m, history, w, fmt);
    var k :| 0 <= k < |es| && es[k] == e;
    assert rs[k] in rs;
  }

  /** The event of a history record whose date lies in the range is shown. */
  lemma DoseEventsOf(id: string, m: MedicationEntry, history: seq<DoseRecord>, w: Window, fmt: Formatter, r: DoseRecord)
    requires r in history && InWindow(w, DayOf(r.timestamp))
    ensures DoseEvent(id, m, r, fmt) in DoseEvents(id, m, history, w, fmt)
  {
    var rs := InRange(history, w);
    var k :| 0 <= k < |rs| && rs[k] == r;
    assert DoseEvents(id, m, history, w, fmt)[k] == DoseEvent(id, m, r, fmt);
  }

  /** A dose event is shown exactly when it is the event of a history record whose date lies in the range. */
  lemma DoseEventsExactly(id: string, m: MedicationEntry, history: seq<DoseRecord>, w: Window, fmt: Formatter, e: CalendarEvent)
    ensures e in DoseEvents(id, m, history, w, fmt) <==>
      exists r :: r in history && InWindow(w, DayOf(r.timestamp)) && e == DoseEvent(id, m, r, fmt)
  {
    if e in DoseEvents(id, m, history, w, fmt) {
      DoseEventsFrom(id, m, history, w, fmt, e);
    }
    if r :| r in history && InWindow(w, DayOf(r.timestamp)) && e == DoseEvent(id, m, r, fmt) {
      DoseEventsOf(id, m, history, w, fmt, r);
    }
  }

  /** There are as many dose events as records exactly when every record lies in the range. */
  lemma DoseEventsCount(id: string, m: MedicationEntry, history: seq<DoseRecord>, w: Window, fmt: Formatter)
    ensures |DoseEvents(id, m, history, w, fmt)| <= |history|
    ensures |DoseEvents(id, m, history, w, fmt)| == |history| <==>
      forall k :: 0 <= k < |history| ==> InWindow(w, DayOf(history[k].timestamp))
  {
    InRangeCount(history, w);
  }

  /** An event is collected exactly when it is among the events of some medication. */
  lemma CollectEventsExactly(items: seq<(string, MedicationEntry)>, w: Window, b: EntryBehaviour, fmt: Formatter, e: CalendarEvent)
    ensures e in CollectEvents(items, w, b, fmt) <==>
      exists i :: 0 <= i < |items| && e in ItemEvents(items[i].0, items[i].1, w, b, fmt)
  {
    var parts := PerMedication(items, w, b, fmt);
    ConcatMembership(parts, e);
    if i :| 0 <= i < |items| && e in ItemEvents(items[i].0, items[i].1, w, b, fmt) {
      assert e in parts[i];
    }
  }

  /** In-range dose records plus shown refill reminders, over all medications of `items`. */
  function ExpectedCount(items: seq<(string, MedicationEntry)>, w: Window, b: EntryBehaviour): nat {
    if items == [] then 0
    else
      var last := items[|items| - 1].1;
      ExpectedCount(items[..|items| - 1], w, b) + |InRange(last.dose.doseHistory, w)| + (if ShowsRefill(b, last, w) then 1 else 0)
  }

  /** Nothing else is emitted: the event count is the in-range dose records plus the shown refill reminders. */
  lemma {:induction false} CollectEventsCount(items: seq<(string, MedicationEntry)>, w: Window, b: EntryBehaviour, fmt: Formatter)
    ensures |CollectEvents(items, w, b, fmt)| == ExpectedCount(items, w, b)
  {
    if items != [] {
      var n := |items| - 1;
      CollectEventsCount(items[..n], w, b, fmt);
      CollectEventsSnoc(items, n, w, b, fmt);
      assert items[..n + 1] == items;
    }
  }

  /** The events of one medication start on a day inside the range and last five minutes or one hour. */
  lemma ItemEventsInWindow(id: string, m: MedicationEntry, w: Window, b: EntryBehaviour, fmt: Formatter, e: CalendarEvent)
    requires e in ItemEvents(id, m, w, b, fmt)
    ensures InWindow(w, DayOf(e.start))
    ensures e.end - e.start == DoseEventLength || e.end - e.start == RefillEventLength
  {
    if e in DoseEvents(id, m, m.dose.doseHistory, w, fmt) {
      DoseEventsExactly(id, m, m.dose.doseHistory, w, fmt, e);
    }
  }

  /** Every collected event starts on a day inside the range and lasts five minutes or one hour. */
  lemma EventsInWindow(items: seq<(string, MedicationEntry)>, w: Window, b: EntryBehaviour, fmt: Formatter)
    ensures forall e :: e in CollectEvents(items, w, b, fmt) ==>
      InWindow(w, DayOf(e.start)) && (e.end - e.start == DoseEventLength || e.end - e.start == RefillEventLength)
  {
    forall e | e in CollectEvents(items, w, b, fmt)
      ensures InWindow(w, DayOf(e.start)) && (e.end - e.start == DoseEventLength || e.end - e.start == RefillEventLength)
    {
      CollectEventsExactly(items, w, b, fmt, e);
      var i :| 0 <= i < |items| && e in ItemEvents(items[i].0, items[i].1, w, b, fmt);
      ItemEventsInWindow(items[i].0, items[i].1, w, b, fmt, e);
    }
  }

  // ---------------------------------------------------------------------
  // Stable sort by start time (Python's `list.sort(key=lambda x: x.start)`)

  predicate SortedByStart(s: seq<CalendarEvent>) {
    forall i, j :: 0 <= i < j < |s| ==> s[i].start <= s[j].start
  }

  /** `e` placed before the first element that starts no earlier than it. */
  function Insert(e: CalendarEvent, s: seq<CalendarEvent>): (r: seq<CalendarEvent>)
    ensures |r| == |s| + 1
    ensures multiset(r) == multiset(s) + multiset{e}
  {
    if s == [] then [e]
    else if e.start <= s[0].start then [e] + s
    else
      assert s == [s[0]] + s[1..];
      [s[0]] + Insert(e, s[1..])
  }

  /** Inserting into a sorted sequence keeps it sorted. */
  lemma InsertHead(e: CalendarEvent, s: seq<CalendarEvent>)
    ensures Insert(e, s)[0] == if s == [] || e.start <= s[0].start then e else s[0]
  {
  }

  lemma {:induction false} InsertSorted(e: CalendarEvent, s: seq<CalendarEvent>)
    requires SortedByStart(s)
    ensures SortedByStart(Insert(e, s))
  {
    if s != [] && e.start > s[0].start {
      var tail := s[1..];
      var rest := Insert(e, tail);
      InsertSorted(e, tail);
      InsertHead(e, tail);
      assert tail != [] ==> tail[0] == s[1];
      assert s[0].start <= rest[0].start;
      var r := [s[0]] + rest;
      assert r == Insert(e, s);
      forall i, j | 0 <= i < j < |r| ensures r[i].start <= r[j].start {
        assert r[j] == rest[j - 1];
        if i > 0 {
          assert r[i] == rest[i - 1];
        } else if j > 1 {
          assert rest[0].start <= rest[j - 1].start;
        }
      }
    }
  }

  /** Insertion sort: each element goes before the later elements with the same start. */
  function SortByStart(s: seq<CalendarEvent>): (r: seq<CalendarEvent>)
    ensures SortedByStart(r)
    ensures multiset(r) == multiset(s)
  {
    if s == [] then []
    else
      var rest := SortByStart(s[1..]);
      InsertSorted(s[0], rest);
      assert s == [s[0]] + s[1..];
      Insert(s[0], rest)
  }

  /** The events of `s` that start at `t`, in order. */
  function StartingAt(s: seq<CalendarEvent>, t: int): seq<CalendarEvent> {
    if s == [] then [] else (if s[0].start == t then [s[0]] else []) + StartingAt(s[1..], t)
  }

  lemma {:induction false} InsertStartingAt(e: CalendarEvent, s: seq<CalendarEvent>, t: int)
    ensures StartingAt(Insert(e, s), t) == (if e.start == t then [e] else []) + StartingAt(s, t)
  {
    var mark := if e.start == t then [e] else [];
    if s == [] {
      assert StartingAt([e], t) == mark + StartingAt([], t);
    } else if e.start <= s[0].start {
      var r := [e] + s;
      assert r[1..] == s;
      assert StartingAt(r, t) == mark + StartingAt(s, t);
    } else {
      var rest := Insert(e, s[1..]);
      var r := [s[0]] + rest;
      assert r[0] == s[0] && r[1..] == rest;
      InsertStartingAt(e, s[1..], t);
      var head := if s[0].start == t then [s[0]] else [];
      assert StartingAt(r, t) == head + StartingAt(rest, t);
      assert StartingAt(s, t) == head + StartingAt(s[1..], t);
      assert head == [] || mark == [];
    }
  }

  /** The sort is stable: events with equal start times keep their relative order. */
  lemma {:induction false} SortIsStable(s: seq<CalendarEvent>, t: int)
    ensures StartingAt(SortByStart(s), t) == StartingAt(s, t)
  {
    if s != [] {
      SortIsStable(s[1..], t);
      InsertStartingAt(s[0], SortByStart(s[1..]), t);
    }
  }

  // ---------------------------------------------------------------------
  // async_get_events

  /** The body of the inner loop of `async_get_events` for a record in range: summary, description and uid assembled into the record's event. */
  method MakeDoseEvent(id: string, m: MedicationEntry, record: DoseRecord, fmt: Formatter) returns (event: CalendarEvent)
    ensures event == DoseEvent(id, m, record, fmt)
  {
    var doseTime := record.timestamp;
    var summary := EventSummary(m, record);
    var description := EventDescription(m, record, fmt);
    event := CalendarEvent(doseTime, doseTime + DoseEventLength, summary, description,
                           Domain + "_" + id + "_" + fmt.isoDateTime(doseTime));
  }

  /** The inner loop of `async_get_events`: the events of one medication's dose history, appended in history order. */
  method AppendDoseEvents(events: seq<CalendarEvent>, id: string, m: MedicationEntry, w: Window, fmt: Formatter)
    returns (out: seq<CalendarEvent>)
    ensures out == events + DoseEvents(id, m, m.dose.doseHistory, w, fmt)
  {
    var history := m.dose.doseHistory;
    out := events;
    var j := 0;
    while j < |history|
      invariant 0 <= j <= |history|
      invariant out == events + DoseEvents(id, m, history[..j], w, fmt)
    {
      var record := history[j];
      var doseTime := record.timestamp;
      DoseEventsStep(events, out, id, m, history, j, w, fmt);
      if DayOf(w.start) <= DayOf(doseTime) <= DayOf(w.end) {
        var event := MakeDoseEvent(id, m, record, fmt);
        out := out + [event];
      }
      j := j + 1;
    }
    assert history[..j] == history;
  }

  /** The outer loop of `async_get_events`: every medication's dose events, then its refill reminder if shown. */
  method CollectAll(items: seq<(string, MedicationEntry)>, w: Window, b: EntryBehaviour, fmt: Formatter)
    returns (events: seq<CalendarEvent>)
    ensures events == CollectEvents(items, w, b, fmt)
  {
    events := [];
    var i := 0;
    while i < |items|
      invariant 0 <= i <= |items|
      invariant events == CollectEvents(items[..i], w, b, fmt)
    {
      var (id, m) := items[i];
      events := AppendDoseEvents(events, id, m, w, fmt);
      if m.data.supplyTrackingEnabled && m.data.showRefillOnCalendar {
        var refillDate := b.estimatedRefillDate(m);
        if refillDate.Some? && DayOf(w.start) <= refillDate.value <= DayOf(w.end) {
          events := events + [RefillEvent(id, m, refillDate.value, fmt)];
        }
      }
      CollectEventsSnoc(items, i, w, b, fmt);
      i := i + 1;
    }
    assert items[..i] == items;
  }

  /**
   * `async_get_events` over the coordinator's medications: the collected
   * events, sorted by start time, stably.
   */
  method GetEvents(coordinator: Coordinator.MedicationCoordinator, w: Window, fmt: Formatter) returns (events: seq<CalendarEvent>)
    requires coordinator.Valid()
    ensures events == SortByStart(CollectEvents(coordinator.Items(), w, coordinator.behaviour, fmt))
    ensures SortedByStart(events)
    ensures multiset(events) == multiset(CollectEvents(coordinator.Items(), w, coordinator.behaviour, fmt))
    ensures forall e :: e in events ==> InWindow(w, DayOf(e.start))
  {
    var items := coordinator.Items();
    var collected := CollectAll(items, w, coordinator.behaviour, fmt);
    EventsInWindow(items, w, coordinator.behaviour, fmt);
    events := SortByStart(collected);
    forall e | e in events ensures InWindow(w, DayOf(e.start)) {
      assert e in multiset(events);
      assert e in multiset(collected);
    }
  }
}
