/**
 * The service layer: the calls `take_medication`, `skip_medication`,
 * `add_medication`, `remove_medication`, `update_medication`,
 * `refill_medication` and `update_supply` of the `medication_tracker`
 * domain, the lookup of the coordinator that holds a medication, and the
 * guarded registration of the services. A call's validated fields are an
 * `Option` each (absent when the caller left them out); dates given in a call
 * are day numbers.
 */
module Services {
  import opened Wrappers
  import opened Time
  import opened Models
  import opened Coordinator

  // ---------------------------------------------------------------------
  // Frequencies accepted by the add and update schemas

  datatype Frequency = Daily | Weekly | Monthly | AsNeeded

  function FrequencyName(f: Frequency): string {
    match f
    case Daily => "daily"
    case Weekly => "weekly"
    case Monthly => "monthly"
    case AsNeeded => "as_needed"
  }

  /** The schema's `vol.In([daily, weekly, monthly, as_needed])` check. */
  function ParseFrequency(s: string): (r: Option<Frequency>)
    ensures r.Some? ==> FrequencyName(r.value) == s
    ensures r.None? ==> forall f :: FrequencyName(f) != s
  {
    if s == "daily" then Some(Daily)
    else if s == "weekly" then Some(Weekly)
    else if s == "monthly" then Some(Monthly)
    else if s == "as_needed" then Some(AsNeeded)
    else None
  }

  /** Every accepted frequency is read back as itself. */
  lemma FrequencyRoundTrip(f: Frequency)
    ensures ParseFrequency(FrequencyName(f)) == Some(f)
  {
  }

  // ---------------------------------------------------------------------
  // Date conversion

  /** A date from a call becomes the start of that local day. */
  function DayStart(day: Option<int>): (r: Option<int>)
    ensures r.Some? <==> day.Some?
    ensures day.Some? ==> DayOf(r.value) == day.value && DayOf(r.value - 1) == day.value - 1
  {
    if day.Some? then Some(StartOfDay(day.value)) else None
  }

  /** A date from a call becomes start of day + 1 day - 1 microsecond: the last microsecond of that day. */
  function DayEnd(day: Option<int>): (r: Option<int>)
    ensures r.Some? <==> day.Some?
    ensures day.Some? ==> DayOf(r.value) == day.value && DayOf(r.value + 1) == day.value + 1
  {
    if day.Some? then Some(EndOfDay(day.value)) else None
  }

  // ---------------------------------------------------------------------
  // add_medication

  const DefaultPillsPerDose: int := 1
  const DefaultRefillThreshold: int := 7

  /** The fields of an `add_medication` call; `cv.positive_int` admits every integer >= 0. */
  datatype AddCall = AddCall(
    name: string,
    dosage: string,
    frequency: Frequency,
    times: Option<seq<string>>,
    startDate: Option<int>,
    endDate: Option<int>,
    notes: Option<string>,
    supplyTrackingEnabled: Option<bool>,
    currentSupply: Option<nat>,
    pillsPerDose: Option<nat>,
    refillReminderThreshold: Option<nat>,
    showRefillOnCalendar: Option<bool>)

  /** The record `handle_add_medication` builds: the call's fields, with defaults for the absent ones. */
  function AddData(call: AddCall): (d: MedicationData)
    ensures d.name == call.name && d.dosage == call.dosage
    ensures d.frequency == FrequencyName(call.frequency)
    ensures d.times == (if call.times.Some? then call.times.value else [])
    ensures d.notes == (if call.notes.Some? then call.notes.value else "")
    ensures d.supplyTrackingEnabled == (call.supplyTrackingEnabled.Some? && call.supplyTrackingEnabled.value)
    ensures d.currentSupply.Some? <==> call.currentSupply.Some?
    ensures call.currentSupply.Some? ==> d.currentSupply.value == call.currentSupply.value
    ensures d.pillsPerDose == (if call.pillsPerDose.Some? then call.pillsPerDose.value else 1)
    ensures d.refillReminderThreshold == (if call.refillReminderThreshold.Some? then call.refillReminderThreshold.value else 7)
    ensures d.showRefillOnCalendar == (call.showRefillOnCalendar.Some? && call.showRefillOnCalendar.value)
    ensures d.lastRefillDate.None?
    ensures d.startDate.Some? <==> call.startDate.Some?
    ensures d.endDate.Some? <==> call.endDate.Some?
    ensures call.startDate.Some? ==> d.startDate.value == StartOfDay(call.startDate.value)
    ensures call.endDate.Some? ==> DayOf(d.endDate.value) == call.endDate.value && DayOf(d.endDate.value + 1) == call.endDate.value + 1
  {
    MedicationData(
      name := call.name,
      dosage := call.dosage,
      frequency := FrequencyName(call.frequency),
      times := call.times.GetOr([]),
      startDate := DayStart(call.startDate),
      endDate := DayEnd(call.endDate),
      notes := call.notes.GetOr(""),
      supplyTrackingEnabled := call.supplyTrackingEnabled.GetOr(false),
      currentSupply := if call.currentSupply.Some? then Some(call.currentSupply.value as int) else None,
      pillsPerDose := call.pillsPerDose.GetOr(DefaultPillsPerDose),
      refillReminderThreshold := call.refillReminderThreshold.GetOr(DefaultRefillThreshold),
      lastRefillDate := None,
      showRefillOnCalendar := call.showRefillOnCalendar.GetOr(false))
  }

  // ---------------------------------------------------------------------
  // update_medication

  /** The fields of an `update_medication` call. */
  datatype UpdateCall = UpdateCall(
    medicationId: string,
    name: Option<string>,
    dosage: Option<string>,
    frequency: Option<Frequency>,
    times: Option<seq<string>>,
    startDate: Option<int>,
    endDate: Option<int>,
    notes: Option<string>,
    supplyTrackingEnabled: Option<bool>,
    currentSupply: Option<nat>,
    pillsPerDose: Option<nat>,
    refillReminderThreshold: Option<nat>,
    showRefillOnCalendar: Option<bool>)

  /** An update call that names the medication and changes no field. */
  function NoChanges(id: string): UpdateCall {
    UpdateCall(id, None, None, None, None, None, None, None, None, None, None, None, None)
  }

  /**
   * The merged start date: the call's date as the start of its day, else the
   * stored datetime, which is not a string and so is snapped back to the
   * start of its own day.
   */
  function MergedStart(given: Option<int>, current: Option<int>): (r: Option<int>)
    ensures r.Some? <==> given.Some? || current.Some?
    ensures given.Some? ==> r.value == StartOfDay(given.value)
    ensures given.None? && current.Some? ==>
      DayOf(r.value) == DayOf(current.value) && r.value <= current.value && DayOf(r.value - 1) == DayOf(current.value) - 1
  {
    if given.Some? then Some(StartOfDay(given.value))
    else if current.Some? then
      WithinOwnDay(current.value);
      Some(StartOfDay(DayOf(current.value)))
    else None
  }

  /** The merged end date: the call's date as the end of its day, else the stored datetime snapped to the end of its day. */
  function MergedEnd(given: Option<int>, current: Option<int>): (r: Option<int>)
    ensures r.Some? <==> given.Some? || current.Some?
    ensures given.Some? ==> r.value == EndOfDay(given.value)
    ensures given.None? && current.Some? ==>
      DayOf(r.value) == DayOf(current.value) && current.value <= r.value && DayOf(r.value + 1) == DayOf(current.value) + 1
  {
    if given.Some? then Some(EndOfDay(given.value))
    else if current.Some? then
      WithinOwnDay(current.value);
      Some(EndOfDay(DayOf(current.value)))
    else None
  }

  /** The call's value for a field when supplied, else the current one. */
  function Pick<T>(given: Option<T>, current: T): T {
    if given.Some? then given.value else current
  }

  /** The record `handle_update_medication` builds from the call and the stored record. */
  function MergeUpdate(call: UpdateCall, cur: MedicationData): (d: MedicationData)
    ensures d.name == Pick(call.name, cur.name) && d.dosage == Pick(call.dosage, cur.dosage)
    ensures call.frequency.Some? ==> d.frequency == FrequencyName(call.frequency.value)
    ensures call.frequency.None? ==> d.frequency == cur.frequency
    ensures d.times == Pick(call.times, cur.times) && d.notes == Pick(call.notes, cur.notes)
    ensures d.supplyTrackingEnabled == Pick(call.supplyTrackingEnabled, cur.supplyTrackingEnabled)
    ensures call.currentSupply.Some? ==> d.currentSupply == Some(call.currentSupply.value as int)
    ensures call.currentSupply.None? ==> d.currentSupply == cur.currentSupply
    ensures d.pillsPerDose == if call.pillsPerDose.Some? then call.pillsPerDose.value else cur.pillsPerDose
    ensures d.refillReminderThreshold == if call.refillReminderThreshold.Some? then call.refillReminderThreshold.value else cur.refillReminderThreshold
    ensures d.showRefillOnCalendar == Pick(call.showRefillOnCalendar, cur.showRefillOnCalendar)
    ensures d.lastRefillDate == cur.lastRefillDate
    ensures d.startDate == MergedStart(call.startDate, cur.startDate)
    ensures d.endDate == MergedEnd(call.endDate, cur.endDate)
  {
    MedicationData(
      name := Pick(call.name, cur.name),
      dosage := Pick(call.dosage, cur.dosage),
      frequency := if call.frequency.Some? then FrequencyName(call.frequency.value) else cur.frequency,
      times := Pick(call.times, cur.times),
      startDate := MergedStart(call.startDate, cur.startDate),
      endDate := MergedEnd(call.endDate, cur.endDate),
      notes := Pick(call.notes, cur.notes),
      supplyTrackingEnabled := Pick(call.supplyTrackingEnabled, cur.supplyTrackingEnabled),
      currentSupply := if call.currentSupply.Some? then Some(call.currentSupply.value as int) else cur.currentSupply,
      pillsPerDose := if call.pillsPerDose.Some? then call.pillsPerDose.value else cur.pillsPerDose,
      refillReminderThreshold := if call.refillReminderThreshold.Some? then call.refillReminderThreshold.value else cur.refillReminderThreshold,
      lastRefillDate := cur.lastRefillDate,
      showRefillOnCalendar := Pick(call.showRefillOnCalendar, cur.showRefillOnCalendar))
  }

  /** Applying the same update twice gives the same record as applying it once. */
  lemma MergeUpdateIdempotent(call: UpdateCall, cur: MedicationData)
    ensures MergeUpdate(call, MergeUpdate(call, cur)) == MergeUpdate(call, cur)
  {
    var once := MergeUpdate(call, cur);
    if call.startDate.None? && cur.startDate.Some? {
      assert DayOf(once.startDate.value) == DayOf(cur.startDate.value);
    }
    if call.endDate.None? && cur.endDate.Some? {
      assert DayOf(once.endDate.value) == DayOf(cur.endDate.value);
    }
  }

  /**
   * An update that changes no field leaves the record `add_medication` stored
   * (its start date filled in from `now`) exactly as it was.
   */
  lemma NoChangesKeepStoredRecord(id: string, call: AddCall, now: int)
    ensures MergeUpdate(NoChanges(id), WithStartDate(AddData(call), now)) == WithStartDate(AddData(call), now)
  {
    var d := WithStartDate(AddData(call), now);
    assert StartOfDay(DayOf(d.startDate.value)) == d.startDate.value;
    if d.endDate.Some? {
      assert EndOfDay(DayOf(d.endDate.value)) == d.endDate.value;
    }
  }

  // ---------------------------------------------------------------------
  // Coordinator lookup over `hass.data[DOMAIN]`

  /** A value stored under the domain key: a coordinator, or anything else. */
  datatype DomainValue = CoordinatorValue(coordinator: MedicationCoordinator) | OtherValue

  /** The values of `hass.data[DOMAIN]` in iteration order; no values when the domain is absent. */
  function Values(domain: Option<seq<DomainValue>>): seq<DomainValue> {
    if domain.Some? then domain.value else []
  }

  function CoordinatorsIn(vs: seq<DomainValue>): set<MedicationCoordinator> {
    set v | v in vs && v.CoordinatorValue? :: v.coordinator
  }

  ghost predicate CoordinatorsValid(domain: Option<seq<DomainValue>>)
    reads CoordinatorsIn(Values(domain))
  {
    forall c :: c in CoordinatorsIn(Values(domain)) ==> c.Valid()
  }

  /** The value at `k` is a coordinator whose `get_medication(id)` finds the medication. */
  predicate HoldsAt(vs: seq<DomainValue>, k: int, id: string)
    requires 0 <= k < |vs|
    reads CoordinatorsIn(vs)
  {
    vs[k].CoordinatorValue? && id in vs[k].coordinator.medications
  }

  /** The first position at or after `from` that holds `id`. */
  function FirstHolder(vs: seq<DomainValue>, id: string, from: nat): (r: Option<nat>)
    requires from <= |vs|
    reads CoordinatorsIn(vs)
    decreases |vs| - from
    ensures r.Some? ==> from <= r.value < |vs| && HoldsAt(vs, r.value, id)
    ensures r.Some? ==> forall j :: from <= j < r.value ==> !HoldsAt(vs, j, id)
    ensures r.None? ==> forall j :: from <= j < |vs| ==> !HoldsAt(vs, j, id)
  {
    if from == |vs| then None
    else if HoldsAt(vs, from, id) then Some(from)
    else FirstHolder(vs, id, from + 1)
  }

  /** The coordinator a call for `id` is routed to, or null. */
  function HolderOf(domain: Option<seq<DomainValue>>, id: string): (r: MedicationCoordinator?)
    reads CoordinatorsIn(Values(domain))
    ensures r != null ==> r in CoordinatorsIn(Values(domain)) && id in r.medications
  {
    var vs := Values(domain);
    var first := FirstHolder(vs, id, 0);
    if first.Some? then vs[first.value].coordinator else null
  }

  /**
   * `_get_coordinator_for_medication`: null when the domain has no data;
   * otherwise the first coordinator, in iteration order, that holds `id`,
   * or null when none does.
   */
  method FindCoordinator(domain: Option<seq<DomainValue>>, id: string) returns (r: MedicationCoordinator?)
    requires CoordinatorsValid(domain)
    ensures domain.None? ==> r == null
    ensures r == HolderOf(domain, id)
    ensures r != null ==> exists k :: 0 <= k < |Values(domain)| && Values(domain)[k] == CoordinatorValue(r)
                                       && id in r.medications
                                       && forall j :: 0 <= j < k ==> !HoldsAt(Values(domain), j, id)
    ensures r == null ==> forall k :: 0 <= k < |Values(domain)| ==> !HoldsAt(Values(domain), k, id)
  {
    if domain.None? {
      return null;
    }
    var vs := domain.value;
    var i := 0;
    while i < |vs|
      invariant 0 <= i <= |vs|
      invariant FirstHolder(vs, id, i) == FirstHolder(vs, id, 0)
    {
      if vs[i].CoordinatorValue? {
        var c := vs[i].coordinator;
        assert c in CoordinatorsIn(vs);
        var found := c.GetMedication(id);
        if found.Some? {
          return c;
        }
      }
      i := i + 1;
    }
    return null;
  }

  /** The coordinators in `vs`, in order. */
  function CoordinatorsOf(vs: seq<DomainValue>): (r: seq<MedicationCoordinator>)
    ensures forall c | c in r :: CoordinatorValue(c) in vs
    ensures forall v | v in vs && v.CoordinatorValue? :: v.coordinator in r
  {
    if vs == [] then []
    else
      var rest := CoordinatorsOf(vs[1..]);
      assert vs == [vs[0]] + vs[1..];
      if vs[0].CoordinatorValue? then [vs[0].coordinator] + rest else rest
  }

  /** The head of `CoordinatorsOf(vs)` is the first coordinator in `vs`; it is empty exactly when `vs` holds none. */
  lemma {:induction false} FirstCoordinatorFirst(vs: seq<DomainValue>)
    ensures CoordinatorsOf(vs) != [] ==>
      exists k :: 0 <= k < |vs| && vs[k] == CoordinatorValue(CoordinatorsOf(vs)[0])
                  && forall j :: 0 <= j < k ==> vs[j].OtherValue?
    ensures CoordinatorsOf(vs) == [] ==> forall k :: 0 <= k < |vs| ==> vs[k].OtherValue?
  {
    if vs != [] && vs[0].OtherValue? {
      var rest := CoordinatorsOf(vs[1..]);
      FirstCoordinatorFirst(vs[1..]);
      if rest != [] {
        var k :| 0 <= k < |vs[1..]| && vs[1..][k] == CoordinatorValue(rest[0])
                 && forall j :: 0 <= j < k ==> vs[1..][j].OtherValue?;
        assert vs[k + 1] == CoordinatorValue(rest[0]);
        assert forall j :: 1 <= j < k + 1 ==> vs[j] == vs[1..][j - 1];
      } else {
        assert forall k :: 1 <= k < |vs| ==> vs[k] == vs[1..][k - 1];
      }
    }
  }

  /** Listing the coordinators of two runs of values one after the other keeps both runs' order. */
  lemma {:induction false} CoordinatorsOfAppend(a: seq<DomainValue>, b: seq<DomainValue>)
    ensures CoordinatorsOf(a + b) == CoordinatorsOf(a) + CoordinatorsOf(b)
  {
    if a == [] {
      assert a + b == b;
    } else {
      assert (a + b)[0] == a[0] && (a + b)[1..] == a[1..] + b;
      CoordinatorsOfAppend(a[1..], b);
      if a[0].CoordinatorValue? {
        assert CoordinatorsOf(a + b) == [a[0].coordinator] + CoordinatorsOf(a[1..] + b);
        assert CoordinatorsOf(a) == [a[0].coordinator] + CoordinatorsOf(a[1..]);
      }
    }
  }

  /** A coordinator value lists that coordinator once; any other value lists nothing. */
  lemma CoordinatorsOfSingle(v: DomainValue)
    ensures CoordinatorsOf([v]) == if v.CoordinatorValue? then [v.coordinator] else []
  {
    assert [v][1..] == [];
  }

  /** `_get_all_coordinators`: the coordinators among the domain's values, in order; none when the domain is absent. */
  function AllCoordinators(domain: Option<seq<DomainValue>>): (r: seq<MedicationCoordinator>)
    ensures domain.None? ==> r == []
    ensures forall c | c in r :: c in CoordinatorsIn(Values(domain))
    ensures forall c | c in CoordinatorsIn(Values(domain)) :: c in r
  {
    CoordinatorsOf(Values(domain))
  }

  /**
   * The coordinators of a domain whose values are `a` followed by `b` are
   * those of `a` followed by those of `b`: iteration order is kept, each
   * coordinator value contributes once.
   */
  lemma AllCoordinatorsInOrder(a: seq<DomainValue>, b: seq<DomainValue>)
    ensures AllCoordinators(Some(a + b)) == AllCoordinators(Some(a)) + AllCoordinators(Some(b))
  {
    CoordinatorsOfAppend(a, b);
  }

  /** The coordinator a lookup finds is among all coordinators. */
  lemma HolderIsListed(domain: Option<seq<DomainValue>>, id: string)
    ensures HolderOf(domain, id) != null ==> HolderOf(domain, id) in AllCoordinators(domain)
  {
  }

  function FirstOf(cs: seq<MedicationCoordinator>): set<MedicationCoordinator> {
    if cs == [] then {} else {cs[0]}
  }

  // ---------------------------------------------------------------------
  // Service handlers

  /** `handle_add_medication`: add to the first coordinator; nothing when there is none. */
  method HandleAdd(domain: Option<seq<DomainValue>>, call: AddCall, newId: string, now: int) returns (added: bool)
    requires CoordinatorsValid(domain)
    modifies FirstOf(AllCoordinators(domain))
    ensures CoordinatorsValid(domain)
    ensures added == (AllCoordinators(domain) != [])
    ensures added ==>
      var c := AllCoordinators(domain)[0];
      && c.medications == old(c.medications)[newId := NewEntry(c.behaviour, newId, WithStartDate(AddData(call), now))]
      && c.order == (if newId in old(c.medications) then old(c.order) else old(c.order) + [newId])
      && c.lowSupplyEvents == old(c.lowSupplyEvents)
  {
    var coordinators := AllCoordinators(domain);
    if coordinators == [] {
      return false;
    }
    var c := coordinators[0];
    var data := AddData(call);
    var id := c.Add(data, newId, now);
    return true;
  }

  /**
   * `handle_update_medication`: merge the call over the stored record in the
   * coordinator that holds it; nothing changes when none does. The handler's
   * second `get_medication` check repeats the lookup that found the holder and
   * so cannot fail.
   */
  method HandleUpdate(domain: Option<seq<DomainValue>>, call: UpdateCall, now: int)
    requires CoordinatorsValid(domain)
    modifies CoordinatorsIn(Values(domain))
    ensures CoordinatorsValid(domain)
    ensures old(HolderOf(domain, call.medicationId)) == null ==> unchanged(CoordinatorsIn(Values(domain)))
    ensures var c := old(HolderOf(domain, call.medicationId));
      c != null ==>
        && unchanged(CoordinatorsIn(Values(domain)) - {c})
        && var m := old(c.medications)[call.medicationId];
           && c.medications == old(c.medications)[call.medicationId := Updated(c.behaviour, m, MergeUpdate(call, m.data), now)]
           && c.order == old(c.order) && c.lowSupplyEvents == old(c.lowSupplyEvents)
  {
    var id := call.medicationId;
    var c := FindCoordinator(domain, id);
    if c == null {
      return;
    }
    var current := c.GetMedication(id).value;
    var updated := MergeUpdate(call, current.data);
    var ok := c.Update(id, updated, now);
  }

  /** `handle_take_medication`: routed to the holder of the id; nothing changes when none holds it. */
  method HandleTake(domain: Option<seq<DomainValue>>, id: string, takenAt: Option<int>, now: int)
    requires CoordinatorsValid(domain)
    modifies CoordinatorsIn(Values(domain))
    ensures CoordinatorsValid(domain)
    ensures old(HolderOf(domain, id)) == null ==> unchanged(CoordinatorsIn(Values(domain)))
    ensures var c := old(HolderOf(domain, id));
      c != null ==>
        && unchanged(CoordinatorsIn(Values(domain)) - {c})
        && c.medications == old(c.medications)[id := Taken(c.behaviour, old(c.medications)[id], takenAt.GetOr(now))]
        && c.lowSupplyEvents == old(c.lowSupplyEvents) + TakeEvents(c.behaviour, old(c.medications)[id], takenAt.GetOr(now))
        && c.order == old(c.order)
  {
    var c := FindCoordinator(domain, id);
    if c != null {
      var ok := c.Take(id, takenAt, now);
    }
  }

  /** `handle_skip_medication`: routed to the holder of the id; nothing changes when none holds it. */
  method HandleSkip(domain: Option<seq<DomainValue>>, id: string, skippedAt: Option<int>, now: int)
    requires CoordinatorsValid(domain)
    modifies CoordinatorsIn(Values(domain))
    ensures CoordinatorsValid(domain)
    ensures old(HolderOf(domain, id)) == null ==> unchanged(CoordinatorsIn(Values(domain)))
    ensures var c := old(HolderOf(domain, id));
      c != null ==>
        && unchanged(CoordinatorsIn(Values(domain)) - {c})
        && c.medications == old(c.medications)[id := Skipped(c.behaviour, old(c.medications)[id], skippedAt.GetOr(now))]
        && c.order == old(c.order) && c.lowSupplyEvents == old(c.lowSupplyEvents)
  {
    var c := FindCoordinator(domain, id);
    if c != null {
      var ok := c.Skip(id, skippedAt, now);
    }
  }

  /** `handle_remove_medication`: the holder of the id loses it; nothing changes when none holds it. */
  method HandleRemove(domain: Option<seq<DomainValue>>, id: string)
    requires CoordinatorsValid(domain)
    modifies CoordinatorsIn(Values(domain))
    ensures CoordinatorsValid(domain)
    ensures old(HolderOf(domain, id)) == null ==> unchanged(CoordinatorsIn(Values(domain)))
    ensures var c := old(HolderOf(domain, id));
      c != null ==>
        && unchanged(CoordinatorsIn(Values(domain)) - {c})
        && c.medications == old(c.medications) - {id}
        && c.order == Without(old(c.order), id)
        && c.lowSupplyEvents == old(c.lowSupplyEvents)
  {
    var c := FindCoordinator(domain, id);
    if c != null {
      var ok := c.Remove(id);
    }
  }

  /** `handle_refill_medication`: routed to the holder of the id; a holder without supply tracking is left unchanged. */
  method HandleRefill(domain: Option<seq<DomainValue>>, id: string, amount: nat, refillDate: Option<int>, now: int)
    requires CoordinatorsValid(domain)
    modifies CoordinatorsIn(Values(domain))
    ensures CoordinatorsValid(domain)
    ensures old(HolderOf(domain, id)) == null ==> unchanged(CoordinatorsIn(Values(domain)))
    ensures var c := old(HolderOf(domain, id));
      c != null ==>
        && unchanged(CoordinatorsIn(Values(domain)) - {c})
        && var m := old(c.medications)[id];
           && c.medications == (if m.data.supplyTrackingEnabled
             then old(c.medications)[id := Refilled(m, amount, refillDate.GetOr(now))]
             else old(c.medications))
           && c.order == old(c.order) && c.lowSupplyEvents == old(c.lowSupplyEvents)
  {
    var c := FindCoordinator(domain, id);
    if c != null {
      var ok := c.Refill(id, amount, refillDate, now);
    }
  }

  /** `handle_update_supply`: routed to the holder of the id; a holder without supply tracking is left unchanged. */
  method HandleUpdateSupply(domain: Option<seq<DomainValue>>, id: string, newSupply: nat)
    requires CoordinatorsValid(domain)
    modifies CoordinatorsIn(Values(domain))
    ensures CoordinatorsValid(domain)
    ensures old(HolderOf(domain, id)) == null ==> unchanged(CoordinatorsIn(Values(domain)))
    ensures var c := old(HolderOf(domain, id));
      c != null ==>
        && unchanged(CoordinatorsIn(Values(domain)) - {c})
        && var m := old(c.medications)[id];
           && c.medications == (if m.data.supplyTrackingEnabled
             then old(c.medications)[id := SupplySet(m, newSupply)]
             else old(c.medications))
           && c.order == old(c.order)
           && c.lowSupplyEvents == old(c.lowSupplyEvents)
             + (if old(c.medications)[id].data.supplyTrackingEnabled then SupplyEvents(c.behaviour, old(c.medications)[id], newSupply) else [])
  {
    var c := FindCoordinator(domain, id);
    if c != null {
      var ok := c.UpdateSupply(id, newSupply);
    }
  }

  // ---------------------------------------------------------------------
  // Service registration

  const ServiceNames: seq<string> := [
    "take_medication", "skip_medication", "add_medication", "remove_medication",
    "update_medication", "refill_medication", "update_supply"]

  /** The services registered under the `medication_tracker` domain. */
  class ServiceRegistry {
    var services: set<string>
    /** every `async_register` call made, oldest first */
    ghost var registrations: seq<string>

    constructor ()
      ensures services == {} && registrations == []
    {
      services := {};
      registrations := [];
    }

    method Register(name: string)
      modifies this
      ensures services == old(services) + {name}
      ensures registrations == old(registrations) + [name]
    {
      services := services + {name};
      registrations := registrations + [name];
    }

    /**
     * `async_setup_services`: when `take_medication` is already registered
     * nothing is registered again; otherwise all seven services are.
     */
    method SetupServices()
      modifies this
      ensures "take_medication" in services
      ensures "take_medication" in old(services) ==> services == old(services) && registrations == old(registrations)
      ensures "take_medication" !in old(services) ==>
        && services == old(services) + set n | n in ServiceNames
        && registrations == old(registrations) + ServiceNames
    {
      if "take_medication" in services {
        return;
      }
      Register("take_medication");
      Register("skip_medication");
      Register("add_medication");
      Register("remove_medication");
      Register("update_medication");
      Register("refill_medication");
      Register("update_supply");
    }

    /** `async_unload_services`: all seven services are removed. */
    method UnloadServices()
      modifies this
      ensures services == old(services) - set n | n in ServiceNames
      ensures registrations == old(registrations)
    {
      services := services - {"take_medication"};
      services := services - {"skip_medication"};
      services := services - {"add_medication"};
      services := services - {"remove_medication"};
      services := services - {"update_medication"};
      services := services - {"refill_medication"};
      services := services - {"update_supply"};
    }
  }
}
