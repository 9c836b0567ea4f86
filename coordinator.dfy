/**
 * The medication store of one config entry (`MedicationCoordinator`): a
 * dictionary from medication id to entry, kept in insertion order as Python
 * dictionaries are, plus the low-supply events it has fired on the event bus.
 * Storage, the device and entity registries and the refresh plumbing are not
 * modelled; `now` and new ids are parameters.
 */
module Coordinator {
  import opened Wrappers
  import opened Time
  import opened Models

  /** The payload of a `medication_tracker_low_supply` event (without the float `days_remaining`). */
  datatype LowSupplyEvent = LowSupplyEvent(
    medicationId: string,
    medicationName: string,
    currentSupply: Option<int>,
    pillsPerDose: int,
    refillThresholdDays: int,
    estimatedRefillDate: Option<int>)

  predicate Distinct(s: seq<string>) {
    forall i, j :: 0 <= i < j < |s| ==> s[i] != s[j]
  }

  /** `s` with `x` deleted, the key order after `del d[x]`. */
  function Without(s: seq<string>, x: string): (r: seq<string>)
    ensures forall y :: y in r <==> y in s && y != x
    ensures Distinct(s) ==> Distinct(r)
    ensures x !in s ==> r == s
  {
    if s == [] then []
    else if s[0] == x then Without(s[1..], x)
    else
      var rest := Without(s[1..], x);
      assert Distinct(s) ==> s[0] !in rest;
      [s[0]] + rest
  }

  /** Deleting a key of a duplicate-free order cuts it out where it stands; every other key keeps its place. */
  lemma {:induction false} WithoutDeletesAt(s: seq<string>, x: string, i: int)
    requires Distinct(s) && 0 <= i < |s| && s[i] == x
    ensures Without(s, x) == s[..i] + s[i + 1..]
  {
    if i == 0 {
      assert x !in s[1..];
    } else {
      assert s[1..][i - 1] == x;
      WithoutDeletesAt(s[1..], x, i - 1);
      assert s[..i] == [s[0]] + s[1..][..i - 1];
      assert s[i + 1..] == s[1..][i..];
    }
  }

  /** Deleting a key that was just appended restores the key order. */
  lemma {:induction false} WithoutAppended(s: seq<string>, x: string)
    requires x !in s
    ensures Without(s + [x], x) == s
  {
    if s != [] {
      assert (s + [x])[1..] == s[1..] + [x];
      WithoutAppended(s[1..], x);
      assert [s[0]] + s[1..] == s;
    }
  }

  /** Removing a medication that was just added under a new id restores the dictionary and its order. */
  lemma AddThenRemove(medications: map<string, MedicationEntry>, order: seq<string>, id: string, entry: MedicationEntry)
    requires id !in medications && id !in order
    ensures medications[id := entry] - {id} == medications
    ensures Without(order + [id], id) == order
  {
    WithoutAppended(order, id);
  }

  /** The (key, entry) pairs of `medications` in the order of `keys`. */
  function ItemsOf(keys: seq<string>, medications: map<string, MedicationEntry>): (r: seq<(string, MedicationEntry)>)
    requires forall k :: k in keys ==> k in medications
    ensures |r| == |keys|
    ensures forall i :: 0 <= i < |r| ==> r[i].0 == keys[i] && r[i].1 == medications[keys[i]]
  {
    if keys == [] then [] else [(keys[0], medications[keys[0]])] + ItemsOf(keys[1..], medications)
  }

  /** The data handed to `async_add_medication`, with an unset start date set to midnight today. */
  function WithStartDate(data: MedicationData, now: int): (r: MedicationData)
    ensures r.startDate.Some?
    ensures data.startDate.Some? ==> r == data
    ensures data.startDate.None? ==>
      && r == data.(startDate := r.startDate)
      && DayOf(r.startDate.value) == DayOf(now)
      && r.startDate.value <= now
      && DayOf(r.startDate.value - 1) == DayOf(now) - 1
  {
    if data.startDate.None? then
      WithinOwnDay(now);
      data.(startDate := Some(StartOfDay(DayOf(now))))
    else data
  }

  /** A freshly created entry. */
  function NewEntry(b: EntryBehaviour, id: string, data: MedicationData): (m: MedicationEntry)
    ensures m.id == id && m.data == data
  {
    MedicationEntry(id, data, b.initialDoseState(data))
  }

  /** The entry after `async_update_medication`: new data, schedule reset, status updated. */
  function Updated(b: EntryBehaviour, m: MedicationEntry, data: MedicationData, now: int): (r: MedicationEntry)
    ensures r.id == m.id && r.data == data
    ensures r.dose == b.updateStatus(m.(data := data).(dose := b.resetSchedule(m.(data := data))), now)
  {
    var replaced := m.(data := data);
    var reset := replaced.(dose := b.resetSchedule(replaced));
    reset.(dose := b.updateStatus(reset, now))
  }

  /** The entry after `async_take_medication`: the dose is recorded, and the supply decremented only under tracking. */
  function Taken(b: EntryBehaviour, m: MedicationEntry, at: int): (r: MedicationEntry)
    ensures r.id == m.id
    ensures r.dose == b.recordDoseTaken(m, at)
    ensures !m.data.supplyTrackingEnabled ==> r.data == m.data
    ensures m.data.supplyTrackingEnabled ==>
      r.data == m.data.(currentSupply := b.decrementSupply(m.(dose := r.dose)))
  {
    var recorded := m.(dose := b.recordDoseTaken(m, at));
    if recorded.data.supplyTrackingEnabled then
      recorded.(data := recorded.data.(currentSupply := b.decrementSupply(recorded)))
    else recorded
  }

  /** The entry after `async_skip_medication`: only the dose state changes. */
  function Skipped(b: EntryBehaviour, m: MedicationEntry, at: int): (r: MedicationEntry)
    ensures r.id == m.id && r.data == m.data
    ensures r.dose == b.recordDoseSkipped(m, at)
  {
    m.(dose := b.recordDoseSkipped(m, at))
  }

  /** The entry after a successful `async_refill_medication`. */
  function Refilled(m: MedicationEntry, amount: int, when: int): (r: MedicationEntry)
    ensures r.id == m.id && r.dose == m.dose
    ensures r.data.currentSupply.Some?
    ensures r.data.currentSupply.value - m.data.currentSupply.GetOr(0) == amount
    ensures r.data.lastRefillDate == Some(when)
    ensures r.data == m.data.(currentSupply := r.data.currentSupply, lastRefillDate := r.data.lastRefillDate)
  {
    var current := m.data.currentSupply.GetOr(0);
    m.(data := m.data.(currentSupply := Some(current + amount), lastRefillDate := Some(when)))
  }

  /** The entry after a successful `async_update_supply`. */
  function SupplySet(m: MedicationEntry, newSupply: int): (r: MedicationEntry)
    ensures r.id == m.id && r.dose == m.dose
    ensures r.data.currentSupply == Some(newSupply)
    ensures r.data == m.data.(currentSupply := r.data.currentSupply)
  {
    m.(data := m.data.(currentSupply := Some(newSupply)))
  }

  /** Two refills add up: the supply grows by the sum, the later date wins. */
  lemma RefillsAccumulate(m: MedicationEntry, a: int, b: int, w1: int, w2: int)
    ensures Refilled(Refilled(m, a, w1), b, w2) == Refilled(m, a + b, w2)
  {
  }

  /** Setting the supply overwrites it: only the last value counts. */
  lemma SupplySetOverwrites(m: MedicationEntry, a: int, b: int)
    ensures SupplySet(SupplySet(m, a), b) == SupplySet(m, b)
  {
  }

  /** The event payload describing `m` once its supply has become low. */
  function LowSupplyPayload(b: EntryBehaviour, m: MedicationEntry): (e: LowSupplyEvent)
    ensures e.medicationId == m.id && e.medicationName == m.data.name
    ensures e.currentSupply == m.data.currentSupply && e.pillsPerDose == m.data.pillsPerDose
    ensures e.refillThresholdDays == m.data.refillReminderThreshold
    ensures e.estimatedRefillDate == b.estimatedRefillDate(m)
  {
    LowSupplyEvent(m.id, m.data.name, m.data.currentSupply, m.data.pillsPerDose,
                   m.data.refillReminderThreshold, b.estimatedRefillDate(m))
  }

  /** The supply of an entry crosses from not low (`before`) to low (`after`). */
  predicate BecomesLow(b: EntryBehaviour, before: MedicationEntry, after: MedicationEntry) {
    !b.isLowSupply(before) && b.isLowSupply(after)
  }

  /** The events a successful take fires: one exactly when tracking is on and supply crosses into low. */
  function TakeEvents(b: EntryBehaviour, m: MedicationEntry, at: int): (ev: seq<LowSupplyEvent>)
    ensures |ev| <= 1
    ensures |ev| == 1 <==> m.data.supplyTrackingEnabled && BecomesLow(b, m, Taken(b, m, at))
    ensures |ev| == 1 ==> ev[0] == LowSupplyPayload(b, Taken(b, m, at))
  {
    if m.data.supplyTrackingEnabled && BecomesLow(b, m, Taken(b, m, at)) then
      [LowSupplyPayload(b, Taken(b, m, at))]
    else []
  }

  /** The events a successful supply update fires: one exactly when supply crosses into low. */
  function SupplyEvents(b: EntryBehaviour, m: MedicationEntry, newSupply: int): (ev: seq<LowSupplyEvent>)
    ensures |ev| <= 1
    ensures |ev| == 1 <==> BecomesLow(b, m, SupplySet(m, newSupply))
    ensures |ev| == 1 ==> ev[0] == LowSupplyPayload(b, SupplySet(m, newSupply))
  {
    if BecomesLow(b, m, SupplySet(m, newSupply)) then [LowSupplyPayload(b, SupplySet(m, newSupply))] else []
  }

  class MedicationCoordinator {
    const behaviour: EntryBehaviour
    /** `self._medications` */
    var medications: map<string, MedicationEntry>
    /** the insertion order of the keys of `self._medications` */
    var order: seq<string>
    /** the low-supply events fired on the event bus, oldest first */
    ghost var lowSupplyEvents: seq<LowSupplyEvent>

    ghost predicate Valid()
      reads this
    {
      && Distinct(order)
      && (forall k :: k in medications <==> k in order)
      && (forall k :: k in medications ==> medications[k].id == k)
    }

    constructor (behaviour: EntryBehaviour)
      ensures Valid()
      ensures medications == map[] && order == [] && lowSupplyEvents == []
    {
      this.behaviour := behaviour;
      medications := map[];
      order := [];
      lowSupplyEvents := [];
    }

    /** `get_medication`: the entry stored under `id`, if any. */
    function GetMedication(id: string): (r: Option<MedicationEntry>)
      reads this
      requires Valid()
      ensures r.Some? <==> id in medications
      ensures r.Some? ==> r.value == medications[id] && r.value.id == id
    {
      if id in medications then Some(medications[id]) else None
    }

    /** `get_all_medications`: a copy of the whole dictionary, agreeing with `GetMedication` on every id. */
    function AllMedications(): (r: map<string, MedicationEntry>)
      reads this
      requires Valid()
      ensures forall id :: id in r <==> GetMedication(id).Some?
      ensures forall id :: id in r ==> GetMedication(id) == Some(r[id]) && r[id].id == id
    {
      medications
    }

    /** The dictionary's items in iteration (insertion) order: every id exactly once. */
    function Items(): (r: seq<(string, MedicationEntry)>)
      reads this
      requires Valid()
      ensures |r| == |medications| == |order|
      ensures forall i :: 0 <= i < |r| ==> r[i].0 == order[i]
      ensures forall id :: id in medications <==> exists i :: 0 <= i < |r| && r[i].0 == id
      ensures forall i :: 0 <= i < |r| ==> r[i].0 in medications && r[i].1 == medications[r[i].0]
    {
      var r := ItemsOf(order, medications);
      assert |medications| == |order| by { OrderCountsKeys(); }
      forall id | id in medications ensures exists i :: 0 <= i < |r| && r[i].0 == id {
        var i :| 0 <= i < |order| && order[i] == id;
        assert r[i].0 == id;
      }
      r
    }

    /** The number of keys equals the length of the distinct key order. */
    lemma OrderCountsKeys()
      requires Valid()
      ensures |medications| == |order|
    {
      assert medications.Keys == set k | k in order;
      DistinctCardinality(order);
    }

    /** `_async_update_data`: every entry's status is updated at `now`. */
    method RefreshStatuses(now: int)
      requires Valid()
      modifies this
      ensures Valid()
      ensures medications.Keys == old(medications).Keys
      ensures forall k :: k in medications ==>
        medications[k] == old(medications)[k].(dose := behaviour.updateStatus(old(medications)[k], now))
      ensures order == old(order) && lowSupplyEvents == old(lowSupplyEvents)
    {
      var i := 0;
      while i < |order|
        invariant 0 <= i <= |order|
        invariant medications.Keys == old(medications).Keys
        invariant order == old(order) && lowSupplyEvents == old(lowSupplyEvents)
        invariant forall k :: k in medications ==>
          medications[k] == if k in order[..i]
            then old(medications)[k].(dose := behaviour.updateStatus(old(medications)[k], now))
            else old(medications)[k]
        invariant Valid()
      {
        var id := order[i];
        var m := medications[id];
        assert id !in order[..i];
        medications := medications[id := m.(dose := behaviour.updateStatus(m, now))];
        assert order[..i + 1] == order[..i] + [id];
        i := i + 1;
      }
      assert order[..i] == order;
    }

    /** `async_add_medication`: store a new entry under `newId` (standing for a fresh uuid4). */
    method Add(data: MedicationData, newId: string, now: int) returns (id: string)
      requires Valid()
      modifies this
      ensures Valid()
      ensures id == newId
      ensures medications == old(medications)[id := NewEntry(behaviour, id, WithStartDate(data, now))]
      ensures order == if id in old(medications) then old(order) else old(order) + [id]
      ensures lowSupplyEvents == old(lowSupplyEvents)
    {
      var d := data;
      if d.startDate.None? {
        d := d.(startDate := Some(StartOfDay(DayOf(now))));
      }
      var entry := MedicationEntry(newId, d, behaviour.initialDoseState(d));
      if entry.id !in medications {
        order := order + [entry.id];
      }
      medications := medications[entry.id := entry];
      id := entry.id;
    }

    /** `async_remove_medication`: true exactly when `id` was stored; afterwards it is gone. */
    method Remove(id: string) returns (removed: bool)
      requires Valid()
      modifies this
      ensures Valid()
      ensures removed == (id in old(medications))
      ensures id !in medications
      ensures medications == old(medications) - {id}
      ensures order == Without(old(order), id)
      ensures lowSupplyEvents == old(lowSupplyEvents)
    {
      if id in medications {
        medications := medications - {id};
        order := Without(order, id);
        return true;
      }
      return false;
    }

    /** `async_update_medication`: replace the data of a stored entry wholesale. */
    method Update(id: string, data: MedicationData, now: int) returns (ok: bool)
      requires Valid()
      modifies this
      ensures Valid()
      ensures ok == (id in old(medications))
      ensures ok ==> medications == old(medications)[id := Updated(behaviour, old(medications)[id], data, now)]
      ensures ok ==> medications[id].data == data
      ensures !ok ==> medications == old(medications)
      ensures order == old(order) && lowSupplyEvents == old(lowSupplyEvents)
    {
      if id !in medications {
        return false;
      }
      var m := medications[id];
      m := m.(data := data);
      m := m.(dose := behaviour.resetSchedule(m));
      m := m.(dose := behaviour.updateStatus(m, now));
      medications := medications[id := m];
      return true;
    }

    /** `async_take_medication` at `takenAt`, or at `now` when none is given. */
    method Take(id: string, takenAt: Option<int>, now: int) returns (ok: bool)
      requires Valid()
      modifies this
      ensures Valid()
      ensures ok == (id in old(medications))
      ensures ok ==> medications == old(medications)[id := Taken(behaviour, old(medications)[id], takenAt.GetOr(now))]
      ensures ok ==> lowSupplyEvents == old(lowSupplyEvents) + TakeEvents(behaviour, old(medications)[id], takenAt.GetOr(now))
      ensures !ok ==> medications == old(medications) && lowSupplyEvents == old(lowSupplyEvents)
      ensures order == old(order)
    {
      if id !in medications {
        return false;
      }
      var m := medications[id];
      var at := if takenAt.Some? then takenAt.value else now;
      var wasLowSupply := behaviour.isLowSupply(m);
      var before := m;
      m := m.(dose := behaviour.recordDoseTaken(m, at));
      if m.data.supplyTrackingEnabled {
        m := m.(data := m.data.(currentSupply := behaviour.decrementSupply(m)));
        if !wasLowSupply && behaviour.isLowSupply(m) {
          lowSupplyEvents := lowSupplyEvents + [LowSupplyPayload(behaviour, m)];
        }
      }
      assert m == Taken(behaviour, before, at);
      medications := medications[id := m];
      return true;
    }

    /** `async_skip_medication` at `skippedAt`, or at `now`; the supply is never touched. */
    method Skip(id: string, skippedAt: Option<int>, now: int) returns (ok: bool)
      requires Valid()
      modifies this
      ensures Valid()
      ensures ok == (id in old(medications))
      ensures ok ==> medications == old(medications)[id := Skipped(behaviour, old(medications)[id], skippedAt.GetOr(now))]
      ensures ok ==> medications[id].data == old(medications)[id].data
      ensures !ok ==> medications == old(medications)
      ensures order == old(order) && lowSupplyEvents == old(lowSupplyEvents)
    {
      if id !in medications {
        return false;
      }
      var m := medications[id];
      var at := if skippedAt.Some? then skippedAt.value else now;
      medications := medications[id := m.(dose := behaviour.recordDoseSkipped(m, at))];
      return true;
    }

    /** `async_refill_medication`: add `amount` to the supply, only for a stored entry with tracking enabled. */
    method Refill(id: string, amount: int, refillDate: Option<int>, now: int) returns (ok: bool)
      requires Valid()
      modifies this
      ensures Valid()
      ensures ok == (id in old(medications) && old(medications)[id].data.supplyTrackingEnabled)
      ensures ok ==> medications == old(medications)[id := Refilled(old(medications)[id], amount, refillDate.GetOr(now))]
      ensures !ok ==> medications == old(medications)
      ensures order == old(order) && lowSupplyEvents == old(lowSupplyEvents)
    {
      if id !in medications {
        return false;
      }
      var m := medications[id];
      if !m.data.supplyTrackingEnabled {
        return false;
      }
      var current := if m.data.currentSupply.Some? then m.data.currentSupply.value else 0;
      m := m.(data := m.data.(currentSupply := Some(current + amount)));
      m := m.(data := m.data.(lastRefillDate := Some(if refillDate.Some? then refillDate.value else now)));
      medications := medications[id := m];
      return true;
    }

    /** `async_update_supply`: overwrite the supply, only for a stored entry with tracking enabled. */
    method UpdateSupply(id: string, newSupply: int) returns (ok: bool)
      requires Valid()
      modifies this
      ensures Valid()
      ensures ok == (id in old(medications) && old(medications)[id].data.supplyTrackingEnabled)
      ensures ok ==> medications == old(medications)[id := SupplySet(old(medications)[id], newSupply)]
      ensures ok ==> lowSupplyEvents == old(lowSupplyEvents) + SupplyEvents(behaviour, old(medications)[id], newSupply)
      ensures !ok ==> medications == old(medications) && lowSupplyEvents == old(lowSupplyEvents)
      ensures order == old(order)
    {
      if id !in medications {
        return false;
      }
      var m := medications[id];
      if !m.data.supplyTrackingEnabled {
        return false;
      }
      var wasLowSupply := behaviour.isLowSupply(m);
      m := m.(data := m.data.(currentSupply := Some(newSupply)));
      if !wasLowSupply && behaviour.isLowSupply(m) {
        lowSupplyEvents := lowSupplyEvents + [LowSupplyPayload(behaviour, m)];
      }
      medications := medications[id := m];
      return true;
    }
  }

  /** A sequence without repetitions has as many elements as its set of elements. */
  lemma {:induction false} DistinctCardinality(s: seq<string>)
    requires Distinct(s)
    ensures |set k | k in s| == |s|
  {
    if s != [] {
      var tail := s[1..];
      assert Distinct(tail);
      DistinctCardinality(tail);
      assert (set k | k in s) == (set k | k in tail) + {s[0]};
      assert s[0] !in (set k | k in tail);
    }
  }
}
