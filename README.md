# Medication tracker backend in Dafny

This project models the backend of the Home Assistant `medication_tracker`
integration. It has three parts:

- **The medication store** (`MedicationCoordinator`, module `Coordinator`).
  It is a dictionary from medication id to entry. Add, remove, update, take,
  skip, refill and update-supply change it in place.
  - An unknown id returns `False` and changes nothing.
  - Refill and update-supply also refuse an entry whose supply tracking is off.
  - A low-supply event is fired only when an entry crosses from "not low" to
    "low".
  - The class keeps the dictionary as a `map` plus the key insertion order as
    a `seq`, because Python dictionaries iterate in insertion order.
  - Fired events are recorded in a ghost sequence.
- **The service layer** (`services.py`, module `Services`).
  - Routing a call to the coordinator that holds the medication, as a
    first-match search.
  - The list of all coordinators.
  - Defaults for `add_medication`, and the field-by-field merge of
    `update_medication`.
  - Conversion of call dates to the first or last microsecond of the day.
  - The four accepted frequencies.
  - The guarded, idempotent registration of the seven services.
- **The dose-history calendar** (`MedicationTrackerCalendar`, module
  `Calendar`).
  - Dose records whose date lies in the requested range, both ends inclusive,
    become five-minute events.
  - Entries with supply tracking and calendar display on get a 09:00 refill
    reminder when the estimated refill date is in range.
  - The list is sorted by start time, stably.
  - The summary and the newline-joined description are modelled as well.

Time is an integer count of microseconds. A local day is
`t / 86_400_000_000` (module `Time`); time zones are outside the model.
The entry class in `models.py` is not part of this model. Its operations
enter as the function values of an `EntryBehaviour` (module `Models`):
`record_dose_taken`, `record_dose_skipped`, `decrement_supply`,
`is_low_supply`, `estimated_refill_date`, `reset_schedule`, `update_status`
and the initial dose state.

The dashboard code is not in the modelled files.

## Model

| member | source | states |
|---|---|---|
| Time.DayOf | custom_components/medication_tracker/calendar.py:71 | `datetime.date()`: the day of `t` is the day whose 24 hours contain `t` |
| Time.StartOfDay | custom_components/medication_tracker/services.py:186-189 | the start of day `d` lies in day `d`, and one microsecond earlier lies in day `d - 1` |
| Time.EndOfDay | custom_components/medication_tracker/services.py:191-198 | start of day + 1 day - 1 µs lies in day `d`, the next microsecond is the start of day `d + 1` |
| Coordinator.Without | custom_components/medication_tracker/coordinator.py:127 | after `del`, the key order holds exactly the other keys, stays duplicate-free, and is unchanged when the key was absent |
| Coordinator.WithoutDeletesAt | custom_components/medication_tracker/coordinator.py:127 | deleting a key cuts it out where it stands: the keys before and after it keep their relative order |
| Coordinator.AddThenRemove | custom_components/medication_tracker/coordinator.py:93-131 | removing a medication just added under a new id restores both the dictionary and its key order |
| Coordinator.WithStartDate | custom_components/medication_tracker/coordinator.py:95-99 | a set start date is kept; an unset one becomes midnight of today, so it lies in today and is not after now, and the rest of the data is unchanged |
| Coordinator.NewEntry | custom_components/medication_tracker/coordinator.py:101-105 | the new entry carries the given id and exactly the given data |
| Coordinator.Updated | custom_components/medication_tracker/coordinator.py:140-147 | the entry keeps its id, its data is replaced wholesale by the new record, and its dose state is the schedule reset for the new data with the status then recomputed at `now` |
| Coordinator.Taken | custom_components/medication_tracker/coordinator.py:212-223 | the dose is recorded; the data changes only with tracking on, and then only in the decremented supply |
| Coordinator.Skipped | custom_components/medication_tracker/coordinator.py:240-244 | a skip changes only the dose state, never the data or the supply |
| Coordinator.Refilled | custom_components/medication_tracker/coordinator.py:302-307 | new supply minus old supply (missing counts as 0) is the refill amount, the last refill date is the given date, nothing else changes |
| Coordinator.SupplySet | custom_components/medication_tracker/coordinator.py:338 | the supply becomes exactly the new value and nothing else changes |
| Coordinator.RefillsAccumulate | custom_components/medication_tracker/coordinator.py:302-307 | two refills equal one refill by the sum, dated by the later one |
| Coordinator.SupplySetOverwrites | custom_components/medication_tracker/coordinator.py:338 | of two supply updates only the last counts |
| Coordinator.LowSupplyPayload | custom_components/medication_tracker/coordinator.py:357-367 | the event carries the medication's id, name, current supply, pills per dose, refill threshold in days and estimated refill date |
| Coordinator.TakeEvents | custom_components/medication_tracker/coordinator.py:216-227 | a take fires at most one event, exactly when tracking is on and the entry was not low before and is low after |
| Coordinator.SupplyEvents | custom_components/medication_tracker/coordinator.py:335-342 | a supply update fires at most one event, exactly when the entry was not low before and is low after |
| Coordinator.MedicationCoordinator.constructor | custom_components/medication_tracker/coordinator.py:41 | the store starts empty |
| Coordinator.MedicationCoordinator.GetMedication | custom_components/medication_tracker/coordinator.py:276-278 | an entry is returned exactly when the id is a key, and it is the entry stored under that id |
| Coordinator.MedicationCoordinator.AllMedications | custom_components/medication_tracker/coordinator.py:280-282 | the copy agrees with `get_medication` on every id |
| Coordinator.MedicationCoordinator.Items | custom_components/medication_tracker/calendar.py:63-65 | iteration lists every stored id once, paired with its entry, in insertion order |
| Coordinator.MedicationCoordinator.RefreshStatuses | custom_components/medication_tracker/coordinator.py:79-82 | every entry's status is updated at `now`; keys, data and order are unchanged |
| Coordinator.MedicationCoordinator.Add | custom_components/medication_tracker/coordinator.py:93-116 | the new entry is stored under the returned id with the data (start date filled in); other entries are unchanged |
| Coordinator.MedicationCoordinator.Remove | custom_components/medication_tracker/coordinator.py:118-131 | returns true exactly when the id was a key; afterwards it is absent and every other entry is untouched |
| Coordinator.MedicationCoordinator.Update | custom_components/medication_tracker/coordinator.py:133-154 | unknown id: false and no change; otherwise true and only that entry is replaced, with the given data |
| Coordinator.MedicationCoordinator.Take | custom_components/medication_tracker/coordinator.py:205-231 | unknown id: false, no change, no event; otherwise only that entry changes, as `Taken`, at the given time or now, and the events fired are `TakeEvents` |
| Coordinator.MedicationCoordinator.Skip | custom_components/medication_tracker/coordinator.py:233-247 | unknown id: false and no change; otherwise only that entry's dose state changes |
| Coordinator.MedicationCoordinator.Refill | custom_components/medication_tracker/coordinator.py:284-318 | true exactly for a stored entry with tracking on, which becomes `Refilled` at the given date or now; otherwise nothing changes |
| Coordinator.MedicationCoordinator.UpdateSupply | custom_components/medication_tracker/coordinator.py:320-350 | true exactly for a stored entry with tracking on, whose supply is overwritten, firing `SupplyEvents`; otherwise nothing changes |
| Services.ParseFrequency | custom_components/medication_tracker/services.py:67-74 | a string is accepted exactly when it is one of daily, weekly, monthly, as_needed |
| Services.FrequencyRoundTrip | custom_components/medication_tracker/services.py:99-106 | every accepted frequency reads back as itself |
| Services.DayStart | custom_components/medication_tracker/services.py:186-189 | a given date becomes a datetime in that day whose previous microsecond is in the day before; absent stays absent |
| Services.DayEnd | custom_components/medication_tracker/services.py:191-198 | a given date becomes the last microsecond of that day; absent stays absent |
| Services.AddData | custom_components/medication_tracker/services.py:199-213 | required fields are copied; each optional field takes the supplied value, and an absent one defaults to `[]`, `""`, `False`, no supply, 1, 7 and `False`; there is no last refill date; dates become day bounds |
| Services.MergedStart | custom_components/medication_tracker/services.py:250-253 | the given date becomes the start of its day, else the stored start is moved back to the start of its own day |
| Services.MergedEnd | custom_components/medication_tracker/services.py:255-262 | the given date becomes the end of its day, else the stored end is moved forward to the end of its own day |
| Services.MergeUpdate | custom_components/medication_tracker/services.py:264-293 | each field is the call's value when supplied, else the current one; `last_refill_date` is always the current one |
| Services.MergeUpdateIdempotent | custom_components/medication_tracker/services.py:249-293 | applying the same update twice equals applying it once |
| Services.NoChangesKeepStoredRecord | custom_components/medication_tracker/services.py:175-293 | an update that supplies no field leaves the record `add_medication` stored, start date filled in from `now`, unchanged |
| Services.FirstHolder | custom_components/medication_tracker/services.py:399-402 | the position found holds the id and no earlier position does; when none is found, no position holds it |
| Services.HolderOf | custom_components/medication_tracker/services.py:392-403 | the coordinator found is among the domain's values and holds the id |
| Services.FindCoordinator | custom_components/medication_tracker/services.py:392-403 | no domain data gives none; otherwise the first coordinator in iteration order that holds the id, or none when none does |
| Services.CoordinatorsOf | custom_components/medication_tracker/services.py:411-415 | the list holds exactly the coordinator values |
| Services.CoordinatorsOfAppend | custom_components/medication_tracker/services.py:411-415 | the coordinators of `a + b` are those of `a` followed by those of `b`: iteration order is kept |
| Services.CoordinatorsOfSingle | custom_components/medication_tracker/services.py:411-415 | a coordinator value contributes that coordinator once; any other value contributes nothing |
| Services.FirstCoordinatorFirst | custom_components/medication_tracker/services.py:411-415 | the head of the list is the first coordinator value; the list is empty exactly when there is none |
| Services.AllCoordinators | custom_components/medication_tracker/services.py:406-415 | exactly the coordinators of the domain, and an empty list when the domain is absent |
| Services.AllCoordinatorsInOrder | custom_components/medication_tracker/services.py:406-415 | the coordinators of a domain are listed in the domain's iteration order, each coordinator value once |
| Services.HolderIsListed | custom_components/medication_tracker/services.py:392-415 | the coordinator a lookup finds is among all coordinators |
| Services.HandleAdd | custom_components/medication_tracker/services.py:175-218 | with no coordinator nothing happens; otherwise the first coordinator gains the record built by `AddData`, its key appended to the order when new, and no event is fired |
| Services.HandleUpdate | custom_components/medication_tracker/services.py:234-299 | with no holder nothing changes; otherwise only the holder changes, its entry updated with `MergeUpdate` of the call over the stored data; key order and events are unchanged |
| Services.HandleTake | custom_components/medication_tracker/services.py:144-158 | with no holder nothing changes; otherwise only the holder changes, as by `Take`: the dose is recorded, the events of a drop into low supply are fired, key order is unchanged |
| Services.HandleSkip | custom_components/medication_tracker/services.py:160-173 | with no holder nothing changes; otherwise only the holder changes, as by `Skip`; key order and events are unchanged |
| Services.HandleRemove | custom_components/medication_tracker/services.py:220-232 | with no holder nothing changes; otherwise only the holder changes, losing the id, which is cut out of the key order; no event is fired |
| Services.HandleRefill | custom_components/medication_tracker/services.py:301-323 | with no holder nothing changes; otherwise only the holder changes, refilled only when tracking is on; key order and events are unchanged |
| Services.HandleUpdateSupply | custom_components/medication_tracker/services.py:325-340 | with no holder nothing changes; otherwise only the holder changes, its supply set and a drop into low supply reported only when tracking is on; key order is unchanged |
| Services.ServiceRegistry.Register | custom_components/medication_tracker/services.py:342-347 | the service is registered and the registration recorded |
| Services.ServiceRegistry.SetupServices | custom_components/medication_tracker/services.py:136-389 | if `take_medication` is registered nothing is registered again; otherwise all seven services are; afterwards `take_medication` is registered |
| Services.ServiceRegistry.UnloadServices | custom_components/medication_tracker/services.py:418-426 | all seven services are removed and nothing else |
| Calendar.EventSummary | custom_components/medication_tracker/calendar.py:109-112 | the text is `✅ Taken: <name> (<dosage>)` for a taken dose and `❌ Skipped: <name> (<dosage>)` for a skipped one, so the first character tells the two apart |
| Calendar.SummaryShowsStatus | custom_components/medication_tracker/calendar.py:109-112 | two summaries of one medication agree only if they agree on taken versus skipped |
| Calendar.JoinLines | custom_components/medication_tracker/calendar.py:130 | `"\n".join`: no lines give the empty text; otherwise the text starts with the first line, followed by a newline when more lines come |
| Calendar.SplitJoinLines | custom_components/medication_tracker/calendar.py:130 | joining lines without newlines and splitting at newlines gives the lines back |
| Calendar.DescriptionLines | custom_components/medication_tracker/calendar.py:114-128 | lines Medication, Dosage, Status and Time come first, then Notes when notes are non-empty, and Frequency last when the frequency is non-empty |
| Calendar.DescriptionOptionalLines | custom_components/medication_tracker/calendar.py:124-128 | a Notes line occurs exactly when notes are non-empty; a Frequency line exactly when the frequency is non-empty |
| Calendar.EventDescription | custom_components/medication_tracker/calendar.py:114-130 | the description is those lines joined by newlines |
| Calendar.DescriptionSplitsIntoLines | custom_components/medication_tracker/calendar.py:114-130 | when no field contains a newline, the description splits back into exactly its lines |
| Calendar.DoseEvent | custom_components/medication_tracker/calendar.py:77-83 | the event starts at the dose time, ends five minutes later, has the status summary, the newline-joined description lines and uid `medication_tracker_<id>_<iso time>` |
| Calendar.RefillEvent | custom_components/medication_tracker/calendar.py:93-103 | the reminder starts at 09:00 on the refill day, lasts one hour, and has summary `💊 Refill Needed: <name>`, the refill description and uid `medication_tracker_<id>_refill_<date>` |
| Calendar.InRange | custom_components/medication_tracker/calendar.py:67-71 | a record is kept exactly when it is in the history and its date is between the range's dates, both ends inclusive; no more records are kept than the history has |
| Calendar.DoseEvents | custom_components/medication_tracker/calendar.py:67-84 | one dose event per kept record, in history order: the k-th event is the dose event of the k-th kept record |
| Calendar.ShowsRefill | custom_components/medication_tracker/calendar.py:87-92 | when a reminder is shown there is an estimated date, and the 09:00 reminder on that date falls on a day in range |
| Calendar.ItemEvents | custom_components/medication_tracker/calendar.py:65-104 | a medication contributes its dose events first, then exactly one refill reminder when it is shown and none otherwise |
| Calendar.InRangeAppend | custom_components/medication_tracker/calendar.py:67-71 | the filter keeps history order and multiplicity: filtering two runs one after the other gives the two filtered runs one after the other |
| Calendar.InRangeCount | custom_components/medication_tracker/calendar.py:65-71 | all records are kept exactly when all lie in the range |
| Calendar.DoseEventsExactly | custom_components/medication_tracker/calendar.py:65-84 | an event is a dose event exactly when it is the event of a history record whose date is in range |
| Calendar.DoseEventsCount | custom_components/medication_tracker/calendar.py:65-84 | there are at most as many dose events as records, and exactly as many when every record is in range |
| Calendar.CollectEventsExactly | custom_components/medication_tracker/calendar.py:61-104 | an event is collected exactly when it is among the events of some medication |
| Calendar.CollectEventsCount | custom_components/medication_tracker/calendar.py:61-104 | the number of events is the in-range dose records plus the shown refill reminders, and nothing else |
| Calendar.ItemEventsInWindow | custom_components/medication_tracker/calendar.py:65-104 | each event of a medication starts on a day in range and lasts five minutes or one hour |
| Calendar.EventsInWindow | custom_components/medication_tracker/calendar.py:61-104 | every collected event starts on a day in range and lasts five minutes or one hour |
| Calendar.Insert | custom_components/medication_tracker/calendar.py:106 | inserting adds exactly the one event: the result is the old multiset plus it |
| Calendar.InsertSorted | custom_components/medication_tracker/calendar.py:106 | inserting into a list sorted by start time keeps it sorted |
| Calendar.SortByStart | custom_components/medication_tracker/calendar.py:106 | the result is sorted by start time and is a permutation of the input |
| Calendar.InsertStartingAt | custom_components/medication_tracker/calendar.py:106 | insertion puts the new event before the events that share its start time |
| Calendar.SortIsStable | custom_components/medication_tracker/calendar.py:106 | for every start time, the events with that start keep their relative order |
| Calendar.MakeDoseEvent | custom_components/medication_tracker/calendar.py:72-83 | summary, description and uid assembled in the loop give the record's dose event |
| Calendar.AppendDoseEvents | custom_components/medication_tracker/calendar.py:67-84 | the inner loop appends exactly the dose events of the history, in history order |
| Calendar.CollectAll | custom_components/medication_tracker/calendar.py:61-104 | the outer loop yields exactly the collected events of all medications, in iteration order |
| Calendar.GetEvents | custom_components/medication_tracker/calendar.py:54-107 | the result is the collected events, stably sorted by start time; it is sorted, is a permutation of them, and every event starts on a day in range |

## Left out

- Storage: `async_load_medications` and `async_save_medications` (coordinator.py:49-70) are file I/O.
- Device and entity registries: entity-creation callbacks, `async_setup_platform_entities`, and creating and removing entities and devices (coordinator.py:156-203, 249-274). They are calls into Home Assistant.
- Coordinator.MedicationCoordinator.Take, Coordinator.MedicationCoordinator.Skip: after the change the source awaits `async_refresh` (coordinator.py:230, 246), which runs `_async_update_data` and so `update_status` on every entry. The contracts describe the state before that refresh; `RefreshStatuses` models the refresh as a separate step.
- Coordinator.MedicationCoordinator.Add, Coordinator.MedicationCoordinator.Remove, Coordinator.MedicationCoordinator.Update, Coordinator.MedicationCoordinator.Refill, Coordinator.MedicationCoordinator.UpdateSupply: after the change the source awaits `async_request_refresh` (coordinator.py:115, 129, 151, 310, 345), which schedules the same refresh of every entry's status. The contracts describe the state before it; `RefreshStatuses` models it as a separate step.
- Services.HandleAdd, Services.HandleUpdate, Services.HandleTake, Services.HandleSkip, Services.HandleRemove, Services.HandleRefill, Services.HandleUpdateSupply: for the same reason, "only the holder's entry changes" describes the holder before its status refresh.
- Logging is left out.
- Coordinator.MedicationCoordinator.RefreshStatuses: the load-when-empty branch of `_async_update_data` (coordinator.py:76-77) is storage I/O and is not modelled.
- Coordinator.MedicationCoordinator.RefreshStatuses: the `UpdateFailed` error path is not modelled.
- Coordinator.MedicationCoordinator.Add: the new id is a parameter standing for `uuid.uuid4()`. An id that is already a key is overwritten; with random uuids this does not happen in practice.
- Coordinator.MedicationCoordinator.Add: the model fills in the start date on a copy. The source fills it in on the caller's `MedicationData` object, and that aliasing is not captured.
- Clocks: `dt_util.now()` is a `now` parameter.
- Time zones: `as_local` on naive datetimes and `start_of_local_day` are integer day arithmetic in one fixed zone. The refill reminder's time zone (taken from the range start) is not modelled.
- Coordinator.LowSupplyPayload: the float `days_remaining` (rounded) is left out of the event payload.
- Calendar.RefillEvent: the refill description prints floats (`daily_consumption`, `days_remaining`), so it is a `Formatter` parameter.
- Calendar.DoseEvent: ISO 8601 rendering of datetimes and dates is a `Formatter` parameter.
- Calendar.DescriptionLines: `strftime('%I:%M %p')` rendering is a `Formatter` parameter.
- Models: `MedicationEntry` internals (`models.py`) are not part of this model. The types of `EntryBehaviour` assume the following:
  - recording a dose, resetting the schedule and updating the status change only the dose state;
  - `decrement_supply` changes only the current supply.
- Services.FindCoordinator: a found `MedicationEntry` is assumed truthy, so `if coordinator.get_medication(...)` reduces to "the id is a key".
- Services.MergedStart: the stored start and end dates are assumed to be datetimes, never strings, so the string branch of the `isinstance` test is not modelled.
- Services.HandleUpdate: the handler's second `get_medication` check cannot fail after the lookup has succeeded, so it is not modelled.
- Services.HandleAdd: dates in a call are day numbers. The `cv.*` validators are represented only by the field types, with `cv.positive_int` admitting every integer >= 0.
- Calendar.GetEvents: Python's single method with nested loops is split into three methods: `GetEvents`, `CollectAll` for the outer loop and `AppendDoseEvents` for the inner loop. `MakeDoseEvent` is the inner loop's body.
- Calendar.GetEvents: the in-place `list.sort` is modelled as a stable insertion sort on a sequence value.
- Calendar.GetEvents: `self._coordinator.data["medications"]` is taken to be the coordinator's dictionary after a refresh.
- Dashboard: the dashboard code is not in the modelled files.
