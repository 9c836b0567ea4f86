/**
 * The medication records the coordinator stores. The entry class of the
 * integration (its dose bookkeeping, supply estimates and schedule) is not
 * part of this model: its behaviour enters as the function values of an
 * `EntryBehaviour`, fixed when the coordinator is created.
 */
module Models {
  import opened Wrappers

  /** The user-supplied description of one medication; dates are microseconds. */
  datatype MedicationData = MedicationData(
    name: string,
    dosage: string,
    frequency: string,
    times: seq<string>,
    startDate: Option<int>,
    endDate: Option<int>,
    notes: string,
    supplyTrackingEnabled: bool,
    currentSupply: Option<int>,
    pillsPerDose: int,
    refillReminderThreshold: int,
    lastRefillDate: Option<int>,
    showRefillOnCalendar: bool)

  /** One taken or skipped dose in an entry's history. */
  datatype DoseRecord = DoseRecord(timestamp: int, taken: bool, notes: string)

  /** What the entry tracks about doses: the history and the schedule state. */
  datatype DoseState = DoseState(
    doseHistory: seq<DoseRecord>,
    lastTaken: Option<int>,
    nextDue: Option<int>,
    missedDoses: int,
    status: string)

  /** A stored medication: its id, its data and its dose state. */
  datatype MedicationEntry = MedicationEntry(id: string, data: MedicationData, dose: DoseState)

  /**
   * The entry's own operations, left abstract. By their types, recording a
   * dose, resetting the schedule and updating the status produce a new dose
   * state and never change the data; decrementing the supply produces the
   * new `current_supply` and nothing else.
   */
  datatype EntryBehaviour = EntryBehaviour(
    initialDoseState: MedicationData -> DoseState,
    recordDoseTaken: (MedicationEntry, int) -> DoseState,
    recordDoseSkipped: (MedicationEntry, int) -> DoseState,
    decrementSupply: MedicationEntry -> Option<int>,
    isLowSupply: MedicationEntry -> bool,
    estimatedRefillDate: MedicationEntry -> Option<int>,
    resetSchedule: MedicationEntry -> DoseState,
    updateStatus: (MedicationEntry, int) -> DoseState)
}
