/** The application's state: the medication list, the history (newest
    first) and the time of the last notifying reminder check. Each handler
    replaces the collections it changes with the result of the matching
    transition from `Ledger` or `Reminder`. */
module App {
  import opened MedTypes
  import opened Ledger
  import opened Reminder

  class MediApp {
    var medications: seq<Medication>
    var history: seq<HistoryLog>
    var lastCheck: int

    /** Medication ids stay unique while new ones are fresh, and every
        cadence is well formed. */
    ghost predicate Valid()
      reads this
    {
      UniqueIds(medications) && WellFormedCadences(medications)
    }

    /** The state loaded at start-up; the last check starts at the time of
        mounting. */
    constructor (meds: seq<Medication>, hist: seq<HistoryLog>, now: int)
      requires UniqueIds(meds) && WellFormedCadences(meds)
      ensures Valid()
      ensures medications == meds && history == hist && lastCheck == now
    {
      medications := meds;
      history := hist;
      lastCheck := now;
    }

    /** Take a dose of `id`; returns the stock for the low-stock alert. */
    method TakeMedication(id: string, logId: string, now: int) returns (lowStockAlert: Option<int>)
      requires Valid()
      modifies this
      ensures Valid()
      ensures Books(medications, history) == TakeDose(old(medications), old(history), id, logId, now)
      ensures lowStockAlert == LowStockAlert(old(medications), id)
      ensures lastCheck == old(lastCheck)
    {
      lowStockAlert := LowStockAlert(medications, id);
      var b := TakeDose(medications, history, id, logId, now);
      TakeFrame(medications, history, id, logId, now);
      SameIdsKeepUniqueIds(medications, b.medications);
      medications, history := b.medications, b.history;
    }

    method Snooze(id: string, minutes: int, now: int)
      requires Valid()
      modifies this
      ensures Valid()
      ensures medications == Ledger.Snooze(old(medications), id, minutes, now)
      ensures history == old(history) && lastCheck == old(lastCheck)
    {
      var r := Ledger.Snooze(medications, id, minutes, now);
      SnoozeSpec(medications, id, minutes, now);
      SameIdsKeepUniqueIds(medications, r);
      medications := r;
    }

    method Delete(id: string)
      requires Valid()
      modifies this
      ensures Valid()
      ensures medications == Ledger.Delete(old(medications), id)
      ensures history == old(history) && lastCheck == old(lastCheck)
    {
      DeleteKeepsUniqueIds(medications, id);
      DeleteKeepsCadences(medications, id);
      medications := Ledger.Delete(medications, id);
    }

    /** Submit the add/edit form; `newId`, `colorIndex` and `advice` are
        what a create would draw from the host and the assistant. */
    method SubmitForm(editingId: Option<string>, form: MedForm, newId: string, now: int,
                      colorIndex: nat, advice: Option<Advice>)
      requires Valid() && colorIndex < |Colors| && WellFormedFrequency(form.frequencyType)
      requires editingId.None? || editingId.value == "" ==> newId !in Ids(medications)
      modifies this
      ensures Valid()
      ensures medications == Ledger.SubmitForm(old(medications), editingId, form, newId, now, colorIndex, advice)
      ensures history == old(history) && lastCheck == old(lastCheck)
    {
      var r := Ledger.SubmitForm(medications, editingId, form, newId, now, colorIndex, advice);
      SubmitKeepsUniqueIds(medications, editingId, form, newId, now, colorIndex, advice);
      SubmitKeepsCadences(medications, editingId, form, newId, now, colorIndex, advice);
      medications := r;
    }

    /** Add from an assistant answer to `instruction`. */
    method AiAdd(instruction: string, result: Option<AiDraft>, newId: string, now: int, colorIndex: nat)
      requires Valid() && colorIndex < |Colors| && newId !in Ids(medications)
      modifies this
      ensures Valid()
      ensures medications == Ledger.AiAdd(old(medications), instruction, result, newId, now, colorIndex)
      ensures history == old(history) && lastCheck == old(lastCheck)
    {
      if !JsText.IsBlank(instruction) && result.Some? {
        var n := NewAiMedication(result.value, newId, now, colorIndex);
        AppendKeepsUniqueIds(medications, n);
        medications := medications + [n];
      }
    }

    /** The reminder check: silent within the debounce window, otherwise
        records `now` and returns the notifications it fires. */
    method CheckDueMedications(now: int) returns (fired: seq<Notification>)
      modifies this
      ensures (lastCheck, fired) == PollStep(old(lastCheck), medications, now)
      ensures medications == old(medications) && history == old(history)
    {
      if now - lastCheck < DebounceMs {
        return [];
      }
      lastCheck := now;
      fired := [];
      var i := 0;
      while i < |medications|
        invariant 0 <= i <= |medications|
        invariant fired == DueNotifications(medications[..i], now)
      {
        var med := medications[i];
        assert medications[..i + 1][..i] == medications[..i];
        if med.nextDose.Some? && med.nextDose.value <= now {
          fired := fired + [NotificationFor(med)];
        }
        i := i + 1;
      }
      assert medications[..i] == medications;
    }
  }
}
