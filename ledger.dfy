/** The medication ledger's transitions: each handler of the application
    computes a new medication list (and, for a take, a new history) from the
    current one. Everything is keyed by medication id. The current time and
    the identifiers, colour choices and assistant answers the application
    draws from its host are parameters. */
module Ledger {
  import opened MedTypes
  import opened JsText
  import opened Card

  const MinuteMs: int := 60_000
  const HourMs: int := 60 * MinuteMs
  /** One calendar day, taken as a fixed 24 hours. */
  const DayMs: int := 24 * HourMs

  const Colors: seq<string> := ["bg-blue-500", "bg-emerald-500", "bg-rose-500", "bg-amber-500", "bg-violet-500"]
  const PillIcon: string := "pill"
  const DefaultAiDosage: string := "Est\U{00E1}ndar"
  const DefaultAiInventory: int := 20

  /** The ids of a list, in order. */
  function Ids(meds: seq<Medication>): (r: seq<string>)
    ensures |r| == |meds| && forall i :: 0 <= i < |meds| ==> r[i] == meds[i].id
  {
    seq(|meds|, i requires 0 <= i < |meds| => meds[i].id)
  }

  /** No two medications share an id (ids are fresh random UUIDs). */
  predicate UniqueIds(meds: seq<Medication>)
  {
    forall i, j :: 0 <= i < j < |meds| ==> meds[i].id != meds[j].id
  }

  /** No medication carries an `Unrecognised` cadence that hides one of the
      four member tags. */
  predicate WellFormedCadences(meds: seq<Medication>)
  {
    forall i :: 0 <= i < |meds| ==> WellFormedFrequency(meds[i].frequencyType)
  }

  /** Unique ids stay unique under any change that keeps the ids in place. */
  lemma SameIdsKeepUniqueIds(meds: seq<Medication>, r: seq<Medication>)
    requires UniqueIds(meds) && Ids(r) == Ids(meds)
    ensures UniqueIds(r)
  {
  }

  /** `meds.find(m => m.id === id)`, as the index of the first match. */
  function FindIndex(meds: seq<Medication>, id: string): (r: Option<nat>)
    ensures r.Some? ==> r.value < |meds| && meds[r.value].id == id
                        && forall j :: 0 <= j < r.value ==> meds[j].id != id
    ensures r.None? ==> forall j :: 0 <= j < |meds| ==> meds[j].id != id
  {
    if meds == [] then None
    else if meds[0].id == id then Some(0)
    else match FindIndex(meds[1..], id)
      case None => None
      case Some(k) => Some(k + 1)
  }

  // ---------------------------------------------------------------- take

  /** The next dose after one is taken at `now`, always counted from `now`:
      hourly adds the frequency in hours, daily adds one day whatever the
      frequency, weekly adds seven days per unit of frequency, and any other
      cadence leaves the next dose at `now`. */
  function NextDoseAfterTake(f: FrequencyType, v: int, now: int): int
  {
    match f
    case Hourly => now + v * HourMs
    case Daily => now + DayMs
    case Weekly => now + v * 7 * DayMs
    case AsNeeded => now
    case Unrecognised(_) => now
  }

  /** `Math.max(0, (inventory ?? 0) - 1)`. */
  function StockAfterTake(m: Medication): (r: int)
    ensures r >= 0
  {
    if StockOf(m) - 1 > 0 then StockOf(m) - 1 else 0
  }

  function TakenLog(m: Medication, logId: string, now: int): HistoryLog
  {
    HistoryLog(logId, m.name, now, Taken, None)
  }

  datatype Books = Books(medications: seq<Medication>, history: seq<HistoryLog>)

  /** Taking a dose of medication `id` at `now`: when some medication has
      that id, a log naming it is put in front of the history, and every
      medication with that id gets its next dose from its own cadence and the
      stock computed from the first one found. */
  function TakeDose(meds: seq<Medication>, history: seq<HistoryLog>, id: string, logId: string, now: int): Books
  {
    match FindIndex(meds, id)
    case None => Books(meds, history)
    case Some(k) =>
      var stock := StockAfterTake(meds[k]);
      Books(
        seq(|meds|, i requires 0 <= i < |meds| =>
          if meds[i].id != id then meds[i]
          else meds[i].(nextDose := Some(NextDoseAfterTake(meds[i].frequencyType, meds[i].frequencyValue, now)),
                        inventory := Some(stock))),
        [TakenLog(meds[k], logId, now)] + history)
  }

  /** An unknown id changes nothing and logs nothing. A known id logs
      exactly one entry, in front, keeping the earlier entries in order; the
      entry earns no points. */
  lemma TakeHistory(meds: seq<Medication>, history: seq<HistoryLog>, id: string, logId: string, now: int)
    ensures var b := TakeDose(meds, history, id, logId, now);
      (forall j :: 0 <= j < |meds| ==> meds[j].id != id) ==> b == Books(meds, history)
    ensures var b := TakeDose(meds, history, id, logId, now);
      forall k :: 0 <= k < |meds| && meds[k].id == id && (forall j :: 0 <= j < k ==> meds[j].id != id) ==>
        |b.history| == |history| + 1 && b.history[1..] == history
        && b.history[0].medicationName == meds[k].name && b.history[0].takenAt == now
        && b.history[0].status == Taken && b.history[0].id == logId
        && b.history[0].pointsEarned.None?
  {
  }

  /** A take keeps the list's length, order and ids, leaves every other
      medication alone and changes only `nextDose` and `inventory` of the
      ones it takes. */
  lemma TakeFrame(meds: seq<Medication>, history: seq<HistoryLog>, id: string, logId: string, now: int)
    ensures var r := TakeDose(meds, history, id, logId, now).medications;
      |r| == |meds| && Ids(r) == Ids(meds)
      && (forall i :: 0 <= i < |meds| && meds[i].id != id ==> r[i] == meds[i])
      && (forall i :: 0 <= i < |meds| ==>
            r[i].(nextDose := meds[i].nextDose, inventory := meds[i].inventory) == meds[i])
  {
  }

  /** Stock after a take: one less, but never below zero, with an absent
      inventory read as zero. With unique ids every match is the first. */
  lemma TakeStock(meds: seq<Medication>, history: seq<HistoryLog>, id: string, logId: string, now: int, k: nat)
    requires k < |meds| && meds[k].id == id
    requires forall j :: 0 <= j < k ==> meds[j].id != id
    ensures var r := TakeDose(meds, history, id, logId, now).medications;
      r[k].inventory.Some? && r[k].inventory.value >= 0
      && (StockOf(meds[k]) >= 1 ==> r[k].inventory.value == StockOf(meds[k]) - 1)
      && (StockOf(meds[k]) < 1 ==> r[k].inventory.value == 0)
  {
  }

  /** The next dose of a taken medication by cadence, always from `now`. */
  lemma TakeSchedule(meds: seq<Medication>, history: seq<HistoryLog>, id: string, logId: string, now: int, i: nat)
    requires i < |meds| && meds[i].id == id
    ensures var r := TakeDose(meds, history, id, logId, now).medications;
      var m := meds[i];
      r[i].nextDose.Some?
      && (m.frequencyType.Hourly? ==> r[i].nextDose.value == now + m.frequencyValue * HourMs)
      && (m.frequencyType.Daily? ==> r[i].nextDose.value == now + DayMs)
      && (m.frequencyType.Weekly? ==> r[i].nextDose.value == now + m.frequencyValue * 7 * DayMs)
      && (m.frequencyType.AsNeeded? || m.frequencyType.Unrecognised? ==> r[i].nextDose.value == now)
  {
  }

  /** Whether a taken medication is due right away: daily never is, hourly
      and weekly are not when their frequency is positive and are when it is
      not, "as needed" (and an unrecognised cadence) always is. */
  lemma TakeDueAgain(meds: seq<Medication>, history: seq<HistoryLog>, id: string, logId: string, now: int, i: nat)
    requires i < |meds| && meds[i].id == id
    ensures var r := TakeDose(meds, history, id, logId, now).medications;
      var m := meds[i];
      (m.frequencyType.Daily? ==> forall t :: t < now + DayMs ==> !IsDue(r[i], t))
      && (m.frequencyType.Hourly? || m.frequencyType.Weekly? ==> (IsDue(r[i], now) <==> m.frequencyValue <= 0))
      && (m.frequencyType.AsNeeded? || m.frequencyType.Unrecognised? ==> IsDue(r[i], now))
  {
  }

  /** The low-stock alert a take raises: the new stock, when it is
      between 1 and 5. */
  function LowStockAlert(meds: seq<Medication>, id: string): Option<int>
  {
    match FindIndex(meds, id)
    case None => None
    case Some(k) =>
      var s := StockAfterTake(meds[k]);
      if s <= 5 && s > 0 then Some(s) else None
  }

  /** The take handler alerts exactly when the card of the medication it
      took will show the low-stock badge, and with the stock that badge
      shows. */
  lemma LowStockAlertAgreesWithCard(meds: seq<Medication>, history: seq<HistoryLog>, id: string, logId: string, now: int, k: nat)
    requires k < |meds| && meds[k].id == id
    requires forall j :: 0 <= j < k ==> meds[j].id != id
    ensures var r := TakeDose(meds, history, id, logId, now).medications;
      (LowStockAlert(meds, id).Some? <==> LowStock(r[k]))
      && (LowStockAlert(meds, id).Some? ==> LowStockAlert(meds, id).value == StockOf(r[k]))
  {
  }

  // -------------------------------------------------------------- snooze

  /** Snoozing `id` at `now` puts its next dose `minutes` later. */
  function Snooze(meds: seq<Medication>, id: string, minutes: int, now: int): seq<Medication>
  {
    seq(|meds|, i requires 0 <= i < |meds| =>
      if meds[i].id != id then meds[i] else meds[i].(nextDose := Some(now + minutes * MinuteMs)))
  }

  /** Snooze keeps the list's length, order and ids, leaves other
      medications alone and of the snoozed ones changes only the next dose,
      whatever their cadence; a snooze from the card (15 minutes) makes the
      medication due again exactly 15 minutes on. */
  lemma SnoozeSpec(meds: seq<Medication>, id: string, minutes: int, now: int)
    ensures var r := Snooze(meds, id, minutes, now);
      |r| == |meds| && Ids(r) == Ids(meds)
      && (forall i :: 0 <= i < |meds| && meds[i].id != id ==> r[i] == meds[i])
      && (forall i :: 0 <= i < |meds| && meds[i].id == id ==>
            r[i].(nextDose := meds[i].nextDose) == meds[i] && r[i].nextDose == Some(now + minutes * MinuteMs))
      && (minutes == SnoozeButtonMinutes ==>
            forall i, t :: 0 <= i < |meds| && meds[i].id == id ==> (IsDue(r[i], t) <==> now + SnoozeButtonMinutes * MinuteMs <= t))
  {
  }

  // -------------------------------------------------------------- delete

  /** `meds.filter(m => m.id !== id)`. */
  function Delete(meds: seq<Medication>, id: string): (r: seq<Medication>)
    ensures |r| <= |meds|
  {
    if meds == [] then []
    else if meds[0].id == id then Delete(meds[1..], id)
    else [meds[0]] + Delete(meds[1..], id)
  }

  /** Delete keeps exactly the medications with another id. */
  lemma {:induction false} DeleteMembers(meds: seq<Medication>, id: string)
    ensures forall m :: m in Delete(meds, id) <==> m in meds && m.id != id
  {
    if meds != [] {
      DeleteMembers(meds[1..], id);
      assert forall m :: m in meds <==> m == meds[0] || m in meds[1..];
    }
  }

  /** Delete works piecewise, so it keeps the survivors in their order. */
  lemma {:induction false} DeleteConcat(a: seq<Medication>, b: seq<Medication>, id: string)
    ensures Delete(a + b, id) == Delete(a, id) + Delete(b, id)
  {
    if a != [] {
      assert (a + b)[1..] == a[1..] + b;
      DeleteConcat(a[1..], b, id);
    } else {
      assert a + b == b;
    }
  }

  /** Deleting an id nobody has changes nothing; deleting twice is
      deleting once. */
  lemma {:induction false} DeleteIdle(meds: seq<Medication>, id: string)
    ensures (forall i :: 0 <= i < |meds| ==> meds[i].id != id) ==> Delete(meds, id) == meds
    ensures Delete(Delete(meds, id), id) == Delete(meds, id)
  {
    if meds != [] {
      DeleteIdle(meds[1..], id);
      if meds[0].id != id {
        assert Delete(Delete(meds, id), id) == Delete([meds[0]] + Delete(meds[1..], id), id);
        DeleteConcat([meds[0]], Delete(meds[1..], id), id);
        assert Delete([meds[0]], id) == [meds[0]] + Delete([], id);
      }
    }
  }

  /** Delete keeps the cadences well formed. */
  lemma DeleteKeepsCadences(meds: seq<Medication>, id: string)
    requires WellFormedCadences(meds)
    ensures WellFormedCadences(Delete(meds, id))
  {
    var r := Delete(meds, id);
    DeleteMembers(meds, id);
    forall i | 0 <= i < |r| ensures WellFormedFrequency(r[i].frequencyType) {
      assert r[i] in meds;
    }
  }

  /** Delete keeps ids unique. */
  lemma {:induction false} DeleteKeepsUniqueIds(meds: seq<Medication>, id: string)
    requires UniqueIds(meds)
    ensures UniqueIds(Delete(meds, id))
  {
    if meds != [] {
      assert UniqueIds(meds[1..]) by {
        forall i, j | 0 <= i < j < |meds[1..]| ensures meds[1..][i].id != meds[1..][j].id {
          assert meds[1..][i] == meds[i + 1] && meds[1..][j] == meds[j + 1];
        }
      }
      DeleteKeepsUniqueIds(meds[1..], id);
      DeleteMembers(meds[1..], id);
      var rest := Delete(meds[1..], id);
      forall n | n in rest ensures n.id != meds[0].id {
        var j :| 0 <= j < |meds[1..]| && meds[1..][j] == n;
        assert meds[j + 1] == n;
      }
      if meds[0].id != id {
        var r := [meds[0]] + rest;
        forall i, j | 0 <= i < j < |r| ensures r[i].id != r[j].id {
          if i == 0 {
            assert r[j] == rest[j - 1];
            assert r[j] in rest;
          } else {
            assert r[i] == rest[i - 1] && r[j] == rest[j - 1];
          }
        }
      }
    }
  }

  // ---------------------------------------------------------------- form

  /** The add/edit form's fields; the two numbers are the text of the
      number inputs. */
  datatype MedForm = MedForm(name: string, dosage: string, frequencyType: FrequencyType,
                             frequencyValue: string, inventory: string)

  /** The form as it starts out and as it is reset after each submit. */
  const BlankForm: MedForm := MedForm("", "", Daily, "1", "30")

  /** The form filled in from a medication for editing; an absent inventory
      is offered as 30. */
  function FormFor(m: Medication): MedForm
  {
    MedForm(m.name, m.dosage, m.frequencyType, IntToString(m.frequencyValue),
            IntToString(match m.inventory case Some(v) => v case None => 30))
  }

  /** `parseInt(newFreqVal) || 1`: the parsed number unless it is `NaN` or
      0, which give 1; so never zero. */
  function FormFrequency(f: MedForm): (v: int)
    ensures v != 0
    ensures ParseInt(f.frequencyValue).Some? && ParseInt(f.frequencyValue).value != 0 ==>
              v == ParseInt(f.frequencyValue).value
    ensures ParseInt(f.frequencyValue).None? || ParseInt(f.frequencyValue).value == 0 ==> v == 1
  {
    OrDefault(ParseInt(f.frequencyValue), 1)
  }

  /** `parseInt(newInventory) || 0`. */
  function FormInventory(f: MedForm): (v: int)
    ensures ParseInt(f.inventory).None? ==> v == 0
    ensures ParseInt(f.inventory).Some? ==> v == ParseInt(f.inventory).value
  {
    OrDefault(ParseInt(f.inventory), 0)
  }

  /** A form's numbers written from integers read back as those integers,
      except that a zero frequency reads as 1. */
  lemma FormNumbersReadBack(name: string, dosage: string, f: FrequencyType, v: int, inv: int)
    ensures var form := MedForm(name, dosage, f, IntToString(v), IntToString(inv));
      FormFrequency(form) == (if v == 0 then 1 else v) && FormInventory(form) == inv
  {
    ParseIntOfIntToString(v);
    ParseIntOfIntToString(inv);
  }

  /** A blank form submits frequency 1 and 30 pills. */
  lemma BlankFormNumbers()
    ensures FormFrequency(BlankForm) == 1 && FormInventory(BlankForm) == 30
  {
    assert IntToString(1) == "1" && IntToString(30) == "30";
    FormNumbersReadBack("", "", Daily, 1, 30);
  }

  function Edited(m: Medication, form: MedForm): Medication
  {
    m.(name := form.name, dosage := form.dosage, frequencyType := form.frequencyType,
       frequencyValue := FormFrequency(form), inventory := Some(FormInventory(form)))
  }

  /** The edit branch of the form submit. */
  function ApplyEdit(meds: seq<Medication>, id: string, form: MedForm): seq<Medication>
  {
    seq(|meds|, i requires 0 <= i < |meds| => if meds[i].id == id then Edited(meds[i], form) else meds[i])
  }

  /** An edit overwrites the five form fields of the medication being
      edited and keeps its id, start date, next dose, description, notes,
      advice, colour and icon; the rest of the list is untouched. */
  lemma EditSpec(meds: seq<Medication>, id: string, form: MedForm)
    ensures var r := ApplyEdit(meds, id, form);
      |r| == |meds| && Ids(r) == Ids(meds)
      && (forall i :: 0 <= i < |meds| && meds[i].id != id ==> r[i] == meds[i])
      && (forall i :: 0 <= i < |meds| && meds[i].id == id ==>
            r[i].name == form.name && r[i].dosage == form.dosage
            && r[i].frequencyType == form.frequencyType
            && r[i].frequencyValue == FormFrequency(form) && r[i].frequencyValue != 0
            && r[i].inventory == Some(FormInventory(form))
            && r[i].startDate == meds[i].startDate && r[i].nextDose == meds[i].nextDose
            && r[i].description == meds[i].description && r[i].notes == meds[i].notes
            && r[i].advice == meds[i].advice && r[i].color == meds[i].color && r[i].icon == meds[i].icon)
  {
  }

  /** Opening a medication for editing and saving the form unchanged keeps
      it as it was, except that a zero frequency becomes 1 and an absent
      inventory becomes 30. */
  lemma EditUnchangedForm(meds: seq<Medication>, k: nat)
    requires k < |meds|
    ensures var m := meds[k];
      ApplyEdit(meds, m.id, FormFor(m))[k] ==
        m.(frequencyValue := if m.frequencyValue == 0 then 1 else m.frequencyValue,
           inventory := Some(match m.inventory case Some(v) => v case None => 30))
  {
    var m := meds[k];
    FormNumbersReadBack(m.name, m.dosage, m.frequencyType, m.frequencyValue,
                        match m.inventory case Some(v) => v case None => 30);
  }

  /** The record the create branch of the form builds. */
  function NewManualMedication(form: MedForm, newId: string, now: int, colorIndex: nat, advice: Option<Advice>): Medication
    requires colorIndex < |Colors|
  {
    Medication(newId, form.name, None, form.dosage, form.frequencyType, FormFrequency(form), None,
               now, Some(now), Colors[colorIndex], PillIcon, advice, Some(FormInventory(form)))
  }

  /** The form submit: an edit when an edited id is set and non-empty,
      otherwise a new medication appended at the end. */
  function SubmitForm(meds: seq<Medication>, editingId: Option<string>, form: MedForm,
                      newId: string, now: int, colorIndex: nat, advice: Option<Advice>): seq<Medication>
    requires colorIndex < |Colors|
  {
    if editingId.Some? && editingId.value != "" then ApplyEdit(meds, editingId.value, form)
    else meds + [NewManualMedication(form, newId, now, colorIndex, advice)]
  }

  /** Creating appends exactly one medication, due at once, starting now,
      with the form's fields, one of the five colours and the pill icon. */
  lemma SubmitCreates(meds: seq<Medication>, editingId: Option<string>, form: MedForm,
                      newId: string, now: int, colorIndex: nat, advice: Option<Advice>)
    requires colorIndex < |Colors|
    requires editingId.None? || editingId.value == ""
    ensures var r := SubmitForm(meds, editingId, form, newId, now, colorIndex, advice);
      |r| == |meds| + 1 && r[..|meds|] == meds
      && var n := r[|meds|];
      n.id == newId && n.name == form.name && n.dosage == form.dosage
      && n.frequencyType == form.frequencyType && n.frequencyValue == FormFrequency(form)
      && n.inventory == Some(FormInventory(form)) && n.advice == advice
      && n.description.None? && n.notes.None?
      && n.startDate == now && n.nextDose == Some(now) && IsDue(n, now)
      && n.color in Colors && n.icon == "pill"
  {
  }

  /** Adding a medication under a fresh id keeps ids unique. */
  lemma AppendKeepsUniqueIds(meds: seq<Medication>, n: Medication)
    requires UniqueIds(meds) && n.id !in Ids(meds)
    ensures UniqueIds(meds + [n])
  {
  }

  /** The form submit keeps ids unique when a created record's id is fresh. */
  lemma SubmitKeepsUniqueIds(meds: seq<Medication>, editingId: Option<string>, form: MedForm,
                             newId: string, now: int, colorIndex: nat, advice: Option<Advice>)
    requires colorIndex < |Colors| && UniqueIds(meds)
    requires editingId.None? || editingId.value == "" ==> newId !in Ids(meds)
    ensures UniqueIds(SubmitForm(meds, editingId, form, newId, now, colorIndex, advice))
  {
  }

  /** An edit keeps the cadences well formed when the form's is. */
  lemma EditKeepsCadences(meds: seq<Medication>, id: string, form: MedForm)
    requires WellFormedCadences(meds) && WellFormedFrequency(form.frequencyType)
    ensures WellFormedCadences(ApplyEdit(meds, id, form))
  {
    var r := ApplyEdit(meds, id, form);
    forall i | 0 <= i < |r| ensures WellFormedFrequency(r[i].frequencyType) {
      assert r[i].frequencyType == if meds[i].id == id then form.frequencyType else meds[i].frequencyType;
    }
  }

  /** Appending a medication with a well-formed cadence keeps the cadences
      well formed. */
  lemma AppendKeepsCadences(meds: seq<Medication>, n: Medication)
    requires WellFormedCadences(meds) && WellFormedFrequency(n.frequencyType)
    ensures WellFormedCadences(meds + [n])
  {
  }

  /** The form submit keeps the cadences well formed when the form's is. */
  lemma SubmitKeepsCadences(meds: seq<Medication>, editingId: Option<string>, form: MedForm,
                            newId: string, now: int, colorIndex: nat, advice: Option<Advice>)
    requires colorIndex < |Colors| && WellFormedCadences(meds) && WellFormedFrequency(form.frequencyType)
    ensures WellFormedCadences(SubmitForm(meds, editingId, form, newId, now, colorIndex, advice))
  {
    if editingId.Some? && editingId.value != "" {
      EditKeepsCadences(meds, editingId.value, form);
    } else {
      AppendKeepsCadences(meds, NewManualMedication(form, newId, now, colorIndex, advice));
    }
  }

  // ----------------------------------------------------- assistant add

  /** What the assistant may return for a free-text instruction; any field
      but the name may be missing. */
  datatype AiDraft = AiDraft(name: string, description: Option<string>, dosage: Option<string>,
                             frequencyType: Option<string>, frequencyValue: Option<int>,
                             info: Option<string>, advice: Option<Advice>, inventory: Option<int>)

  /** `s || d` on an optional string: missing and empty give `d`. */
  function TextOr(s: Option<string>, d: string): (r: string)
    ensures s.Some? && s.value != "" ==> r == s.value
    ensures s.None? || s.value == "" ==> r == d
  {
    if s.Some? && s.value != "" then s.value else d
  }

  /** `(tag as FrequencyType) || DAILY`: a missing or empty tag gives daily,
      any other tag the cadence written with exactly that tag. */
  function CadenceOrDaily(tag: Option<string>): (f: FrequencyType)
    ensures WellFormedFrequency(f)
    ensures tag.None? || tag.value == "" ==> f == Daily
    ensures tag.Some? && tag.value != "" ==> FrequencyTag(f) == tag.value
  {
    if tag.Some? && tag.value != "" then FrequencyFromTag(tag.value) else Daily
  }

  function NewAiMedication(d: AiDraft, newId: string, now: int, colorIndex: nat): Medication
    requires colorIndex < |Colors|
  {
    Medication(newId, d.name, None, TextOr(d.dosage, DefaultAiDosage), CadenceOrDaily(d.frequencyType),
               OrDefault(d.frequencyValue, 1), d.info, now, Some(now), Colors[colorIndex], PillIcon,
               d.advice, Some(OrDefault(d.inventory, DefaultAiInventory)))
  }

  /** The assistant add: nothing for a blank instruction or a failed call,
      otherwise the draft's medication appended at the end. */
  function AiAdd(meds: seq<Medication>, instruction: string, result: Option<AiDraft>,
                 newId: string, now: int, colorIndex: nat): seq<Medication>
    requires colorIndex < |Colors|
  {
    if IsBlank(instruction) then meds
    else match result
      case None => meds
      case Some(d) => meds + [NewAiMedication(d, newId, now, colorIndex)]
  }

  /** A blank instruction or a failed call leaves the list as it was; a
      draft appends one medication, due at once with its next dose `now`,
      in one of the five colours with the pill icon, with its missing or empty
      dosage read as "Estándar", missing or empty cadence as daily, missing
      or zero frequency as 1 and missing or zero pill count as 20; the
      draft's description is not kept. */
  lemma AiAddSpec(meds: seq<Medication>, instruction: string, result: Option<AiDraft>,
                  newId: string, now: int, colorIndex: nat)
    requires colorIndex < |Colors|
    ensures var r := AiAdd(meds, instruction, result, newId, now, colorIndex);
      (IsBlank(instruction) || result.None?) ==> r == meds
    ensures var r := AiAdd(meds, instruction, result, newId, now, colorIndex);
      (!IsBlank(instruction) && result.Some?) ==>
        |r| == |meds| + 1 && r[..|meds|] == meds
        && var d, n := result.value, r[|meds|];
        n.id == newId && n.name == d.name && n.description.None? && n.notes == d.info
        && n.advice == d.advice && n.startDate == now && n.nextDose == Some(now) && IsDue(n, now)
        && n.color in Colors && n.icon == PillIcon
        && n.dosage != "" && (d.dosage.None? || d.dosage == Some("") ==> n.dosage == "Est\U{00E1}ndar")
        && (d.frequencyType.None? || d.frequencyType == Some("") ==> n.frequencyType == Daily)
        && (d.frequencyType.Some? && d.frequencyType.value != "" ==>
              FrequencyTag(n.frequencyType) == d.frequencyType.value)
        && (d.dosage.Some? && d.dosage.value != "" ==> n.dosage == d.dosage.value)
        && n.frequencyValue != 0
        && (d.frequencyValue.None? || d.frequencyValue == Some(0) ==> n.frequencyValue == 1)
        && (d.frequencyValue.Some? && d.frequencyValue.value != 0 ==> n.frequencyValue == d.frequencyValue.value)
        && n.inventory.Some? && n.inventory.value != 0
        && (d.inventory.None? || d.inventory == Some(0) ==> n.inventory == Some(20))
        && (d.inventory.Some? && d.inventory.value != 0 ==> n.inventory == d.inventory)
  {
  }
}
