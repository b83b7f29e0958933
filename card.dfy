/** What a medication card derives from its medication and the current time:
    whether a dose is due, the stock badges, the cadence label and which
    controls are offered. */
module Card {
  import opened MedTypes
  import opened JsText

  /** The snooze button always asks for this many minutes. */
  const SnoozeButtonMinutes: int := 15

  /** A medication with no next dose is due; otherwise it is due once its
      next dose is at or before `now`. The cadence plays no part. */
  predicate IsDue(m: Medication, now: int)
  {
    m.nextDose.None? || m.nextDose.value <= now
  }

  /** Once due, a medication stays due as time goes on. */
  lemma IsDueMonotone(m: Medication, now: int, later: int)
    requires IsDue(m, now) && now <= later
    ensures IsDue(m, later)
  {
  }

  /** A card that is not due always has a next dose to show. */
  lemma NotDueHasNextDose(m: Medication, now: int)
    requires !IsDue(m, now)
    ensures m.nextDose.Some? && now < m.nextDose.value
  {
  }

  /** The cadence plays no part in whether a card is due. In particular an
      "as needed" medication whose next dose is still ahead is not due. */
  lemma DueIgnoresCadence(m: Medication, now: int)
    ensures forall f :: IsDue(m.(frequencyType := f), now) <==> IsDue(m, now)
    ensures m.frequencyType.AsNeeded? && m.nextDose.Some? && now < m.nextDose.value ==> !IsDue(m, now)
  {
  }

  /** The card shows `StockOf(m)` as the stock; an absent inventory shows as 0. */
  predicate LowStock(m: Medication)
  {
    StockOf(m) <= 5 && StockOf(m) > 0
  }

  predicate NoStock(m: Medication)
  {
    StockOf(m) == 0
  }

  /** The two stock badges never show together, and a non-negative stock
      of at most 5 always shows one of them. */
  lemma StockBadges(m: Medication)
    ensures !(LowStock(m) && NoStock(m))
    ensures 0 <= StockOf(m) <= 5 <==> LowStock(m) || NoStock(m)
    ensures m.inventory.None? ==> NoStock(m)
  {
  }

  /** The cadence label. */
  function FrequencyText(m: Medication): string
  {
    match m.frequencyType
    case Hourly => "Cada " + IntToString(m.frequencyValue) + " horas"
    case Daily => IntToString(m.frequencyValue) + " vez al d\U{00ED}a"
    case Weekly => "Cada " + IntToString(m.frequencyValue) + " semanas"
    case AsNeeded => "Si es necesario"
    case Unrecognised(_) => ""
  }

  /** The label of an "as needed" medication does not depend on its
      frequency value, and an unrecognised cadence has an empty label. */
  lemma FrequencyTextIgnoresValueWhenAsNeeded(m: Medication, v: int)
    ensures m.frequencyType.AsNeeded? ==>
              FrequencyText(m) == FrequencyText(m.(frequencyValue := v)) == "Si es necesario"
    ensures m.frequencyType.Unrecognised? ==> FrequencyText(m) == ""
  {
  }

  /** For the three scheduled cadences the label determines the frequency
      value: two medications of the same such cadence with the same label
      have the same value. */
  lemma {:induction false} FrequencyTextDeterminesValue(m: Medication, n: Medication)
    requires m.frequencyType in {Hourly, Daily, Weekly}
    requires n.frequencyType == m.frequencyType
    requires FrequencyText(m) == FrequencyText(n)
    ensures m.frequencyValue == n.frequencyValue
  {
    var a, b := IntToString(m.frequencyValue), IntToString(n.frequencyValue);
    match m.frequencyType
    case Hourly =>
      LabelCore(a, b, "Cada ", " horas");
      IntToStringInjective(m.frequencyValue, n.frequencyValue);
    case Daily =>
      assert "" + a == a && "" + b == b;
      LabelCore(a, b, "", " vez al d\U{00ED}a");
      IntToStringInjective(m.frequencyValue, n.frequencyValue);
    case Weekly =>
      LabelCore(a, b, "Cada ", " semanas");
      IntToStringInjective(m.frequencyValue, n.frequencyValue);
  }

  /** Equal framings of two strings come from equal strings. */
  lemma LabelCore(a: string, b: string, pre: string, post: string)
    requires pre + a + post == pre + b + post
    ensures a == b
  {
    var s := pre + a + post;
    assert |a| == |b|;
    assert a == s[|pre|..|pre| + |a|];
    assert b == (pre + b + post)[|pre|..|pre| + |b|];
  }

  /** What the bottom of a card offers: the snooze and take buttons (with
      the minutes the snooze asks for and whether take is disabled), or the
      time of the next dose. */
  datatype Controls = Actions(snoozeMinutes: int, takeDisabled: bool) | NextTime(at: int)

  function CardControls(m: Medication, now: int): Controls
  {
    if IsDue(m, now) then Actions(SnoozeButtonMinutes, NoStock(m))
    else NextTime(m.nextDose.value)
  }

  /** The buttons appear exactly when the medication is due; take is then
      disabled exactly when there is no stock, and snooze asks for 15
      minutes; otherwise the card shows the next dose time. */
  lemma CardControlsSpec(m: Medication, now: int)
    ensures CardControls(m, now).Actions? <==> IsDue(m, now)
    ensures CardControls(m, now).Actions? ==>
              CardControls(m, now).snoozeMinutes == 15
              && (CardControls(m, now).takeDisabled <==> StockOf(m) == 0)
    ensures CardControls(m, now).NextTime? ==>
              m.nextDose == Some(CardControls(m, now).at) && now < CardControls(m, now).at
  {
  }
}
