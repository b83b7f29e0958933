/** The records of the medication tracker: medications, their cadence and the
    adherence history. Timestamps (`startDate`, `nextDose`, `takenAt`) are
    milliseconds since the epoch; the application stores them as ISO strings,
    which round-trip exactly to and from that number. */
module MedTypes {

  datatype Option<+T> = None | Some(value: T)

  /** The cadence kind. The four named kinds are the enumeration's members;
      `Unrecognised` carries any other tag, which the application can receive
      through an unchecked cast of an assistant-supplied string. */
  datatype FrequencyType = Daily | Hourly | Weekly | AsNeeded | Unrecognised(tag: string)

  /** The string value of each enumeration member. */
  function FrequencyTag(f: FrequencyType): string
  {
    match f
    case Daily => "DAILY"
    case Hourly => "HOURLY"
    case Weekly => "WEEKLY"
    case AsNeeded => "AS_NEEDED"
    case Unrecognised(t) => t
  }

  predicate IsMemberTag(s: string)
  {
    s == "DAILY" || s == "HOURLY" || s == "WEEKLY" || s == "AS_NEEDED"
  }

  /** Reading a stored tag back as a cadence (the `as FrequencyType` cast). */
  function FrequencyFromTag(s: string): (f: FrequencyType)
    ensures f.Unrecognised? <==> !IsMemberTag(s)
    ensures FrequencyTag(f) == s
  {
    if s == "DAILY" then Daily
    else if s == "HOURLY" then Hourly
    else if s == "WEEKLY" then Weekly
    else if s == "AS_NEEDED" then AsNeeded
    else Unrecognised(s)
  }

  /** An `Unrecognised` cadence never hides one of the four member tags. */
  predicate WellFormedFrequency(f: FrequencyType)
  {
    f.Unrecognised? ==> !IsMemberTag(f.tag)
  }

  lemma FrequencyTagRoundTrip(f: FrequencyType)
    requires WellFormedFrequency(f)
    ensures FrequencyFromTag(FrequencyTag(f)) == f
  {
  }

  datatype Advice = Advice(food: string, sideEffects: string, interactions: string)

  datatype Medication = Medication(
    id: string,
    name: string,
    description: Option<string>,
    dosage: string,
    frequencyType: FrequencyType,
    frequencyValue: int,
    notes: Option<string>,
    startDate: int,
    nextDose: Option<int>,
    color: string,
    icon: string,
    advice: Option<Advice>,
    inventory: Option<int>)

  /** The pill count as the application reads it: `inventory ?? 0`. */
  function StockOf(m: Medication): int
  {
    match m.inventory
    case Some(v) => v
    case None => 0
  }

  datatype Status = Taken | Skipped

  datatype HistoryLog = HistoryLog(
    id: string,
    medicationName: string,
    takenAt: int,
    status: Status,
    pointsEarned: Option<int>)
}
