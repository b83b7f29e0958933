# Medication ledger of the medication reminder app

This project models the bookkeeping core of a personal medication reminder (a
React application). The user keeps a list of medications. Each medication has a
cadence (hourly, daily, weekly or "as needed"), a frequency value, an optional
next-dose time and an optional pill count. The core covers:

- taking a dose, which logs it in the history, lowers the pill count and
  schedules the next dose;
- snoozing, deleting and editing a medication by id;
- building new records from the form or from an assistant's answer;
- the reminder check, which notifies due medications at most once per
  50-second window;
- what a medication card derives: the due flag, the stock badges, the cadence
  label and which buttons it shows.

Modules:

- `MedTypes` (`types.dfy`): the records. Timestamps are integer milliseconds.
  `FrequencyType` has one extra variant, `Unrecognised(tag)`. It stands for a
  cadence string outside the enumeration, which an unchecked cast of the
  assistant's answer can produce.
- `JsText` (`jstext.dfy`): the JavaScript number/text conversions the form
  uses. It models `parseInt` (with `NaN` as `None`), `x || d` and integer
  `toString`. The main result is that `parseInt(String(i)) === i`.
- `Card` (`card.dfy`): the card's derived values.
- `Ledger` (`ledger.dfy`): the handlers as pure list transforms, plus the
  lemmas about them.
- `Reminder` (`reminder.dfy`): the notifying check and its debounce.
- `App` (`app.dfy`): class `MediApp`. It holds `medications`, `history` and
  `lastCheck`. Each method replaces its fields with the result of a
  transition above. The reminder method loops over the list the way the
  source's `forEach` does. Its invariant `Valid()` keeps medication ids unique,
  given that new ids are fresh, and keeps every cadence well formed.

Facts about the code that the model keeps as written:

- An "as needed" medication is not always due. `Card.IsDue` compares the
  next dose with the current time for every cadence, and
  `Card.DueIgnoresCadence` proves that the cadence plays no part.
- Taking a dose has no catch-up loop. Daily and weekly doses are counted
  from the moment of taking, not from the previous slot.
- Daily scheduling ignores the frequency value.
- Nothing computes points, streaks or levels. `UserStats` is declared but
  never used.
- A non-positive hourly or weekly frequency makes the medication due again at
  once (`Ledger.TakeDueAgain`). The assistant add can store one, because
  `result.frequencyValue || 1` (App.tsx:207) keeps a negative value. The
  number input of the form carries `min="1"` (App.tsx:447-448), so the
  browser refuses to submit "-2" or "0". The form handler itself would keep
  "-2", because `parseInt("-2") || 1` is `-2`, and the model, which leaves the
  `min` check out, does so.
- Corrupt stored data is not tolerated: `JSON.parse` runs unguarded.

## Model

| member | source | states |
|---|---|---|
| `MedTypes.FrequencyFromTag` | App.tsx:206 | reading a cadence string gives `Unrecognised` exactly for non-member tags, and it writes back to the same string |
| `MedTypes.FrequencyTagRoundTrip` | types.ts:1-6 | a well-formed cadence survives being written as its tag and read back |
| `JsText.TrimStart` | App.tsx:194 | trimming removes only a whitespace prefix and leaves a string that does not start with whitespace |
| `JsText.IsBlankIffAllWhitespace` | App.tsx:194 | `!s.trim()` holds exactly when every character is JavaScript whitespace |
| `JsText.LeadingDigits` | App.tsx:236-237 | `parseInt` reads the longest run of digits: those counted are digits and the next character is not |
| `JsText.ParseInt` | App.tsx:236-237 | `parseInt` on the form text: skip whitespace, an optional sign, an optional `0x` prefix, then the longest digit run, or `NaN`; its properties are in `LeadingDigits` and `ParseIntOfIntToString` |
| `JsText.OrDefault` | App.tsx:236-237 | `parseInt(s)` with default `d`: a parsed non-zero value is kept; `NaN` or 0 gives `d`; so the result is 0 only when `d` is |
| `JsText.NatToDecimal` | App.tsx:179-180 | writing a natural gives a nonempty string of decimal digits with no sign or whitespace in front, and with no leading zero except for 0 itself |
| `JsText.IntToString` | App.tsx:179-180 | `toString` of an integer: a minus sign for negatives, then the decimal digits; `ParseIntOfIntToString` proves it reads back |
| `JsText.ParseIntOfIntToString` | App.tsx:179-180 | `parseInt(String(i))` is `i` for every integer, negative ones included |
| `JsText.IntToStringInjective` | components/MedicationCard.tsx:19-21 | distinct integers are written as distinct strings |
| `Card.IsDue` | components/MedicationCard.tsx:27-30 | `isDue`: no next dose, or a next dose at or before `now`; its properties are in `IsDueMonotone`, `NotDueHasNextDose` and `DueIgnoresCadence` |
| `Card.IsDueMonotone` | components/MedicationCard.tsx:27-30 | once a card is due it stays due as time goes on |
| `Card.NotDueHasNextDose` | components/MedicationCard.tsx:141-144 | a card that is not due has a next dose in the future, so the non-null assertion in the "next time" label is safe |
| `Card.DueIgnoresCadence` | components/MedicationCard.tsx:27-30 | for every medication, changing the cadence never changes whether it is due; an "as needed" medication with a future next dose is not due |
| `Card.LowStock` | components/MedicationCard.tsx:34-35 | the low-stock badge: a stock (absent read as 0) between 1 and 5 |
| `Card.NoStock` | components/MedicationCard.tsx:34-36 | the no-stock badge: a stock (absent read as 0) of exactly 0; `StockBadges` relates the two badges |
| `Card.StockBadges` | components/MedicationCard.tsx:34-36 | low stock and no stock never show together, a stock in 0..5 shows exactly one of them, and an absent inventory shows "no stock" |
| `Card.FrequencyText` | components/MedicationCard.tsx:17-25 | the cadence label for each cadence, with an empty label for the `default` branch; its properties are in the next two rows |
| `Card.FrequencyTextIgnoresValueWhenAsNeeded` | components/MedicationCard.tsx:17-25 | the "as needed" label is "Si es necesario" whatever the frequency value, and an unrecognised cadence has an empty label |
| `Card.FrequencyTextDeterminesValue` | components/MedicationCard.tsx:17-25 | for hourly, daily and weekly, equal labels mean equal frequency values |
| `Card.CardControls` | components/MedicationCard.tsx:123-144 | the bottom of the card: the snooze and take buttons when due, else the next-dose time; `CardControlsSpec` states what it shows |
| `Card.CardControlsSpec` | components/MedicationCard.tsx:123-144 | the buttons appear exactly when the medication is due, with snooze asking for 15 minutes and take disabled exactly when the stock is 0; otherwise the card shows the future next-dose time |
| `Ledger.FindIndex` | App.tsx:112 | `find` gives the first medication with the id, or none when no medication has it |
| `Ledger.NextDoseAfterTake` | App.tsx:136-145 | the next dose by cadence, counted from the time of taking; `TakeSchedule` states the offsets |
| `Ledger.StockAfterTake` | App.tsx:124-125 | the stock after a take is never negative |
| `Ledger.TakeDose` | App.tsx:111-152 | the take handler on the two lists; `TakeHistory`, `TakeFrame`, `TakeStock`, `TakeSchedule` and `TakeDueAgain` state what it does |
| `Ledger.TakeHistory` | App.tsx:111-121 | an unknown id changes neither list; a known id puts exactly one "taken" log in front, naming the first match, stamped `now` and earning no points, and keeps the older logs in order |
| `Ledger.TakeFrame` | App.tsx:133-152 | a take keeps length, order and ids, leaves other medications equal, and changes only `nextDose` and `inventory` of those it takes |
| `Ledger.TakeStock` | App.tsx:124-151 | the taken medication's inventory becomes the old stock minus one, floored at 0, with an absent inventory counted as 0 |
| `Ledger.TakeSchedule` | App.tsx:136-149 | the next dose is counted from `now`: plus N hours (hourly), plus exactly one day whatever N is (daily), plus 7·N days (weekly), `now` itself otherwise |
| `Ledger.TakeDueAgain` | App.tsx:136-149 | after a take, daily is not due for a day; hourly and weekly are due at once exactly when N ≤ 0; "as needed" and unrecognised cadences are due at once |
| `Ledger.LowStockAlert` | App.tsx:124-130 | the take handler's alert: the new stock of the first match when it is between 1 and 5; `LowStockAlertAgreesWithCard` ties it to the card |
| `Ledger.LowStockAlertAgreesWithCard` | App.tsx:127-130 | the take handler's low-stock alert fires exactly when the taken medication's card will show the low-stock badge, and reports the stock that badge shows |
| `Ledger.Snooze` | App.tsx:156-168 | the snooze handler on the list; `SnoozeSpec` states what it changes and keeps |
| `Ledger.SnoozeSpec` | App.tsx:156-168 | snooze changes only the next dose of the matching medications, to `now` plus the minutes, whatever the cadence; other medications and the ids are kept; the card's 15-minute snooze makes it due again exactly 15 minutes later |
| `Ledger.Delete` | App.tsx:170-172 | the delete handler's `filter`; it never lengthens the list |
| `Ledger.DeleteMembers` | App.tsx:170-172 | delete keeps exactly the medications whose id differs |
| `Ledger.DeleteConcat` | App.tsx:170-172 | delete acts piecewise on a concatenation, so the survivors keep their order |
| `Ledger.DeleteIdle` | App.tsx:170-172 | deleting an absent id changes nothing, and deleting twice equals deleting once |
| `Ledger.DeleteKeepsUniqueIds` | App.tsx:170-172 | delete keeps the ids unique |
| `Ledger.DeleteKeepsCadences` | App.tsx:170-172 | delete keeps every cadence well formed |
| `Ledger.FormFor` | App.tsx:174-182 | the form filled in for editing: name, dosage, cadence, the frequency as text and the pill count as text, 30 when absent; `EditUnchangedForm` proves it round-trips |
| `Ledger.FormFrequency` | App.tsx:236 | `parseInt(newFreqVal)` with default 1: a parsed non-zero number is kept, and `NaN` or 0 gives 1; so the submitted frequency is never 0 |
| `Ledger.FormInventory` | App.tsx:237 | the submitted inventory is the parsed number, or 0 when the entry is non-numeric |
| `Ledger.FormNumbersReadBack` | App.tsx:236-237 | numbers written into the form read back unchanged, except that frequency 0 reads as 1 |
| `Ledger.BlankFormNumbers` | App.tsx:184-191 | the reset form submits frequency 1 and 30 pills |
| `Ledger.ApplyEdit` | App.tsx:239-254 | the edit branch's `map` over the list; `EditSpec` states what it overwrites and keeps |
| `Ledger.EditSpec` | App.tsx:239-254 | an edit overwrites name, dosage, cadence, frequency and inventory of the matching id; it keeps id, start date, next dose, description, notes, advice, colour and icon; the rest of the list is untouched |
| `Ledger.EditUnchangedForm` | App.tsx:174-182 | opening a medication for editing and saving the form unchanged leaves it as it was, except that frequency 0 becomes 1 and an absent inventory becomes 30 |
| `Ledger.NewManualMedication` | App.tsx:261-273 | the record the create branch builds; `SubmitCreates` states its fields |
| `Ledger.SubmitForm` | App.tsx:236-275 | the form submit: an edit for a non-empty edited id, else a create; its properties are in `EditSpec`, `SubmitCreates` and the two rows after them |
| `Ledger.SubmitCreates` | App.tsx:255-274 | the create branch appends exactly one record with the form's fields, a fresh id, start date and next dose `now` (so it is due), no description and no notes, one of the five colours and the pill icon |
| `Ledger.AppendKeepsUniqueIds` | App.tsx:274 | appending under an id not yet in use keeps ids unique |
| `Ledger.SubmitKeepsUniqueIds` | App.tsx:239-275 | the form submit keeps ids unique when a created record's id is fresh |
| `Ledger.EditKeepsCadences` | App.tsx:241-254 | an edit keeps every cadence well formed when the form's cadence is |
| `Ledger.AppendKeepsCadences` | App.tsx:274 | appending a medication with a well-formed cadence keeps every cadence well formed |
| `Ledger.SubmitKeepsCadences` | App.tsx:239-275 | the form submit keeps every cadence well formed when the form's cadence is |
| `Ledger.TextOr` | App.tsx:205 | an optional string with default `d` gives the string when it is present and nonempty, and `d` when it is missing or empty |
| `Ledger.CadenceOrDaily` | App.tsx:206 | the cast cadence: daily for a missing or empty tag, otherwise the cadence whose tag is exactly the given string; always well formed |
| `Ledger.NewAiMedication` | App.tsx:202-215 | the record built from an assistant answer; `AiAddSpec` states its fields |
| `Ledger.AiAdd` | App.tsx:193-216 | the assistant add on the list; `AiAddSpec` states what it does |
| `Ledger.AiAddSpec` | App.tsx:193-216 | a blank instruction or a failed answer changes nothing. Otherwise one medication is appended. Its start date and next dose are `now`, so it is due at once, and it gets one of the five colours and the pill icon. A present nonempty dosage, a non-zero frequency and a non-zero pill count are carried over. A missing or empty dosage becomes "Estándar", a missing or empty cadence becomes daily, a missing or zero frequency becomes 1 and a missing or zero pill count becomes 20. The answer's description is dropped |
| `Reminder.DueNotifications` | App.tsx:97-108 | the notifications one notifying check fires, in list order; the next two rows state which |
| `Reminder.DueNotificationsSpec` | App.tsx:97-108 | a notifying check fires a notification, keyed by id, for each medication with a defined next dose at or before `now`, and no others; never more notifications than medications |
| `Reminder.DueNotificationsOnce` | App.tsx:97-108 | with unique ids, each medication whose next dose has come is notified exactly once, and every other medication not at all |
| `Reminder.NotifiedAreDue` | App.tsx:98-101 | every notified medication is due on its card, and one with no next dose is due on its card but never notified |
| `Reminder.PollStep` | App.tsx:91-95 | one poll: inside the 50 000 ms window nothing, otherwise record `now` and fire `DueNotifications`; `PollDebounce` states the window |
| `Reminder.PollDebounce` | App.tsx:91-95 | a check less than 50 000 ms after the last notifying one does nothing at all; otherwise it records `now`; so a check right after a notifying one is silent |
| `App.MediApp.constructor` | App.tsx:18-48 | the state starts from the loaded lists (unique ids, well-formed cadences) with the last check at mount time |
| `App.MediApp.TakeMedication` | App.tsx:111-154 | the new lists are those of `TakeDose`, the alert is `LowStockAlert`, the last check is unchanged, and ids stay unique and cadences well formed |
| `App.MediApp.Snooze` | App.tsx:156-168 | the new list is `Snooze`'s, and the history and last check are unchanged |
| `App.MediApp.Delete` | App.tsx:170-172 | the new list is `Delete`'s, and the history and last check are unchanged |
| `App.MediApp.SubmitForm` | App.tsx:232-284 | the new list is the edit or create result, the history is unchanged, ids stay unique and cadences stay well formed (the form's cadence is well formed) |
| `App.MediApp.AiAdd` | App.tsx:193-230 | the new list is the assistant-add result, the history is unchanged, ids stay unique and cadences stay well formed |
| `App.MediApp.CheckDueMedications` | App.tsx:91-109 | the loop fires exactly `DueNotifications` when outside the window and records `now`; inside the window it fires nothing and keeps the last check |

## Left out

- Time is integer milliseconds, and ISO strings stand for their millisecond
  value. `setDate(+1)` is taken as +86 400 000 ms and `setHours(+N)` as
  N·3 600 000 ms. Calendar and daylight-saving effects of local-time
  arithmetic are not modelled.
- The handlers read the clock more than once: the take handler for the log
  and again in the list update, both add handlers for `startDate` and for
  `nextDose` (App.tsx:209-210 and 267-268), and the reminder check three
  times (App.tsx:92, 94 and 95). The model uses a single `now` for each call.
- The frequency value and the pill count are integers. Non-integer values an
  assistant might return are not modelled. Nor are `parseInt` results beyond
  2^53 and the exponent form `toString` uses from 10^21 up.
- The browser's `min` constraint on the number inputs is not modelled. Form
  text is taken as arbitrary.
- State and UI plumbing is not modelled: React state batching, the stale
  `medications` closure read after an `await` in the add handlers, JSX
  rendering, theming and view switching.
- Browser host APIs are left out: `localStorage` load and save, notification
  permission, the one-minute `setInterval`, `alert`/`setTimeout`, clipboard
  and share, and report generation. The model returns the low-stock alert
  and the notifications instead of showing them.
- The assistant calls (services/geminiService.ts) are left out. Their
  answers, fresh UUIDs and the random colour index are parameters. The advice
  lookup `getMedicationRisks` used by the manual add is not part of this model.
- The "next dose" headline in the dashboard (App.tsx:342) is left out. It
  calls `medications.sort(...)`, which sorts the state array in place, so later
  handlers and the reminder loop see the medications in next-dose order. The
  model keeps the list in insertion order. The comparator also relies on
  non-null assertions, and gives `NaN` for a medication without a next dose.
- Points, streaks, levels and the catch-up rule are not modelled, because
  the code does not implement them.
- Ledger.TakeSchedule: the next dose is an unbounded integer. JavaScript
  `Date` values are limited to ±8.64·10^15 ms. `setHours`/`setDate` past that
  limit give an invalid date, and `toISOString()` (App.tsx:149) then throws
  `RangeError`. That happens, for example, for an hourly frequency of
  2 400 000 000 or a weekly one from about 14 300 000. The same holds for
  `Ledger.NextDoseAfterTake` and `Ledger.TakeDose`, which return a value where
  the source throws.
