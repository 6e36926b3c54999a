# DTEK outage monitor, modelled in Dafny

This project models one polling cycle of a bot that watches a utility provider's outage page for a single house. It also models the Telegram message that the bot keeps up to date.

- `src/monitor.js` classifies the scraped house record with three checks: outage, scheduled and stabilisation. From these it decides whether to notify. It picks a headline and either sends a new Telegram message or edits the live one.
- When there is no outage but a live message exists, it waits five to ten minutes. It then scrapes once more, and sends a recovery message only if the second scrape still shows no outage.
- `src/helpers.js` keeps the last published message in a one-slot JSON store (`loadLastMessage` / `saveLastMessage` / `deleteLastMessage`). It also provides the `capitalize` string helper.

Modules:
- `Wrappers` holds `Option`. `None` stands for a JavaScript `undefined` in fields, and for the `null` that `loadLastMessage` returns.
- `JsStrings` models `toLowerCase`, `toUpperCase` and `includes`.
- `Helpers` models `src/helpers.js`. The store is a class, `LastMessageStore`, with one mutable `FileState` field: `Missing`, `Written(record)` or `Unparsable`.
- `Monitor` models `src/monitor.js`. `Run` is a method that takes its inputs as parameters:
  - the first scrape and the recheck scrape;
  - the value `Math.random()` returned;
  - the Bot API answer;
  - today's date string.

## Behaviour modelled as the code has it

The model follows the code as written, including these behaviours:

- **Missing house record.** In `checkIsOutage` (monitor.js:79-89), a missing house record, a missing field and a `null` field all differ from `""`. So each of them counts as an outage (`IsOutage`, `MissingHouseIsSilent`, `NullDatesAreOutage`). An empty object `{}`, or a record whose dates are missing or `null`, still counts as an outage.
- **No notification for a missing record.** A missing record is classified as a scheduled outage with no keyword. So it neither notifies nor triggers the recovery re-check.
- **Recheck condition.** The re-check is decided by the fresh classification and a truthy stored `message_id` alone. The stored `isOutage` flag is never read (`Run`).
- **What the store records.** `sendNotification` overwrites the store from `data.result` whatever the answer was (`SendNotification`).
  - A failed call therefore erases the stored `message_id`, and the next call sends a new message (`FailedCallForgetsMessage`).
  - The stored `isOutage` comes from the Telegram answer, which has no such field. It is never the classification result.
- **Repeated recovery edits.** A successful recovery edit stores the answered `message_id` again. So every later calm cycle waits, re-checks and edits the recovery message once more (`RepeatedRecovery`).
- **Not in the code.** The code has no fingerprint suppression, no end-date window, no day-rollover rule and no persisted pending-recovery state, and neither does the model.

## Model

| member | source | states |
|---|---|---|
| `JsStrings.LowerChar` | src/monitor.js:93 | lower-casing one character leaves no upper-case letter; a character that is not upper-case is unchanged; an upper-case one round-trips through `UpperChar` |
| `JsStrings.UpperChar` | src/helpers.js:10 | upper-casing turns a lower-case letter into an upper-case one, leaves no lower-case letter and leaves non-lower-case characters unchanged |
| `JsStrings.UpperCharRoundTrip` | src/helpers.js:10 | the upper-case partner of a lower-case letter lower-cases back to that letter |
| `JsStrings.Lower` | src/monitor.js:93 | `toLowerCase` keeps the length and lower-cases every position |
| `JsStrings.LowerIdempotent` | src/helpers.js:10 | lower-casing twice equals lower-casing once |
| `JsStrings.LowerOfLowerCase` | src/monitor.js:93-95 | a string with no upper-case letter is its own lower-case form |
| `JsStrings.Contains` | src/monitor.js:95 | `includes`: the empty keyword is always found, a prefix is found, and a match needs a keyword no longer than the label |
| `JsStrings.ContainsIffOccurs` | src/monitor.js:95 | the `includes` scan succeeds exactly when the keyword occurs at some index |
| `JsStrings.LowerPreservesContains` | src/monitor.js:93-95 | a keyword found in the raw label is still found after lower-casing both sides |
| `Helpers.Capitalize` | src/helpers.js:8-11 | "" for a non-string; for a non-empty string, a result of the same length, in capitalised form, equal to the input up to case |
| `Helpers.CapitalizeFixesCapitalized` | src/helpers.js:10 | an already capitalised string is returned unchanged |
| `Helpers.CapitalizeIdempotent` | src/helpers.js:10 | capitalising twice equals capitalising once |
| `Helpers.Falsy` | src/helpers.js:43 | an undefined or empty `publishedAt` is falsy, and nothing else is |
| `Helpers.Shape` | src/helpers.js:34-44 | the saved record copies `message_id` and `isOutage`; `publishedAt` is kept when truthy and replaced by today otherwise; no argument gives an undefined id |
| `Helpers.ShapeDropsOtherFields` | src/helpers.js:34-44 | two arguments that agree on the three read fields save the same record, whatever else they carry |
| `Helpers.ShapeOfNoArgument` | src/helpers.js:34 | calling with no argument saves the same record as calling with an object lacking the three fields |
| `Helpers.LoadResult` | src/helpers.js:23-31 | a record is returned exactly when one was written; a missing or unparsable file gives null |
| `Helpers.MessageIdOf` | src/monitor.js:151 | `(last \|\| {}).message_id` is undefined for a null record and the record's id otherwise |
| `Helpers.StoredMessageId` | src/monitor.js:151 | `(loadLastMessage() \|\| {}).message_id` is the written record's id, and undefined when there is no record |
| `Helpers.LoadAfterSave` | src/helpers.js:23-44 | loading right after a save returns exactly the shaped record and its id |
| `Helpers.LastMessageStore.Load` | src/helpers.js:23-32 | returns `LoadResult` of the file: the written record, and null when the file is missing or unparsable |
| `Helpers.LastMessageStore.Save` | src/helpers.js:34-49 | the slot afterwards holds exactly the shaped record |
| `Helpers.LastMessageStore.Delete` | src/helpers.js:51-55 | the slot is empty afterwards and loading gives null |
| `Monitor.HouseOf` | src/monitor.js:81 | `info?.data?.[HOUSE] \|\| {}` is the house entry when present, and an object with every field undefined otherwise |
| `Monitor.SubTypeOrEmpty` | src/monitor.js:92 | `sub_type` with the `= ""` default applied to an undefined value |
| `Monitor.LoweredSubType` | src/monitor.js:93 | the lower-cased label keeps the length, holds no upper-case letter, and is "" for an undefined `sub_type` |
| `Monitor.IsOutage` | src/monitor.js:79-89 | no outage exactly when a house record exists and its four fields are all ""; a missing record is an outage |
| `Monitor.IsScheduled` | src/monitor.js:91-96 | a missing `sub_type` defaults to "" and counts as scheduled |
| `Monitor.IsStabilization` | src/monitor.js:98-103 | a missing `sub_type` is not a stabilisation outage |
| `Monitor.ShouldNotify` | src/monitor.js:182-183 | notifying implies an outage |
| `Monitor.KeywordIsLowerCase` | src/monitor.js:95-102 | each of the four keywords is a fixed point of lower-casing |
| `Monitor.KeywordsAreLowerCase` | src/monitor.js:95-102 | the four keywords are fixed points of lower-casing |
| `Monitor.ScheduledIffNoOccurrence` | src/monitor.js:91-96 | not scheduled exactly when "авар" or "екст" occurs at some index of the lower-cased label |
| `Monitor.StabilizationIffOccurrence` | src/monitor.js:98-103 | stabilisation exactly when "стабілізац" or "графік" occurs at some index of the lower-cased label |
| `Monitor.KeywordMatchIgnoresCase` | src/monitor.js:91-103 | a keyword written in any case in the raw label makes the outage unscheduled, or a stabilisation outage |
| `Monitor.RawKeywordMatches` | src/monitor.js:91-103 | a keyword found in the raw label as the source writes it makes the outage unscheduled, or a stabilisation outage |
| `Monitor.ShouldNotifyIffKeyword` | src/monitor.js:178-183 | `shouldNotify` holds exactly for an outage whose label contains one of the four keywords |
| `Monitor.MissingHouseIsSilent` | src/monitor.js:79-103 | a missing house record is an outage that is scheduled, not stabilisation, and does not notify |
| `Monitor.NullDatesAreOutage` | src/monitor.js:83-88 | an empty label with null dates and no `type` is an outage, and it does not notify |
| `Monitor.TitleTextInjective` | src/monitor.js:114-121 | the four headlines (`TitleText`, the source's strings) are pairwise distinct |
| `Monitor.ContainsAny` | src/monitor.js:120 | true exactly when some keyword of the group occurs in the label |
| `Monitor.FirstMatch` | src/monitor.js:114-122 | the title of the first matching keyword group; the default title when no group matches |
| `Monitor.TitleFor` | src/monitor.js:114-122 | the chosen title is the default one or the title of a rule whose keywords occur; with no rule matching, it is the default |
| `Monitor.TitlePriority` | src/monitor.js:114-122 | "авар" beats "екст", "екст" beats "стабілізац"/"графік", and otherwise the default title; each title holds exactly under its condition |
| `Monitor.ShouldNotifyIffSpecificTitle` | src/monitor.js:114-122 | a cycle notifies exactly when there is an outage whose title is not the default one |
| `Monitor.EmergencyLabelNotifies` | src/monitor.js:112-122 | a label containing the emergency keyword in any case notifies, with the emergency title |
| `Monitor.SelectTitle` | src/monitor.js:112-122 | the if-chain picks the title of the first matching rule |
| `Monitor.RandomDelay` | src/monitor.js:24-28 | the delay always lies in [300000, 600000] ms |
| `Monitor.EveryDelayReachable` | src/monitor.js:24-28 | every delay in [300000, 600000] ms is drawn for some random value in [0, 1) |
| `Monitor.Truthy` | src/monitor.js:155 | an undefined or zero `message_id` is falsy; a truthy one is present |
| `Monitor.EndpointFor` | src/monitor.js:154-156 | `editMessageText` exactly when the stored id is truthy, `sendMessage` otherwise |
| `Monitor.SendNotification` | src/monitor.js:150-171 | the endpoint follows the stored id; the body forwards that id unchanged; the store is then overwritten from the answer's `result` |
| `Monitor.FailedCallForgetsMessage` | src/monitor.js:169-170 | after an answer with no `result`, no id is stored and the next call uses `sendMessage` |
| `Monitor.NextCallEditsAnsweredMessage` | src/monitor.js:151-170 | after an answer naming a truthy id, the next call edits that message |
| `Monitor.Run` | src/monitor.js:175-205 | see the list below |
| `Monitor.RepeatedRecovery` | src/monitor.js:193-203 | two calm cycles after a successful recovery edit each make exactly one recovery edit, the second one of the answered id |

What `Monitor.Run`'s contract says about one cycle:
- It makes at most one transport call.
- When `shouldNotify` holds, it sends the alert with the selected title once and does no re-check.
- It re-checks, after a delay drawn in range, exactly when the first scrape shows no outage and the stored id is truthy.
- After a re-check it sends the recovery message, as an edit, exactly when the re-check shows no outage.
- Otherwise it makes no call and leaves the store unchanged.

## Left out

- Scraping (`getInfo`, src/monitor.js:32-75) is browser and network I/O. Its two results are parameters of `Run`.
- The Telegram HTTP request and `response.json()` are network I/O. The parsed answer is a parameter of `Run`.
- Telegram calls that throw and unparsable answers are not modelled.
- `sleep` and the timer are not modelled; only the delay value is.
- `Math.random` is a parameter in [0, 1). Floating-point rounding of `Math.random() * 300001` is not modelled; real arithmetic is used.
- `getToday` and `getCurrentTime` (src/helpers.js:15-19, 59-73) depend on locale and time zone. Today's date is an input string.
- `src/constants.js` is not part of this model. The house key, the token and the chat id are left out, and the house entry is one field of `Info`.
- The message bodies are outside the model, apart from the title choice. This covers the dates, the timestamps, the emoji lines and `generateRecoveryMessage` (src/monitor.js:124-146), as well as `parse_mode` and `chat_id`.
- Console logging is not modelled.
- File-system mechanics (`existsSync`, `mkdirSync`, `writeFileSync`, `unlinkSync`) are reduced to the three file states. JSON parsing is modelled only as "an unparsable file loads as null".
- Only the field types the monitor meets are modelled:
  - scraped fields can be undefined, `null` or a string;
  - `message_id` is an integer;
  - `isOutage` is a boolean;
  - `publishedAt` is a string.
  A file holding other JSON values is not modelled.
- An answer whose `result` is `null` makes `saveLastMessage` throw. It is not modelled; `result` is either absent or an object.
- `sub_type` equal to `null` makes `toLowerCase` throw. `SubTypeDefined` excludes it on the first scrape, the only one lower-cased. The recheck scrape only goes through `checkIsOutage`, which accepts `null`.
- `Helpers.Capitalize`: an empty string makes `str[0].toUpperCase()` throw, so the model requires a non-empty string.
- `JsStrings.Lower`: case mapping covers ASCII and basic Cyrillic (U+0400-U+045F, U+0490/U+0491) only. Full Unicode case mapping, including mappings that change length, is not modelled.
- `JsStrings.UpperChar` has the same coverage limits as `Lower`.
- Strings are sequences of code points rather than the UTF-16 code units that `str[0]` and `slice` index.
- `deleteLastMessage` and `capitalize` are imported by `src/monitor.js` but never called there. They are modelled on their own.
