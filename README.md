# Prayer-time notifier: a Dafny model

This project models the in-memory core of a chat bot that announces the five
daily Islamic prayers (Fajr, Dhuhr, Asr, Maghrib, Isha). Once a day the bot
fetches the day's prayer times for its default city and country and caches
them. Once a minute it compares the current `HH:MM` with the cached times,
announces each prayer whose time has come, and records the announcement in a
ledger keyed by date and prayer so that no prayer is announced twice on one
date. At `00:00` it drops the ledger keys of the previous day. A
`next-prayer` command scans the cached times for the first one still to come.

The modules follow the parts of `bot.js`:

- `Text`: the JavaScript string operations the bot relies on (`String(n)`, `padStart`, `startsWith`, string `<`).
- `Clock`: the `HH:MM` formatting of the current time, and why string comparison of such texts orders them by time of day.
- `Prayers`: the prayers, a fetched schedule (`Times`), its `Object.entries` order, and the ledger keys `${date}-${prayer}`.
- `CalculationMethods`: the table of method names and its two fallbacks (`Method N`, `Custom`).
- `Notifier`: one tick as functions of the schedule, the ledger and the clock strings, and the at-most-once and pruning properties.
- `Fetch`: how an upstream response becomes a result (`{success, times, date, method}` or `{success: false, error}`).
- `NextPrayer`: the `next-prayer` choice.
- `Bot`: class `PrayerBot`, which holds the shared state `prayerTimes`, `notifiedPrayers` and `lastFetchDate`. Its methods `Tick`, `Fetch` and `FindNextPrayer` are the imperative code, proved against the functions above.

The clock, the HTTP request and the chat channel are parameters. A tick receives three strings: the current `HH:MM`, today's `toDateString()`, and that of 24 hours earlier. A fetch receives the response as a value. Each `sendPrayerNotification(prayer, time)` call is appended to the `sent` sequence of `PrayerBot`.

Three points where the code's behaviour differs from what a reader might expect:

- The method table has 13 entries, ids 1 to 14 without 6. Id 6 gets the fallback labels.
- A failed fetch might be expected to leave the schedule in place. That holds for transport errors, for codes other than 200 and for a missing `data` or `timings`. A code-200 payload for the default location that lacks `date.gregorian` is different: the code replaces the schedule first (line 100) and only then throws while reading the date (line 101). So the fetch reports a failure after the schedule has changed. The model reproduces this.
- A natural reading is that every match of one tick is judged against the ledger as it stood when the tick started. The code instead checks the live set while it inserts keys. `Notifier.KeyNotYetMatched` proves that the two agree, because each prayer appears once in the schedule and distinct prayers have distinct keys.

## Model

| member | source | states |
|---|---|---|
| Text.NatToString | bot.js:127-129 | `String(n)` of a non-negative integer is a non-empty run of decimal digits, without a leading zero unless n is 0, one digit exactly when n < 10 |
| Text.ParseNatToString | bot.js:127-129 | the decimal text of n reads back as n |
| Text.IntToString | bot.js:116 | the text of an integer is non-empty and starts with `-` exactly when the integer is negative |
| Text.IntToStringRoundTrip | bot.js:116 | the text of any integer reads back as that integer |
| Text.PadStart | bot.js:127-129 | `padStart(width, fill)` has length max(width, len), ends with the original text and is filled before it |
| Text.StartsWith | bot.js:146 | `key.startsWith(prefix)`: the prefix is no longer than the key and is its leading part |
| Text.Less | bot.js:293 | JavaScript string `<` compares lexicographically, a proper prefix being smaller; it never holds between equal strings |
| Clock.Pad2 | bot.js:127-129 | `String(n).padStart(2, "0")` for n < 100 is always two digits, and they read back as n |
| Clock.Format | bot.js:127-129 | the current-time text is always five characters, two digits, `:`, two digits, a valid time of day, and reads back as the same hour and minute |
| Clock.FormatOfParsed | bot.js:285-287 | every well-formed `HH:MM` text is the formatting of its own hour and minute, so formatting is a bijection onto such texts |
| Clock.ClockDetermined | bot.js:285-287 | two well-formed `HH:MM` texts with the same hour and minute are the same text |
| Clock.LessIsEarlier | bot.js:293 | on well-formed `HH:MM` texts, string `<` holds exactly when the first is earlier in the day |
| Clock.FormatOrder | bot.js:285-293 | comparing two formatted times as strings orders them by minutes since midnight, in both directions |
| Prayers.Entries | bot.js:90-96 | `Object.entries(prayerTimes)` is empty before the first fetch and otherwise lists Fajr, Dhuhr, Asr, Maghrib, Isha in that order with their cached times |
| Prayers.EntriesDistinct | bot.js:132 | the entries never name a prayer twice, and a cached schedule has an entry for every prayer |
| Prayers.Key | bot.js:133 | the ledger key `${date}-${prayer}` starts with the date and is one character longer than the date and the prayer's name together |
| Prayers.KeyInjective | bot.js:133 | on one date, two ledger keys are equal exactly when the prayers are |
| Prayers.KeyNotOfOtherDate | bot.js:144-146 | a key of one date never starts with a different date string of the same width |
| CalculationMethods.Lookup | bot.js:50-64 | `calculationMethods[id]` is defined exactly for the table's ids and is then the table's name |
| CalculationMethods.FetchLabel | bot.js:113 | the fetch result's label is the table's name for a known id, and otherwise `Method ` followed by the id |
| CalculationMethods.CommandLabel | bot.js:329 | the command label is the table's name for a known id, and it is `Custom` exactly when the id is unknown |
| CalculationMethods.KnownIds | bot.js:50-64 | the table knows exactly the decimal ids 1 to 14 other than 6 |
| CalculationMethods.IdSix | bot.js:113 | id 6 is absent: it is labelled `Method 6` in fetch results and `Custom` in command replies |
| CalculationMethods.UnknownIdLabels | bot.js:113 | an unknown id is labelled `Method <id>` in fetch results, so the id can be read back, and `Custom` in command replies |
| CalculationMethods.LabelsAgreeOnKnownIds | bot.js:329 | for a known id both labellings give the table's name |
| Notifier.Matches | bot.js:132-140 | the notifications of one tick, in schedule order: at most one per entry, each at the current time and for a prayer whose key was absent |
| Notifier.MatchedKeys | bot.js:136-139 | the keys one tick inserts are all new to the ledger and all start with the current date |
| Notifier.Pruned | bot.js:143-149 | the midnight cleanup only removes keys, and keeps every key not starting with yesterday's date string |
| Notifier.AfterTick | bot.js:132-149 | after a tick every key was already in the ledger or belongs to the current date; away from `00:00` no key is lost |
| Notifier.MatchesExactly | bot.js:132-140 | a tick sends (P, T) exactly when T is the current time, an entry schedules P at T, and P's key for today was absent |
| Notifier.MatchedKeysOfMatches | bot.js:136-139 | the keys a tick inserts are exactly the keys of the prayers it sends |
| Notifier.KeyNotYetMatched | bot.js:136-138 | the key of an entry is never inserted earlier in the same scan, so checking the growing set equals checking the set at tick start |
| Notifier.ScanStep | bot.js:132-140 | one iteration of the scan appends entry i's notification and key exactly when it is due against the ledger at the start of the tick |
| Notifier.CountPerTick | bot.js:132-140 | one tick sends each prayer at most once, never one whose key was recorded, and records the key of one it sends |
| Notifier.LedgerChange | bot.js:143-149 | away from `00:00` the ledger only gains the keys sent; at `00:00` it keeps exactly the keys, old or just inserted, that do not start with yesterday's date string |
| Notifier.SentIsRecorded | bot.js:136-149 | after a tick, the key of every prayer it sent is in the ledger |
| Notifier.TodayKeptByTick | bot.js:143-149 | a key of today survives any tick of today |
| Notifier.SecondTickIsIdle | bot.js:125-151 | a second tick with the same time and dates sends nothing and leaves the ledger unchanged |
| Notifier.AtMostOncePerDate | bot.js:125-151 | over any run of ticks on one date, whatever schedules are fetched in between, each prayer is sent at most once, and never if its key was already recorded |
| Notifier.SampleTickAtDhuhr | bot.js:132-140 | with the schedule 05:00, 12:30, 15:45, 18:10, 19:40 a tick at 12:30 sends only Dhuhr |
| Fetch.ApiCodeErrorNamesCode | bot.js:116 | the message `API returned code N` carries N, which reads back from it |
| Fetch.Extract | bot.js:90-96 | the new schedule holds, for each prayer, the `timings` property of that prayer's name, or `undefined` |
| Fetch.ExtractSerialize | bot.js:88-96 | extracting from a `timings` object built from a schedule gives that schedule back |
| Fetch.ExtractIgnoresOthers | bot.js:90-96 | properties of `timings` other than the five prayers' do not affect the schedule |
| Fetch.Decode | bot.js:87-96 | the part of the fetch that builds the schedule; it only succeeds for a code-200 body that has `data` |
| Fetch.DecodeSucceeds | bot.js:87-96 | a response yields a schedule exactly when it is a code-200 body with `data.timings`, and the schedule is extracted from those timings |
| Fetch.Non200Rejected | bot.js:115-117 | a body whose code is not 200 is rejected with `API returned code N` |
| Fetch.GregorianDate | bot.js:101 | reading `date.gregorian.date` succeeds exactly when `date` and `date.gregorian` are present, and yields the gregorian date |
| Fetch.Outcome | bot.js:87-121 | the value `fetchPrayerTimes` resolves to; a success carries the requested location and the decoded times |
| Fetch.OutcomeSucceeds | bot.js:108-114 | a fetch succeeds exactly when the body is code 200 with `timings` and `date.gregorian`; the success carries the extracted times, the requested location, the gregorian date and the method label with its `Method N` fallback |
| Fetch.OutcomeFailures | bot.js:87-120 | a fetch fails exactly on a transport error, a code other than 200, or a code-200 body missing `data`, `timings`, `date` or `date.gregorian`; each case yields its own message: the transport's, `API returned code N`, or the `TypeError` reading `timings`, `Fajr`, `gregorian` or `date` |
| NextPrayer.FirstLater | bot.js:292-298 | the scan stops at the first entry whose time is greater than now, and every entry before it is not |
| NextPrayer.NextOf | bot.js:289-304 | the command's answer is a prayer whose time is later than now, or Fajr; with a cached schedule the time shown is that prayer's cached time |
| NextPrayer.NextIsLaterInDay | bot.js:289-304 | with well-formed times, the next prayer is the first in Fajr..Isha order later in the day than now, or Fajr at today's Fajr time when none is |
| NextPrayer.NextBeforeFirstFetch | bot.js:300-304 | before the first fetch the answer is Fajr with an undefined time |
| NextPrayer.SampleNextPrayer | bot.js:289-304 | with the sample schedule the next prayer at 12:00 is Dhuhr at 12:30, and at 20:00 it is Fajr at 05:00 |
| Bot.PrayerBot.constructor | bot.js:36-38 | the bot starts with no schedule, an empty ledger, no fetch date and nothing sent |
| Bot.PrayerBot.Tick | bot.js:125-151 | a tick appends exactly the due notifications to `sent` and leaves the ledger as `AfterTick` (match scan, then midnight prune) of the old ledger; the schedule is untouched |
| Bot.PrayerBot.Scan | bot.js:132-140 | the loop over `Object.entries`, checking the live set, appends exactly the tick's notifications and inserts exactly the tick's keys |
| Bot.PrayerBot.DropDay | bot.js:143-149 | the `forEach` cleanup loop leaves exactly the keys that do not start with yesterday's date string |
| Bot.PrayerBot.Fetch | bot.js:67-122 | the result is the location-independent outcome; a non-default location or a rejected response leaves schedule and fetch date unchanged; for the default location a decoded payload replaces the schedule by exactly the five extracted times and sets the fetch date to the gregorian date, keeping the old date when reading it fails |
| Bot.PrayerBot.FindNextPrayer | bot.js:284-304 | the loop returns the first entry later than now, or Fajr with the cached Fajr time |

## Left out

- The chat transport is not modelled. That covers login, fetching the channel, building and sending the embed, the 5-second plain-text retry of a failed send, slash-command registration, and every `reply` / `editReply` / `deferReply`, including the command error handler. All of these are calls into the chat library. A send is modelled only as an entry appended to `sent`.
- The HTTP request, its query parameters and its 10-second timeout are not modelled. The request is replaced by a `Response` value; a failed request is `TransportError` with axios's message.
- Timers are not modelled: the per-minute tick interval, the midnight refresh interval, and the single 60-second retry of the first fetch. The event loop only decides when `Tick` and `Fetch` are called.
- `new Date()`, `toDateString()` and the `now - 86400000` computation of yesterday are not modelled, because they depend on the clock and the locale. `Tick` receives the three strings; `Clock.Format` models how the `HH:MM` string is built from the hour and minute.
- Environment loading and the configuration defaults are not modelled: `CITY`, `COUNTRY`, `CALCULATION_METHOD`, `CHANNEL_ID`, the exit on a missing token, and the signal handlers. The default location is a constructor argument; the method id is a parameter.
- The `bot-info` reply is not modelled: the uptime hours and minutes (they come from the floating-point `process.uptime()`) and the `lastFetchDate || "Not fetched yet"` text. The `calculation-methods` list is not rendered; only its lookup is modelled.
- Console logging is not modelled.
- The display names in `prayerNames` and the rendering of the `prayer-times` and `next-prayer` embeds are not modelled. They only decorate values the model already computes.
- Non-string values in `timings` are not modelled: every time is a text. Comparing a number with the current time, as JavaScript would, is outside the model.
- CalculationMethods.Lookup: treats the table as a plain map. In JavaScript `calculationMethods` is an ordinary object, so an id naming an inherited `Object.prototype` member (`toString`, `constructor`, `valueOf`, `hasOwnProperty`, `__proto__` and the like) finds that inherited function or object. Such an id then gets neither `Method N` nor `Custom` as its label.
- CalculationMethods.UnknownIdLabels: holds in JavaScript only for unknown ids that are not such inherited property names, for the reason given under `CalculationMethods.Lookup`.
- Text.Less: compares characters by code point, whereas JavaScript compares UTF-16 code units. The two differ only for characters outside the Basic Multilingual Plane, which do not occur in `HH:MM` texts.
- Fetch.Decode: takes `code` as an integer or absent. `Text.IntToString` prints every integer as plain decimal digits, while JavaScript prints numbers of 10^21 and more in exponent form (`1e+21`), so `API returned code N` differs for such codes. A non-numeric JSON `code` (such as the string `"200"`) is not modelled. `null` and `undefined` payload properties are both modelled as absent, so the `TypeError` text is always the `undefined` form.
- Notifier.SecondTickIsIdle: at `00:00` it assumes that yesterday's date string has the same width as today's and differs from it. Otherwise the prune could remove a key the same tick just inserted.
- Notifier.AtMostOncePerDate: carries the same assumption as `SecondTickIsIdle` for ticks at `00:00`. The code itself promises nothing beyond what the ledger gives.
- NextPrayer.NextIsLaterInDay: reads the string comparison as time-of-day order only for schedules whose five times are well-formed `HH:MM` texts. For other payloads, `NextPrayer.FirstLater` still states the raw string comparison.
