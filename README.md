# Telegram health diary: a Dafny model of the bot's core

The bot asks every registered chat two questions a day. In the morning it
asks how the user feels; in the evening it asks when they had dinner. It
keeps the answers in a SQLite store. This project models the bot's core in
Dafny 4.11 and proves properties of that model. The core is:

- the store (`internal/storage/storage.go`) over the records of
  `internal/models/models.go`;
- the newer update handlers: `handler.go`, `callbacks.go`, `messages.go`
  and `commands.go` under `internal/handlers`;
- the older handlers of `handlers.go` and `texts.go`;
- `SendEvening` of `internal/messages`;
- the one-minute tick of `internal/scheduler`.

Modules, one per file:

| file | module | what it holds |
|---|---|---|
| `text.dfy` | `Text` | The Go string helpers the core uses (`strconv.Itoa`, `%0Nd`, `TrimPrefix`, `Split`, `ToUpper`, `TrimSpace`). |
| `models.dfy` | `Models` | The records, the five session states, the `Outcome` of a handler (`Done`, `Panic` for a Go runtime panic, `Fatal` for `log.Fatal`) and the default settings. |
| `calendar.dfy` | `Calendar` | Unix seconds to civil dates as Go's `time` package computes them, and the `"2006-01-02"` and `"15:04"` layouts. |
| `zones.dfy` | `Zones` | Time-zone resolution: `time.LoadLocation` over a name-to-offset map, the offset regular expression, `parseUserTZ`, `validateTZ`, `tzToLocation` and `gmtString`. |
| `storage.dfy` | `Storage` | Class `DB`: the five tables as maps and every store operation as a method. Its contracts use pure row functions (`WithComplaints`, `WithDinner`, `Stamped`, `WithoutChatTables`, and so on). |
| `telegram.dfy` | `Telegram` | Class `Bot`, whose outbox records every `Send` and `Request`. Message texts are `Say` constructors; keyboards are `Markup` values. |
| `rules.dfy` | `Rules` | The pure decisions of the newer handlers: button payloads, the date key, the `HH:MM` pattern, the morning and evening windows, the set-up gate, the command word and the day keyboard. |
| `worlds.dfy` | `Worlds` | `World` (the store's tables plus the outbox) and `Step` (a world plus an outcome). |
| `handlers.dfy` | `Handlers` | The newer handlers. |
| `handler_facts.dfy` | `HandlerFacts` | Properties of the newer handlers. |
| `legacy.dfy` | `Legacy` | The older handlers. |
| `legacy_facts.dfy` | `LegacyFacts` | Properties of the older handlers. |
| `messages.dfy` | `Messages` | `SendEvening`, `hoursLeft` and the send-then-record step. |
| `scheduler.dfy` | `Scheduler` | The tick. |

Each handler in `Handlers` and `Legacy` works in two layers:

- An **effect function** takes the world before the update and gives the
  `Step` after it.
- A **`Handler` class** holds the `DB` and the `Bot` and carries out the same
  calls in the same order as the Go method. Each of its methods is proved to
  end in its effect function: `Step(Observe(), o) == XEffect(..., old(Observe()))`.

The properties in the `*_facts` files are then proved about the effect
functions.

Some long Go methods are split into several Dafny methods. For example,
`handleConfirmSettings` becomes `HandleConfirmSettings`, `ApplyConfirm`,
`SaveAndAsk`, `SaveState` and `AskAfterSetup`. The calls they make are the
Go method's calls, in its order.

Inputs the handlers cannot see are parameters:

- the current time, `now`, in Unix seconds;
- the server's own zone offset, `serverOffset`, for `time.Now()` without
  `In`;
- the zone database, `zones`;
- the id Telegram gives a sent message, as a `SendResult` or a ghost `mid`;
- whether the database file could be removed, `fileRemoved`.

Where the documented design and the code differ, the model follows the code:

- **The tick's duplicate check.** The tick checks only `HasPending` for the
  key, not `HasPendingOrAnswered` (`internal/scheduler/scheduler.go:64`, `:83`).
  Its date key is the user's local date, not the UTC date
  (`internal/scheduler/scheduler.go:59`).
- **An unknown zone at the last set-up step.** It reaches `utils.LogFor`, which
  calls `log.Fatal`. The process stops; the user is not asked again
  (`internal/handlers/messages.go:59-63`, `internal/utils/utils.go:5-9`).
- **Complaints typed in the newer dialogue.** They are not stored at once.
  The state moves to `confirm_complaints:<key>`, and only the "yes" button
  stores them: the complaints are the text that the confirmation replies to.
- **The session state.** The handlers and the store treat it as one of the
  five strings "notStarted", "initial", "waitingMorning", "waitingEvening"
  and "idle". The model uses those five values. `internal/models/state.go`
  declares a different integer enumeration and is not part of this model.
- **The older and newer handlers.** `handlers.go` and `texts.go` both define
  `HandleText`, and `handlers.go` redeclares names of the newer files, so
  the two generations cannot be built together. The model keeps both in
  separate modules over the same store, and the older `HandleText` once.

## Model

| member | source | states |
|---|---|---|
| Text.Itoa | internal/handlers/handlers.go:96 | `strconv.Itoa` of a natural number gives a non-empty digit string, one digit exactly for numbers below ten |
| Text.ValueOfItoa | internal/handlers/handlers.go:96 | the decimal text of `n` reads back as `n` |
| Text.ZeroPad | internal/handlers/commands.go:197 | `%02d` gives digits, at least the requested width |
| Text.ValueOfZeroPad | internal/handlers/commands.go:197 | the zero-padded text reads back as the number |
| Text.TrimPrefix | internal/handlers/messages.go:74 | with the prefix present the result is what follows it; without it the string is unchanged |
| Text.TrimPrefixRoundTrip | internal/handlers/messages.go:73-74 | a wait state built as prefix plus key starts with the prefix and gives the key back |
| Text.Split | internal/handlers/messages.go:90 | `strings.Split` always returns at least one piece |
| Text.SplitAfter | internal/handlers/messages.go:90 | splitting `a + sep + b`, `a` free of the separator, gives `a` then the pieces of `b` |
| Text.ToUpper | internal/handlers/messages.go:127 | upper-casing keeps the length and maps each character by itself |
| Text.TrimSpace | internal/handlers/messages.go:118 | the result neither starts nor ends with white space |
| Text.TrimSpaceKeeps | internal/handlers/messages.go:118 | trimming a string without outer white space returns it unchanged |
| Calendar.SecondOfDay | internal/scheduler/scheduler.go:58 | the second of the local day is in [0, 86400) and together with the day number rebuilds the time |
| Calendar.HourOf | internal/scheduler/scheduler.go:84 | `now.Hour()` is in [0, 24) and the second of the day lies within that hour |
| Calendar.CivilFromDays | internal/scheduler/scheduler.go:59 | every day number gives a valid calendar date: month 1-12 and a day from 1 to `DaysInMonth` of that year and month, so February 29 only in leap years |
| Calendar.UnixEpochIsNewYear1970 | internal/scheduler/scheduler.go:59 | day 0 is 1970-01-01 |
| Calendar.SecondOfJanuary1970 | internal/scheduler/scheduler.go:59 | day 1 is 1970-01-02 |
| Calendar.MarchDayOfYear | internal/scheduler/scheduler.go:59 | day `doy` of a year counted from March 1 falls in a month 0-11 at a day within that month's length (February taken as 29 days), and only the year's last day is February 29 |
| Calendar.CycleEndIsLeap | internal/scheduler/scheduler.go:59 | the last day of a four-year cycle lies in a Gregorian leap year, including the 400-year end that closes a century |
| Calendar.FormatDate | internal/scheduler/scheduler.go:59 | the `"2006-01-02"` layout: a year of at least four digits, then two-digit month and day joined by '-'; at least ten characters |
| Calendar.DateString | internal/scheduler/scheduler.go:58-59 | the calendar day of a wall time in the `"2006-01-02"` layout, at least ten characters |
| Calendar.ClockString | internal/scheduler/scheduler.go:62 | the `"15:04"` layout: zero-padded hour and minute of the second of the day (its shape and values are proved by `ClockStringShape`) |
| Calendar.ClockStringShape | internal/scheduler/scheduler.go:62 | the `"15:04"` text has five characters, a colon in the middle, and reads back as the hour and minute of the time |
| Calendar.FormatDateIsFullDate | internal/scheduler/scheduler.go:59 | a date of years 0-9999 prints as `YYYY-MM-DD` that reads back as the same year, month and day |
| Calendar.SplitDateKey | internal/storage/storage.go:243-261 | a date key splits on '-' into year, month, day and the pieces of the suffix, and the first three rejoin to the date |
| Zones.LoadLocation | internal/handlers/messages.go:122 | "" and "UTC" resolve to offset 0; any other name, "Local" included, resolves exactly when the zone database has it, to its offset |
| Zones.LocalIsServerZone | internal/handlers/messages.go:117-124 | on a database that maps "Local" to the server's offset, "Local" typed at set-up is accepted as it is and resolves to the server's own offset |
| Zones.TzToLocation | internal/handlers/messages.go:145-160 | `tzToLocation`: a name the database knows gives its offset; otherwise a match of the offset pattern gives the signed hours plus minutes with the hour's sign; anything else does not resolve (its results are proved by `NormalOffsetValue`, `ResolvesParsed` and `GmtTextRoundTrip`) |
| Zones.ParseUserTZ | internal/handlers/messages.go:117-142 | `parseUserTZ`: the trimmed input when it is a known zone name, else `%+03d:MM` of a match of the offset pattern, else an error (proved shape: `ParseUserTZShape`, `ParseUserTZIdempotent`) |
| Zones.ValidateTZ | internal/handlers/messages.go:105-115 | `validateTZ`: the parsed text, provided `tzToLocation` resolves it; otherwise an error (proved equal to `parseUserTZ` by `ValidateAcceptsParsed`) |
| Zones.MatchOffset | internal/handlers/messages.go:103 | a match of the offset pattern has a sign, one or two hour digits and zero or two minute digits |
| Zones.HourValue | internal/handlers/messages.go:139 | the signed hour of a match is in (-100, 100) |
| Zones.SignedHour | internal/handlers/messages.go:141 | `%+03d` of an hour gives a sign and two digits: the sign is '-' exactly for negative hours, and the digits read back as the absolute hour |
| Zones.NormalOffsetMatches | internal/handlers/messages.go:103 | an `±HH:MM` text matches the pattern with its own sign, hour and minute digits and has no outer white space |
| Zones.ParseUserTZShape | internal/handlers/messages.go:117-142 | a successful parse is either the trimmed input, when it names a known zone, or a normalised `±HH:MM` text |
| Zones.ParseUserTZIdempotent | internal/handlers/messages.go:117-142 | parsing a parsed zone text again gives the same text |
| Zones.OffsetTextReparses | internal/handlers/messages.go:135-141 | every `±HH:MM` text the offset branch builds parses to itself |
| Zones.ValidateAcceptsParsed | internal/handlers/messages.go:105-115 | `validateTZ` rejects nothing `parseUserTZ` accepts: the two agree on every input |
| Zones.ResolvesParsed | internal/handlers/messages.go:145-161 | every parsed zone text resolves in `tzToLocation` |
| Zones.NormalOffsetValue | internal/handlers/messages.go:153-160 | `±HH:MM` resolves to the signed hour in seconds plus the minutes carrying the hour's sign, where a zero hour counts as positive |
| Zones.NegativeHalfHourFlips | internal/handlers/messages.go:139-141 | "-0:30" is accepted and stored as "+00:30", which resolves to 30 minutes east: the sign of a zero hour is lost |
| Zones.NegativeHalfHourReadEast | internal/handlers/messages.go:153-160 | read directly, "-0:30" also resolves to 30 minutes east |
| Zones.NegativeHalfHourNormalised | internal/handlers/messages.go:139-141 | "-0:30" normalises to "+00:30" |
| Zones.PrefixCaseIgnored | internal/handlers/messages.go:149 | "gmt…" and "GMT…" resolve alike |
| Zones.GmtString | internal/handlers/commands.go:177-198 | the display always starts with "GMT" and is exactly "GMT" for a zone that does not resolve |
| Zones.GmtTextRoundTrip | internal/handlers/commands.go:187-197 | the display text of a whole-minute offset that is not between -1 h and 0 resolves back to the same offset |
| Zones.GmtHourReadBack | internal/handlers/commands.go:195 | "GMT±H" resolves to ±H hours |
| Zones.GmtHourMinuteReadBack | internal/handlers/commands.go:197 | "GMT±HH:MM" resolves to ±(HH hours + MM minutes) |
| Storage.DayRecordOf | internal/storage/storage.go:155-173 | a record is returned exactly when the row exists and its complaints are not NULL, and it carries that row's fields |
| Storage.WithComplaints | internal/storage/storage.go:139-145 | the upsert sets the complaints of (chat, day), keeps the row's dinner time (or the column default for a new row), and leaves every other row |
| Storage.WithDinner | internal/storage/storage.go:147-153 | the upsert sets the dinner time of (chat, day), keeps its complaints (or the default), and leaves every other row |
| Storage.AnsweredDateKey | internal/storage/storage.go:243-261 | a morning key is answered exactly when the date's record has non-empty complaints; an evening key exactly when it has a dinner time |
| Storage.Answered | internal/storage/storage.go:243-261 | `HasAnswered` on the rows: fewer than four '-' pieces, no readable record or another fourth piece mean false; "morning" reads non-empty complaints and "evening" a set dinner time (its cases are proved by `AnsweredDateKey`, `ShortKeyNotAnswered` and `NoComplaintsNotAnswered`) |
| Storage.DueRows | internal/storage/storage.go:198-204 | the chat's pending rows whose `reminded_at` is more than 1200 seconds before now (a touched row leaves it: `TouchedNotDue`) |
| Storage.MorningAnswered | internal/storage/storage.go:243-261 | the morning key of a date is answered exactly when that date's complaints are non-empty |
| Storage.ShortKeyNotAnswered | internal/storage/storage.go:248-251 | a key with fewer than four '-' pieces is never answered |
| Storage.NoComplaintsNotAnswered | internal/storage/storage.go:139-145 | "no complaints", stored as empty complaints, leaves the morning question unanswered for `HasAnswered` |
| Storage.DinnerAnswersEvening | internal/storage/storage.go:147-153 | setting a date's dinner answers that date's evening key, provided the row's complaints can be read |
| Storage.Stamped | internal/storage/storage.go:178-194 | an inserted row keeps chat, key, type and message id, gets the table's id, and a zero created_at or reminded_at becomes now |
| Storage.StampedTimes | internal/storage/storage.go:181-186 | a row inserted with both times zero has reminded_at equal to created_at, and neither is zero when now is not |
| Storage.Touched | internal/storage/storage.go:225-229 | exactly the row with the id gets reminded_at = now; no row is added or removed |
| Storage.TouchedNotDue | internal/storage/storage.go:198-229 | a row just touched is not listed for a reminder again within twenty minutes |
| Storage.WithoutChatTables | internal/storage/storage.go:28-52 | after clearing, no table holds a row of the chat |
| Storage.WithoutChatKeepsOthers | internal/storage/storage.go:28-52 | clearing one chat keeps every row of every other chat |
| Storage.DB.constructor | internal/storage/storage.go:54-63 | a new store has empty tables |
| Storage.DB.GetUser | internal/storage/storage.go:87-100 | the user row of the chat, or none (the nil user) when there is no row |
| Storage.DB.GetUserState | internal/storage/storage.go:128-135 | the chat's wait state, "" when it has none |
| Storage.DB.GetSessionState | internal/storage/storage.go:277-287 | the chat's session state, notStarted when it has none |
| Storage.DB.GetDayRecord | internal/storage/storage.go:155-173 | the record of (chat, day) as `DayRecordOf` reads it: none without a row or with NULL complaints |
| Storage.DB.HasPending | internal/storage/storage.go:236-240 | true exactly when the pending table has a row for (chat, key) |
| Storage.DB.HasAnswered | internal/storage/storage.go:243-261 | `Answered` of the stored day records for the chat and key |
| Storage.DB.HasPendingOrAnswered | internal/storage/storage.go:263-265 | true exactly when the key is pending or answered |
| Storage.DB.UpsertUser | internal/storage/storage.go:76-85 | inserts the user, or updates tz and both times and keeps created_at; nothing else changes |
| Storage.DB.ListUsers | internal/storage/storage.go:102-117 | every stored user exactly once, each as stored |
| Storage.DB.SetUserState | internal/storage/storage.go:121-126 | the chat's wait state becomes the given text; nothing else changes |
| Storage.DB.UpsertDayRecord | internal/storage/storage.go:139-145 | the day records become `WithComplaints` of the old ones; nothing else changes |
| Storage.DB.SetDinner | internal/storage/storage.go:147-153 | the day records become `WithDinner` of the old ones; nothing else changes |
| Storage.DB.InsertPending | internal/storage/storage.go:178-194 | the (chat, key) row becomes the stamped message with a fresh id, and the key is pending afterwards |
| Storage.DB.ListPendingForReminder | internal/storage/storage.go:198-222 | exactly the chat's rows whose last reminder is more than twenty minutes old, each key once |
| Storage.DB.TouchReminder | internal/storage/storage.go:225-229 | the pending rows become `Touched` of the old ones |
| Storage.DB.DeletePending | internal/storage/storage.go:231-234 | the (chat, key) row is removed and the key is no longer pending; nothing else changes |
| Storage.DB.SetSessionState | internal/storage/storage.go:268-275 | the chat's session state becomes the given one; nothing else changes |
| Storage.DB.DeleteChatFrom | internal/storage/storage.go:42-49 | one table loses the chat's rows; the other tables are unchanged |
| Storage.DB.ClearData | internal/storage/storage.go:28-52 | all five tables lose the chat's rows and nothing else; afterwards the chat has no user, no wait state and session notStarted |
| Storage.DB.DropAll | internal/storage/storage.go:22-25 | when the file is removed every table is empty for the next start; when the removal fails every row stays |
| Telegram.Bot.Send | internal/handlers/commands.go:142-144 | the message joins the outbox whether or not Telegram accepts it; an accepted one has a positive id |
| Telegram.Bot.Request | internal/handlers/callbacks.go:43 | the callback answer or markup edit joins the outbox |
| Rules.OwnButtonsDispatch | internal/handlers/callbacks.go:37-59 | every payload of the dinner, /settings and /start keyboards reaches a branch of `HandleCallback` |
| Rules.Dispatch | internal/handlers/callbacks.go:45-58 | the branch of `HandleCallback` a payload selects: confirm, change, ate now, ate at, yes, cancel, or none (which payloads reach which branch: `OwnButtonsDispatch`, `ConfirmButtonsIgnored`, `MorningButtonsIgnored`) |
| Rules.ConfirmButtonsIgnored | internal/handlers/callbacks.go:13-27 | the two buttons of the complaints confirmation carry payloads `HandleCallback` has no branch for |
| Rules.MorningButtonsIgnored | internal/scheduler/scheduler.go:18-23 | the scheduler's morning buttons carry payloads the newer `HandleCallback` has no branch for |
| Rules.DateKeyDay | internal/handlers/callbacks.go:239-252 | the first ten characters of a callback's date key are the message's UTC date, and the dinner buttons give the evening key |
| Rules.ExtractDateKey | internal/handlers/callbacks.go:239-252 | `extractDateKey`: the UTC date of the message, then "-evening" for the dinner payloads and "-morning" for every other; at least ten characters |
| Rules.ParseClockMatchesPattern | internal/handlers/messages.go:17 | a text parses as a clock time exactly when it matches `^\d{1,2}:\d{2}$` with hour below 24 and minute below 60, and gives that hour and minute |
| Rules.TimeRx | internal/handlers/messages.go:17 | `^\d{1,2}:\d{2}$`: one or two digits, ':' and two digits, with no bound on the values |
| Rules.ParseClock | internal/handlers/callbacks.go:216-217 | `time.ParseInLocation("15:04", …)` as hour and minute: one or two hour digits below 24, ':', two minute digits below 60, nothing more |
| Rules.ParseClockString | internal/handlers/callbacks.go:216-220 | the `"15:04"` text of any time parses back as its hour and minute |
| Rules.WindowStart | internal/handlers/callbacks.go:216-222 | the second of the local day a window starts at, below 86400; a text the clock layout rejects counts as midnight |
| Rules.InWindow | internal/handlers/callbacks.go:224-227 | the half-open interval [start, start + 2 h) on the same local day |
| Rules.PatternWiderThanClock | internal/handlers/messages.go:35 | "25:99" passes the set-up pattern though it names no clock time; "9:5" does not pass |
| Rules.CalcCurrentState | internal/handlers/callbacks.go:209-237 | notStarted exactly without a user, a panic exactly for a user whose zone does not resolve, and never initial |
| Rules.CurrentStateWindows | internal/handlers/callbacks.go:209-237 | waitingMorning exactly inside the two-hour morning window, waitingEvening inside the evening window but not the morning one, idle otherwise |
| Rules.WindowStopsAtMidnight | internal/handlers/callbacks.go:216-236 | a window does not run past local midnight: with the morning at 23:30, 00:30 is not in it |
| Rules.CommandWord | internal/handlers/commands.go:27 | the command word is the longest run of command characters at the front |
| Rules.CommandOf | internal/handlers/commands.go:27 | "/name", "/name args" and "/name@bot" are commands whose word is "name" |
| Rules.IsCommand | internal/handlers/messages.go:20 | a message is a command when it starts with '/' and a command character |
| Rules.Command | internal/handlers/commands.go:27 | the command word after '/', without arguments or "@bot"; "" for a non-command (proved by `CommandOf`) |
| Rules.SetupGate | internal/handlers/commands.go:166-175 | a running session passes every command; before that exactly start, help and current_state pass |
| Rules.ValidateInitialState | internal/handlers/commands.go:166-175 | `validateInitialState`: false exactly when the session is notStarted or initial and the command is not start, help or current_state (`SetupGate`) |
| Rules.MenuTextsAreNotCommands | internal/handlers/commands.go:56-71 | none of the main-menu texts is a command, so the menu branch of `HandleCommand` is never reached by them |
| Rules.DayKeyboardShape | internal/handlers/handler.go:69-93 | the keyboard is empty exactly before the session runs, otherwise one row of two labels, none of them a command or a menu text |
| Rules.BuildDayKeyboard | internal/handlers/handler.go:69-93 | a reply keyboard of at most one row: yesterday's dinner and today's status while waiting for the morning or idle, dinner and the previous morning while waiting for the evening, empty otherwise |
| Rules.HoursLeftToday | internal/scheduler/scheduler.go:84 | `23 - hour` is in [0, 23] |
| Rules.TypedDinner | internal/handlers/messages.go:90-94 | the typed dinner time is the server's current day plus the typed hour and minute |
| Rules.TypedDinnerSameDay | internal/handlers/messages.go:90-94 | a valid typed time lands on the server's current day at that hour and minute |
| Messages.TruncDiv | internal/messages/messages.go:46 | Go's conversion of the quotient truncates toward zero |
| Messages.HoursLeft | internal/messages/messages.go:42-47 | defined exactly for zones `time.LoadLocation` knows; then in [0, 23] |
| Messages.HoursLeftCounts | internal/messages/messages.go:42-47 | the whole hours from the local time to 23:00 of the local day, and 0 after 23:00 |
| Messages.OffsetZoneBreaksHoursLeft | internal/messages/messages.go:42-47 | a normalised offset zone that set-up accepts still resolves, but `hoursLeft` has no location for it |
| Messages.AskRecords | internal/messages/messages.go:28-39 | the question always goes out; a failed send is fatal and records nothing; otherwise the key is pending with the sent message's id, created now, under a fresh id |
| Messages.AskEffect | internal/messages/messages.go:28-39 | the question is sent; a failed send is fatal and records nothing; otherwise a pending row under the key with the sent id, created now, and the id counter advanced |
| Messages.EveningEffect | internal/messages/messages.go:18-40 | `hoursLeft` first: a zone `LoadLocation` does not know panics before anything is sent; otherwise the dinner question with the hours left, as `AskEffect` |
| Messages.SendEvening | internal/messages/messages.go:18-40 | the store and the bot end as `EveningEffect`: a zone unknown to `LoadLocation` panics before sending |
| Messages.Ask | internal/messages/messages.go:28-39 | the store and the bot end as `AskEffect` |
| Scheduler.LocalTime | internal/scheduler/scheduler.go:53-58 | defined exactly for zones that resolve, as now shifted by the zone's offset |
| Scheduler.LocalUserOnServerClock | internal/scheduler/scheduler.go:53-58 | on a database that maps "Local" to the server's offset, a user stored with zone "Local" is ticked on the server's own clock |
| Scheduler.Fire | internal/scheduler/scheduler.go:64-77 | one question: sent with its failure ignored, inserted as pending under the key with the sent id (0 on failure) and created now, and the session set |
| Scheduler.MorningTick | internal/scheduler/scheduler.go:61-78 | the morning question fires exactly when the local clock text equals the morning time and the morning key of the local date is not pending |
| Scheduler.EveningTick | internal/scheduler/scheduler.go:80-99 | the evening question, with `23 - hour` hours left, fires exactly when the clock text equals the evening time and the evening key is not pending |
| Scheduler.TickAt | internal/scheduler/scheduler.go:61-99 | the morning half, then the evening half on the state it leaves |
| Scheduler.TickUser | internal/scheduler/scheduler.go:52-99 | a user whose zone does not resolve is skipped; otherwise both halves at the local date and clock |
| Scheduler.TickIn | internal/scheduler/scheduler.go:53-99 | no local time: nothing; otherwise `TickAt` with the local date, the `"15:04"` text and the hours left |
| Scheduler.TickAll | internal/scheduler/scheduler.go:41-100 | every listed user's tick in list order, each on the state the previous one left (properties: `TickAllKeepsAnswers`, `TickAllSkipsOthers`, `MorningOncePerDay`) |
| Scheduler.TickUserOwnChat | internal/scheduler/scheduler.go:48-99 | a user's tick only adds pending rows for that chat, sets that chat's session, appends messages to it, and uses at most two ids |
| Scheduler.TickAtIdempotent | internal/scheduler/scheduler.go:61-99 | a second tick at the same local date and clock changes nothing, whatever the sends return |
| Scheduler.TickUserIdempotent | internal/scheduler/scheduler.go:48-99 | a second tick of the same user at the same moment changes nothing |
| Scheduler.TickAtMorningOnce | internal/scheduler/scheduler.go:61-78 | after a morning question for a date, a later tick on the same date does not ask again and keeps the pending row |
| Scheduler.MorningOncePerDay | internal/scheduler/scheduler.go:58-78 | once the morning question of a local date has gone out, no later tick on the same local date asks again |
| Scheduler.OnlyClockTimesMatch | internal/scheduler/scheduler.go:62 | only a well-formed `HH:MM` with hour below 24 and minute below 60 can equal the clock text |
| Scheduler.UnmatchedTimesNeverFire | internal/scheduler/scheduler.go:62-81 | a user whose times are not five characters long never gets a question |
| Scheduler.TickAllKeepsAnswers | internal/scheduler/scheduler.go:41-100 | the tick keeps users, wait states and day records and never removes or rewrites a pending row |
| Scheduler.TickAllSkipsOthers | internal/scheduler/scheduler.go:41-100 | a chat that is not among the listed users gets no message, no pending row and keeps its session |
| Scheduler.TickAllSnoc | internal/scheduler/scheduler.go:48-99 | the users are ticked one after the other in query order |
| Scheduler.TickKeepsUsers | internal/scheduler/scheduler.go:48-99 | a user's tick leaves the users table as it was |
| Scheduler.Tick | internal/scheduler/scheduler.go:41-100 | the store and the bot end as `TickAll` over the users as listed: each stored user exactly once, each exactly as stored |
| Scheduler.TickUsers | internal/scheduler/scheduler.go:48-99 | the loop over the users ends as `TickAll` over them |
| Scheduler.TickOne | internal/scheduler/scheduler.go:52-99 | one user's tick ends as `TickUser` |
| Scheduler.TickLocal | internal/scheduler/scheduler.go:61-99 | both questions at a local date and clock end as `TickAt` |
| Scheduler.AskAndWait | internal/scheduler/scheduler.go:64-77 | a question sent with its failure ignored, recorded as pending and the session set, as `Fire` |
| Handlers.Handler.constructor | internal/handlers/handler.go:95-97 | the handler holds the given store and bot, on a zone database whose "Local" is the server's own zone |
| Handlers.YesEffect | internal/handlers/callbacks.go:61-73 | no reply or a key under ten characters panics with nothing changed; otherwise the replied text stored as the complaints of the key's date, the key closed, the session idle, the wait cleared, the idle keyboard and thanks sent |
| Handlers.CancelEffect | internal/handlers/callbacks.go:75-81 | the wait state goes back to "wait_complaints:" with the same key and the user is asked again |
| Handlers.ChangeSettingsEffect | internal/handlers/callbacks.go:190-193 | the wait state becomes "setup_morning" and the morning time is asked |
| Handlers.AteNowEffect | internal/handlers/callbacks.go:195-201 | a key under ten characters panics; otherwise dinner now under the key's date, the key closed, the session idle and the idle keyboard sent |
| Handlers.AteAtEffect | internal/handlers/callbacks.go:203-206 | the wait state becomes "wait_dinner:" with the key and a time is asked |
| Handlers.AskTables | internal/handlers/callbacks.go:98-127 | inside a window the window's question is pending under the UTC date with its sent id; outside nothing is added |
| Handlers.AskMessages | internal/handlers/callbacks.go:98-127 | the morning call, or the dinner call with `23 - hour` of the server's clock, or nothing outside a window |
| Handlers.ConfirmEffect | internal/handlers/callbacks.go:88-130 | a zone that does not resolve panics first; otherwise `ConfirmWith` for the state of the current window (`ConfirmOutcome`, `ConfirmAsksWindowQuestion`) |
| Handlers.ConfirmWith | internal/handlers/callbacks.go:91-129 | the session takes the state, the keyboard and "saved" note go out, the window's question is asked and recorded; a missing user panics in the closing debug report |
| Handlers.CallbackEffect | internal/handlers/callbacks.go:37-59 | the query answered first, then the branch `Dispatch` picks, with the date key of the message the button is under (`CallbackAcksFirst`) |
| Handlers.SetupTimeEffect | internal/handlers/messages.go:34-54 | a text the time pattern rejects is refused and changes nothing; otherwise the morning or evening time stored and the next set-up step asked (`SetupTimesAdvance`) |
| Handlers.SetupZoneEffect | internal/handlers/messages.go:56-71 | an unknown zone is fatal with nothing changed; otherwise the zone stored, the wait cleared and the settings confirmed (`TzSetupConfirms`, `TzSetupUnknownIsFatal`) |
| Handlers.ComplaintsTextEffect | internal/handlers/messages.go:73-83 | the complaints are not stored: the wait moves to "confirm_complaints:" with the key and yes/cancel is asked in a reply to the text (`ComplaintCycle`) |
| Handlers.DinnerTextEffect | internal/handlers/messages.go:85-99 | a text the time pattern rejects is refused; otherwise the time on the server's day stored under the key's date, the key closed and the wait cleared (`DinnerTextStored`, `DinnerTextRefused`) |
| Handlers.TextEffect | internal/handlers/messages.go:27-101 | the chat's wait state picks the branch; no wait state or an unknown one changes nothing (`IdleTextIgnored`) |
| Handlers.StartEffect | internal/handlers/commands.go:75-96 | the user is ensured; a running session is only reported, otherwise it becomes initial and the settings go out with confirm/change (`StartIdempotent`, `StartKeepsRunningSession`) |
| Handlers.CurrentStateEffect | internal/handlers/commands.go:113-119 | the user is ensured; a zone that does not resolve panics, otherwise the current window's state is reported |
| Handlers.SettingsEffect | internal/handlers/commands.go:121-140 | a chat without a user panics; otherwise the settings with change/cancel buttons |
| Handlers.MenuEffect | internal/handlers/commands.go:56-71 | each menu text: the statistics placeholder, a set-up step, or clearing this chat's data; any other text nothing (`MenuClearOnlyThisChat`) |
| Handlers.CommandEffect | internal/handlers/commands.go:25-73 | reset_all drops the store only when the file is removed and reports either way; then the set-up gate, then the command's branch (`ResetAllDropsOnRemoval`, `GateBlocksUntilConfirmed`) |
| Handlers.MessageEffect | internal/handlers/messages.go:19-25 | commands go to `CommandEffect`, all other text to `TextEffect` |
| Handlers.Handler.SendPlain | internal/handlers/commands.go:142-144 | a plain message joins the outbox |
| Handlers.Handler.PushDayKeyboard | internal/handlers/handler.go:59-67 | the day keyboard of the stored session state joins the outbox |
| Handlers.Handler.CloseQuestion | internal/handlers/callbacks.go:66-67 | the key's pending row is deleted and the session goes idle |
| Handlers.Handler.HandleYes | internal/handlers/callbacks.go:61-73 | the store and the bot end as `YesEffect` |
| Handlers.Handler.HandleCancel | internal/handlers/callbacks.go:75-81 | ends as `CancelEffect` |
| Handlers.Handler.AskSetupQuestion | internal/handlers/callbacks.go:99-111 | the question is sent and recorded as pending under the UTC date with the sent message's id |
| Handlers.Handler.AskAfterSetup | internal/handlers/callbacks.go:99-126 | inside a window the window's question is sent and recorded, outside nothing happens |
| Handlers.Handler.HandleConfirmSettings | internal/handlers/callbacks.go:88-130 | ends as `ConfirmEffect` |
| Handlers.Handler.SaveState | internal/handlers/callbacks.go:91-96 | the session takes the computed state and the day keyboard and "saved" note are sent |
| Handlers.Handler.SaveAndAsk | internal/handlers/callbacks.go:91-127 | the state is saved and, inside a window, the question asked |
| Handlers.Handler.ApplyConfirm | internal/handlers/callbacks.go:91-129 | ends as `ConfirmWith` for the computed state |
| Handlers.Handler.HandleChangeSettings | internal/handlers/callbacks.go:190-193 | ends as `ChangeSettingsEffect` |
| Handlers.Handler.HandleAteNow | internal/handlers/callbacks.go:195-201 | ends as `AteNowEffect` |
| Handlers.Handler.HandleAteAt | internal/handlers/callbacks.go:203-206 | ends as `AteAtEffect` |
| Handlers.Handler.HandleCallback | internal/handlers/callbacks.go:37-59 | ends as `CallbackEffect` |
| Handlers.Handler.HandleText | internal/handlers/messages.go:27-101 | ends as `TextEffect` |
| Handlers.Handler.SetupTime | internal/handlers/messages.go:34-54 | ends as `SetupTimeEffect` |
| Handlers.Handler.SetupZone | internal/handlers/messages.go:56-71 | ends as `SetupZoneEffect` |
| Handlers.Handler.ComplaintsText | internal/handlers/messages.go:73-83 | ends as `ComplaintsTextEffect` |
| Handlers.Handler.SaveDinner | internal/handlers/messages.go:96-99 | the dinner stored under the key's date, the question closed, the wait state cleared and the chat told |
| Handlers.Handler.DinnerText | internal/handlers/messages.go:85-99 | ends as `DinnerTextEffect` |
| Handlers.Handler.EnsureUserRow | internal/handlers/commands.go:99-111 | a chat without a user gets the default user; an existing one is kept |
| Handlers.Handler.AskConfirmDefaults | internal/handlers/commands.go:146-164 | a chat without a user panics and sends nothing; otherwise its settings go out with confirm and change buttons |
| Handlers.Handler.HandleStart | internal/handlers/commands.go:75-96 | ends as `StartEffect` |
| Handlers.Handler.HandleCurrentState | internal/handlers/commands.go:113-119 | ends as `CurrentStateEffect` |
| Handlers.Handler.HandleSettings | internal/handlers/commands.go:121-140 | ends as `SettingsEffect` |
| Handlers.Handler.HandleMenu | internal/handlers/commands.go:56-71 | ends as `MenuEffect` |
| Handlers.Handler.HandleCommand | internal/handlers/commands.go:25-73 | ends as `CommandEffect` |
| Handlers.Handler.HandleMessage | internal/handlers/messages.go:19-25 | ends as `MessageEffect` |
| HandlerFacts.CallbackAcksFirst | internal/handlers/callbacks.go:43 | every pressed button is answered first, whatever the payload and however its branch ends |
| HandlerFacts.ConfirmAppends | internal/handlers/callbacks.go:88-130 | confirming the settings only appends to the outbox |
| HandlerFacts.ConfirmOutcome | internal/handlers/callbacks.go:88-130 | confirming panics exactly when the user is missing or its zone does not resolve; an unresolved zone changes nothing; otherwise the session takes the computed state, never initial |
| HandlerFacts.ConfirmAsksWindowQuestion | internal/handlers/callbacks.go:99-126 | inside the morning window the morning question of the UTC date is pending afterwards and asked; likewise the evening; idle asks nothing |
| HandlerFacts.ComplaintCycle | internal/handlers/messages.go:73-83 | typed complaints move the state to confirmation with a reply carrying yes/cancel, and cancel restores the waiting tables |
| HandlerFacts.YesStoresComplaints | internal/handlers/callbacks.go:61-73 | "yes" stores the replied-to text as the day's complaints, closes the key, sets the session idle and clears the wait state |
| HandlerFacts.YesAnswersMorning | internal/handlers/callbacks.go:61-73 | confirmed complaints answer the morning question exactly when they are non-empty |
| HandlerFacts.CancelFromSettingsPanicsLater | internal/handlers/callbacks.go:75-81 | the shared "cancel" button pressed under /settings leaves an empty key that panics a later "yes" |
| HandlerFacts.AteNowAnswersEvening | internal/handlers/callbacks.go:195-201 | "ate now" answers the date's evening question and closes it, provided the row's complaints can be read |
| HandlerFacts.AteNowWithoutRecordStaysOpen | internal/handlers/callbacks.go:195-201 | on a new row whose complaints column defaults to NULL, the dinner is stored but `HasAnswered` still says no |
| HandlerFacts.IdleTextIgnored | internal/handlers/messages.go:29-32 | without a wait state a text changes nothing and sends nothing |
| HandlerFacts.DinnerTextStored | internal/handlers/messages.go:85-99 | a typed dinner time is stored as that clock time on the server's day under the key's date, and closes the key |
| HandlerFacts.DinnerTextRefused | internal/handlers/messages.go:86-89 | a dinner time that does not match the pattern is refused and the wait state stays |
| HandlerFacts.SetupTimesAdvance | internal/handlers/messages.go:34-54 | an accepted morning (evening) time is stored on the user and moves the state to the evening time (the zone) |
| HandlerFacts.TzSetupConfirms | internal/handlers/messages.go:56-71 | an accepted zone is stored, the wait state cleared and the settings confirmed into a running session without a panic |
| HandlerFacts.LocalSetupConfirms | internal/handlers/messages.go:56-71 | "Local" typed at the last set-up step is stored as "Local", resolves to the server's offset, and the settings are confirmed |
| HandlerFacts.TzSetupUnknownIsFatal | internal/handlers/messages.go:57-63 | an unknown zone at the last set-up step stops the process and changes nothing |
| HandlerFacts.StartIdempotent | internal/handlers/commands.go:75-96 | /start twice leaves the tables as /start once |
| HandlerFacts.StartKeepsRunningSession | internal/handlers/commands.go:82-90 | /start on a running session only reports it |
| HandlerFacts.ResetAllDropsOnRemoval | internal/handlers/commands.go:30-36 | /reset_all, for any sender and any session state and before the set-up gate, empties every table when the file is removed, keeps every row when the removal fails, and reports which |
| HandlerFacts.GateBlocksUntilConfirmed | internal/handlers/commands.go:38-43 | in the initial session every other command only gets the "confirm first" note |
| HandlerFacts.MenuClearOnlyThisChat | internal/handlers/commands.go:68-70 | the "clear data" text removes every row of the chat and no row of any other chat |
| Legacy.PrefixDateKey | internal/handlers/handlers.go:172-178 | the key is the message's UTC date plus an eight-character period suffix |
| Legacy.PrefixDateKeyPeriod | internal/handlers/handlers.go:172-178 | the key is the morning one exactly for payloads starting with "Жалоб" or "chg:", so "Нет жалоб" gets the evening key |
| Legacy.StartEffect | internal/handlers/handlers.go:40-69 | a chat without a user gets the default user; the main menu always goes out (`StartCreatesOnlyWhenAbsent`) |
| Legacy.MorningEffect | internal/handlers/handlers.go:72-92 | the morning question with "Жалобы / Нет жалоб", as `AskEffect`: a failed send stops the process |
| Legacy.NoComplaintsEffect | internal/handlers/handlers.go:148-152 | empty complaints for the key's date, the key closed, the query answered (`NoComplaintsClosesEveningKey`) |
| Legacy.MorningButtonEffect | internal/handlers/handlers.go:132-152 | a day with complaints only gets its keyboard swapped for change/cancel; otherwise "Жалобы" waits for text and "Нет жалоб" stores empty complaints (`AnsweredDaySwapsKeyboard`, `ComplaintsButtonWaits`) |
| Legacy.AteNowEffect | internal/handlers/handlers.go:154-158 | dinner now under the key's date, the key closed, the query answered |
| Legacy.CallbackEffect | internal/handlers/handlers.go:126-170 | the payload picks the branch; every branch but the keyboard swap answers the query at the end (`AteAtButtonWaits`) |
| Legacy.ComplaintsTextEffect | internal/handlers/handlers.go:189-193 | a key under ten characters panics; otherwise the text stored as the complaints of the key's date, the key closed, the wait cleared (`ComplaintsKeyStored`) |
| Legacy.DinnerTimeEffect | internal/handlers/handlers.go:194-207 | a text the time pattern rejects gets the hint and keeps the wait; otherwise the time on the server's day stored, the key closed, the wait cleared (`DinnerKeyStored`, `BadDinnerTimeKeepsWaiting`) |
| Legacy.TextEffect | internal/handlers/handlers.go:181-210 | the wait state picks the branch; any other non-empty state is cleared with nothing sent (`TextClearsWaitState`, `ForeignStateCleared`) |
| Legacy.Handler.constructor | internal/handlers/handlers.go:34-37 | the handler holds the given store and bot, on a zone database whose "Local" is the server's own zone |
| Legacy.Handler.HandleStart | internal/handlers/handlers.go:40-69 | ends as `StartEffect` |
| Legacy.Handler.SendMorning | internal/handlers/handlers.go:72-92 | ends as `MorningEffect` |
| Legacy.Handler.SendEvening | internal/handlers/handlers.go:94-116 | ends as `EveningEffect` |
| Legacy.Handler.HandleCallback | internal/handlers/handlers.go:126-170 | ends as `CallbackEffect` |
| Legacy.Handler.AteNow | internal/handlers/handlers.go:154-158 | ends as `AteNowEffect` |
| Legacy.Handler.MorningButton | internal/handlers/handlers.go:132-152 | ends as `MorningButtonEffect` |
| Legacy.Handler.NoComplaints | internal/handlers/handlers.go:148-152 | ends as `NoComplaintsEffect` |
| Legacy.Handler.HandleText | internal/handlers/handlers.go:181-210 | ends as `TextEffect` |
| Legacy.Handler.ComplaintsText | internal/handlers/handlers.go:189-193 | ends as `ComplaintsTextEffect` |
| Legacy.Handler.DinnerTimeText | internal/handlers/handlers.go:194-207 | ends as `DinnerTimeEffect` |
| Legacy.Handler.StoreDinner | internal/handlers/handlers.go:203-207 | the dinner stored under the key's date, the question closed, the chat thanked and the wait state cleared |
| LegacyFacts.StartCreatesOnlyWhenAbsent | internal/handlers/handlers.go:40-69 | /start creates the default user only when the chat has none and always shows the main menu |
| LegacyFacts.AnsweredDaySwapsKeyboard | internal/handlers/handlers.go:133-143 | on a day that has complaints, the morning buttons only swap the keyboard for change/cancel, and the query stays unanswered |
| LegacyFacts.NoComplaintsClosesEveningKey | internal/handlers/handlers.go:148-152 | "Нет жалоб" stores empty complaints and closes the date's evening key, while the morning question stays pending and unanswered |
| LegacyFacts.ComplaintsButtonWaits | internal/handlers/handlers.go:145-147 | "Жалобы" waits for complaints under the date's morning key and answers the query |
| LegacyFacts.ComplaintsKeyStored | internal/handlers/texts.go:19-23 | typed complaints are stored for the key's date, the key closed and the wait state cleared |
| LegacyFacts.ComplaintsTextStored | internal/handlers/handlers.go:189-193 | complaints typed for a morning key are stored and answer that morning exactly when non-empty |
| LegacyFacts.ComplaintsDialogue | internal/handlers/handlers.go:145-193 | the button then the text: the complaints end up stored and the morning key closed |
| LegacyFacts.AteAtButtonWaits | internal/handlers/handlers.go:160-162 | "Поел в …" waits for a dinner time under the date's evening key and answers the query |
| LegacyFacts.DinnerKeyStored | internal/handlers/handlers.go:194-207 | a typed dinner time is stored on the server's day under the key's date, the key closed and the wait state cleared |
| LegacyFacts.DinnerTimeDialogue | internal/handlers/handlers.go:160-207 | the button then the time: the dinner ends up stored under the message's date and the evening key closed |
| LegacyFacts.BadDinnerTimeKeepsWaiting | internal/handlers/handlers.go:195-198 | a malformed dinner time gets the hint and changes no table |
| LegacyFacts.ForeignStateCleared | internal/handlers/handlers.go:184-209 | any other wait state, such as a set-up step of the newer handlers, is cleared with nothing sent |
| LegacyFacts.TextClearsWaitState | internal/handlers/handlers.go:181-210 | unless it panics or refuses a dinner time, the older `HandleText` leaves the wait state empty |
| LegacyFacts.LocalKeyMissesUtcKey | internal/handlers/handlers.go:172-178 | the tick's local-date key and the button's UTC-date key differ for a user three hours east at 00:30 local time |

## Left out

- SQL and scan errors: every store call succeeds. The one exception is the
  NULL-complaints scan error in `GetDayRecord`, which is modelled because
  it makes the record read as missing. The handlers discard these errors
  with `_ =` anyway.
- The IANA time-zone database: modelled as a map from zone name to a fixed
  offset. Daylight-saving changes are not modelled.
- `Register`, `listen` and `main`: the long-poll loop and the goroutines are
  not modelled. Nor are gocron and the scheduler being started twice. Each
  update and each tick runs alone, one after the other.
- `time.Now()` is read once per update or tick, as `now`. Reads within one
  handler are taken to be equal.
- Message wording and logging: texts are `Say` constructors, not Russian
  strings. Only texts the program compares with are modelled as strings:
  button payloads, menu texts, commands and wait states. `log.Printf` is
  not modelled.
- `showDebugAllPeriods`: only its panic on a missing user and the single
  message it sends are modelled, not the report's text.
- `msg.Command()` and `msg.IsCommand()` are computed from the text (a
  leading '/' and a command word), not from Telegram's message entities.
- Go slices a date key by bytes; the model slices by characters. Date keys
  are ASCII, so the two agree.
- `utils.Must`, used by the older `SendMorning` and `SendEvening`, is not
  among the repository's files. It is read as stopping the process on a
  failed send, like `utils.LogFor`.
- `DropAll`: whether the file could be removed is the `fileRemoved`
  parameter. A removed file is modelled as the empty store the next start
  finds; a failed removal keeps every row. The closed connection is not
  modelled: later store calls in the same process, which fail in the
  source, act on that store in the model.
- `Storage.DB.DropAll`: keeps the next pending id, where a new database file
  starts its AUTOINCREMENT ids again. Pending ids are only compared for
  equality, so no property depends on it.
- `Zones.LoadLocation`: Go's built-in "Local" zone is read from the zone
  database like any other name. `KnowsLocal` states that the database maps
  it to the server's offset, and both `Handler` constructors require that.
  The effect functions and the tick take the database as a parameter and
  do not require it.
- The "Статистика" menu item only sends its placeholder text.
- The tick's `rows.Scan` of a user: it is the user as stored.
- The id Telegram returns for a sent message is a parameter (`SendResult`,
  ghost `mid`), not a computed value.
- A date key shorter than ten characters makes `dateKey[:10]` panic. The
  effect functions model this as the `Panic` outcome, not as a
  precondition. Only the split-off helper methods
  (`Legacy.Handler.AteNow`, `MorningButton`, `NoComplaints`, `StoreDinner`,
  `Handlers.Handler.SaveDinner`) require a key of ten characters; their
  callers check it.
- `Messages.HoursLeft`: `int(end.Sub(now).Hours())` is modelled on whole
  seconds, with the fractional hours truncated toward zero. Sub-second
  precision is not modelled.
