# Rent Check: a verified model of the rent-due engine

This is a Dafny model of the rent engine in the Rent Check application
(template_store), with proofs about it. The engine decides:

- when a rental property's rent fell due;
- on which days the smart scheduler checks the bank feed for it;
- which transactions count as the rent payment;
- how a daily run and a 30-day schedule are put together.

Around the engine the project models:

- the bank-feed import filter and the OAuth URL;
- the validators of the property and auth routes;
- the `SaaSTemplate` module registry;
- two console scripts: the `.env` rewrite of `setup_email.py` and the prompt loops of `setup_template.py`.

Modules, one per file:

- `Dates` (dates.dfy): the proleptic Gregorian calendar as Python's `datetime.date` has it.
  - The ordinal day count, with 0001-01-01 as day 1.
  - `date ± timedelta(days=n)`, `weekday()` and `strftime('%A').lower()`.
  - The ISO 8601 week number of `isocalendar()` (section 3.2.2 of ISO 8601-1:2019).
- `Common` (common.dfy): Python's string and dictionary behaviour as the engine relies on it. That is `str.strip`, `lower`, `split`/`join`, `in` on strings, `isdigit`/`int`, and `dict.get`.
- `Sorting` (sorting.dfy): the stable `list.sort(key=…)`, plus the list comprehensions `Map` and `Filter`.
- `Domain` (domain.dfy): users, properties and the transactions table.
  - The table is the class `TransactionStore`. Its `rows` are updated in place by `Create` and `MarkAsMatched`.
  - A store whose `connected` is false models `get_db_connection()` returning None.
- `RentChecking` (rent_checker.dfy): the expected-date rule and the 10% amount check. The class `RentChecker` holds the batch checks, which mark matched rows in the store.
- `CheckDays` (check_days.dfy): the smart scheduler's "was rent due yesterday" rule.
- `SmartScheduling` (smart_scheduler.dfy): rent detection, the per-property fetch, the daily run with its summary counters, and the 30-day schedule.
  - The bank gateway is a function parameter.
  - The notifier is a class whose `sent` list grows.
- `Bank` (bank.dfy): the import filter of the bank-feed service and its result record.
- `PropertyRoutes` (properties.dfy) and `AuthRoutes` (auth.dfy): the input validators.
- `TemplateConfig` (template_config.dfy): the configuration sections, the class `SaaSTemplate` with its module registry, loading from a parsed JSON file, and the rent-tracking preset.
- `SetupEmail` (setup_email.dfy) and `SetupTemplate` (setup_template.dfy): the two console scripts, with the terminal modelled as a sequence of input lines.

Conventions:

- Money is in integer cents, so every tolerance comparison is exact.
- Each "today" is a parameter.
- A property's due day is `DueDay`: an integer day of month or a text value. Each function reads the form it actually receives.
  - The rent checker and the routes read an integer.
  - The smart scheduler compares against a weekday name or calls `isdigit()` on a text.

## Model

| member | source | states |
|---|---|---|
| RentChecking.ExpectedRentDate | backend/utils/rent_checker.py:40-70 | there is no date exactly when the source would raise: a text due day with a monthly, weekly or fortnightly frequency, or a monthly day below 1; any other frequency returns the reference date unchanged |
| RentChecking.ExpectedWeekly | backend/utils/rent_checker.py:57-60 | the weekly date is 0-6 days before the reference date and falls on weekday `(due_day - 1) mod 7`, Monday = 0; no later day up to the reference date has that weekday |
| RentChecking.MostRecentWeekly | backend/utils/rent_checker.py:59-60 | walking back `(weekday - (due_day - 1)) % 7` days gives the most recent day with that weekday |
| RentChecking.ExpectedFortnightly | backend/utils/rent_checker.py:62-65 | the fortnightly date is 0-13 days back, on the same weekday, and is either the weekly date or the week before it |
| RentChecking.MostRecentFortnightly | backend/utils/rent_checker.py:64-65 | walking back modulo 14 lands 0-13 days back, on the due weekday, at the weekly date or 7 days before it |
| RentChecking.ExpectedMonthly | backend/utils/rent_checker.py:45-55 | the day is `min(due_day, 28)`; same month when `reference.day >= due_day`, else the previous month, with January rolling to December of the year before; never after the reference date |
| RentChecking.IsRentPaymentBand | backend/utils/rent_checker.py:72-83 | `|actual - expected| <= expected * tolerance` (exact decimal, inclusive) holds iff actual lies in the band `[expected*(1-t), expected*(1+t)]`; with the default 0.1, iff `9e <= 10a <= 11e` |
| RentChecking.Matching | backend/utils/rent_checker.py:25-29 | a transaction is listed iff it is in the input and passes the amount check |
| RentChecking.MatchingStep | backend/utils/rent_checker.py:26-28 | the matched list grows by exactly the next transaction when it passes, by nothing otherwise, so input order is kept |
| RentChecking.MatchingSorted | backend/utils/rent_checker.py:22-28 | matching a date-descending list keeps it date-descending |
| RentChecking.MatchingMap | backend/utils/rent_checker.py:28-29 | marking rows matched and then filtering gives the same list as filtering and then marking: the amount check ignores the flag |
| RentChecking.WindowSpec | backend/utils/rent_checker.py:18-22 | the query returns exactly the property's rows dated in `[expected-1, expected+1]`, newest first, or nothing when the database is unavailable |
| RentChecking.CheckSpecReceived | backend/utils/rent_checker.py:10-38 | `rent_received` holds iff some row in the window passes the amount check; the listed transactions are exactly those rows (as marked), newest first; the expected date is the calculated one |
| RentChecking.CheckSpecIgnoresMarks | backend/utils/rent_checker.py:26-29 | a check's result and the rows it marks do not depend on rows marked earlier |
| RentChecking.CheckEachStep | backend/utils/rent_checker.py:90-92 | the results of the first `i+1` properties are those of the first `i` plus the next one's |
| RentChecking.CheckEachAt | backend/utils/rent_checker.py:90-92 | the `j`-th result of the batch is the check of the `j`-th property |
| RentChecking.CheckAllSpecErr | backend/utils/rent_checker.py:90-92 | one property whose check raises makes the whole batch raise |
| RentChecking.CheckAllSpecOk | backend/utils/rent_checker.py:85-94 | when every check succeeds, the batch returns the per-property results in order |
| RentChecking.CheckAllMarksExtend | backend/utils/rent_checker.py:90-92 | the rows marked after `i+1` properties are those after `i` plus those the next check marks |
| RentChecking.OverdueSpec | backend/utils/rent_checker.py:101-105 | the overdue list holds exactly the results with `rent_received = false`, each tagged with `days_overdue` |
| RentChecking.Overdue | backend/utils/rent_checker.py:101-107 | never longer than the batch it filters |
| RentChecking.RentChecker.constructor | backend/utils/rent_checker.py:7-8 | the checker keeps the tolerance it is given, 0.1 by default |
| RentChecking.RentChecker.CheckRentForProperty | backend/utils/rent_checker.py:10-38 | the result is the check specification at `check_date` (today when absent); exactly the matching rows of the window get marked; no row is added |
| RentChecking.RentChecker.MarkMatching | backend/utils/rent_checker.py:25-29 | the loop returns the matching transactions in input order, as marked, and marks exactly their ids in the store |
| RentChecking.RentChecker.CheckAllPropertiesForUser | backend/utils/rent_checker.py:85-94 | the batch equals the per-property specification in order; it succeeds iff every property's expected date can be computed; on success the store has marked exactly the union of what each check marks; on failure it keeps the marks of the properties checked before the first one whose date cannot be computed |
| RentChecking.CheckedBeforeError | backend/utils/rent_checker.py:90-92 | the properties before the index all have an expected date, and the property at the index, if any, has none |
| RentChecking.RentChecker.CheckNext | backend/utils/rent_checker.py:90-92 | one loop step: it succeeds iff the property's expected date can be computed; on failure the batch raises, this property is the first failing one, and the store keeps the earlier marks only; on success the results and the marks extend by one property |
| RentChecking.RentChecker.GetOverdueRent | backend/utils/rent_checker.py:96-107 | checks at `today - days_overdue` and returns exactly the unreceived results tagged with `days_overdue`; the store ends with the marks of every check of the batch, or, when the batch raises, of the checks before the failing property |
| RentChecking.TagOverdue | backend/utils/rent_checker.py:101-105 | the loop returns the overdue entries of the report, each tagged with the days overdue |
| CheckDays.WeeklyOncePerWeek | backend/utils/smart_scheduler.py:62-64 | for a valid weekday name, exactly one of any seven consecutive days fires |
| CheckDays.WeeklyFires | backend/utils/smart_scheduler.py:62-64 | some day of any seven consecutive days fires |
| CheckDays.WeeklySameDay | backend/utils/smart_scheduler.py:62-64 | two days of the same seven that both fire are the same day |
| CheckDays.SameName | backend/utils/smart_scheduler.py:30 | two days have the same lower-case day name iff they have the same weekday |
| CheckDays.WeekdayReached | backend/utils/smart_scheduler.py:64 | moving forward `(w - weekday) % 7` days reaches weekday `w` |
| CheckDays.OneWeekApart | backend/utils/smart_scheduler.py:62-64 | two offsets within one week that reach the same weekday are equal |
| CheckDays.UnknownWeekdayNeverFires | backend/utils/smart_scheduler.py:62-69 | a weekly or fortnightly due day that names no weekday never fires |
| CheckDays.FortnightlyWithinWeekly | backend/utils/smart_scheduler.py:66-69 | a fortnightly property fires iff the weekly rule fires and the ISO week number is even, so its days are a subset of the weekly ones |
| CheckDays.MonthlyDays | backend/utils/smart_scheduler.py:71-79 | an all-digit due day fires on that day of the month; any other due day fires on day 1 |
| CheckDays.MonthlyBeyondMonthEnd | backend/utils/smart_scheduler.py:74-76 | a monthly day beyond the month's length never fires in that month |
| CheckDays.ThirtyFirstInThirtyDayMonth | backend/utils/smart_scheduler.py:74-76 | due day "31" never fires in a 30-day month |
| CheckDays.UnknownFrequencyNeverFires | backend/utils/smart_scheduler.py:81 | an unknown frequency is never checked |
| CheckDays.FortnightlyGapAtYearEnd | backend/utils/smart_scheduler.py:66-69 | across the 53-week ISO year 2020, a Friday fortnightly property fires on 2020-12-25 and next on 2021-01-15, 21 days later |
| CheckDays.IsoWeek1Mondays | backend/utils/smart_scheduler.py:69 | the ordinals of 1 January and the week-1 Mondays of 2020-2022, as `isocalendar` computes them |
| SmartScheduling.DetectedAmount | backend/utils/smart_scheduler.py:145 | the amount used is never negative, and reading it raises exactly when the amount is malformed |
| SmartScheduling.DetectRentPayments | backend/utils/smart_scheduler.py:136-165 | the loop returns the detection specification: the error of the first malformed amount, or the detected transactions |
| SmartScheduling.MatchesRent | backend/utils/smart_scheduler.py:145-161 | the per-transaction check equals the detection predicate: amount within 5% and the keyword rule |
| SmartScheduling.DetectSpec | backend/utils/smart_scheduler.py:136-165 | detection raises iff some amount is malformed; otherwise a transaction is kept iff `||amount| - rent| * 20 <= rent` and the text rule holds; never more than the input |
| SmartScheduling.DetectAppend | backend/utils/smart_scheduler.py:144-162 | detection on a concatenation is the concatenation of the detections, so it is an order-preserving subsequence |
| SmartScheduling.FirstAmountErrorSpec | backend/utils/smart_scheduler.py:144-145 | no error iff no amount is malformed; otherwise the error is that of the first malformed amount |
| SmartScheduling.FirstAmountErrorPrefix | backend/utils/smart_scheduler.py:144-145 | once a prefix has a malformed amount, later transactions do not change the error |
| SmartScheduling.KeywordRule | backend/utils/smart_scheduler.py:152-159 | with no keyword the text rule holds whatever the nickname; with a keyword, the lower-cased keyword or nickname must occur in the description |
| SmartScheduling.DetectionIgnoresCase | backend/utils/smart_scheduler.py:146 | lower-casing the description does not change detection |
| SmartScheduling.DebitsMatch | backend/utils/smart_scheduler.py:145-149 | negating the amount does not change detection, because of the absolute value |
| SmartScheduling.Notifier.constructor | backend/utils/smart_scheduler.py:167-179 | a fresh notifier has sent nothing |
| SmartScheduling.Notifier.SendLateRent | backend/utils/smart_scheduler.py:167-179 | sending appends exactly one notice for the user and property |
| SmartScheduling.FetchTransactionsForProperty | backend/utils/smart_scheduler.py:83-134 | the result, the imported rows and the notices sent are the fetch specification over the window `[today-2, today+1)` |
| SmartScheduling.FetchInWindow | backend/utils/smart_scheduler.py:87-130 | the same for a given window: rows grow by the import, ids by the import's length, notices by the fetch's notices |
| SmartScheduling.FetchOutcomeFacts | backend/utils/smart_scheduler.py:89-134 | with no token the result is the no-token failure whatever the gateway; a success reports `api_calls_used = 1`, stored ≤ fetched, detected ≤ fetched, and `notification_sent` iff nothing was detected; success iff a token, a gateway answer and well-formed amounts |
| SmartScheduling.ImportedLength | backend/utils/smart_scheduler.py:109 | the number of rows imported does not depend on the first id and never exceeds the fetched list |
| SmartScheduling.FetchAsWrittenNeverSucceeds | backend/utils/smart_scheduler.py:102-106 | as written, every fetch fails: without a token with the token error, with one with the call's TypeError |
| SmartScheduling.FetchCanSucceed | backend/utils/smart_scheduler.py:102-128 | with the gateway called with the window it is meant to fetch, a token, an answer and well-formed amounts give a successful fetch |
| SmartScheduling.Owned | backend/utils/smart_scheduler.py:38-42 | every pair collected for a user carries that user |
| SmartScheduling.OwnedSpec | backend/utils/smart_scheduler.py:38-42 | a user's pairs are exactly the properties whose `user_id` is the user's id |
| SmartScheduling.LinkedSpec | backend/utils/smart_scheduler.py:34-42 | the collected pairs are exactly the properties of bank-connected users, each with its owner |
| SmartScheduling.CollectLinkedProperties | backend/utils/smart_scheduler.py:34-42 | the nested loop builds exactly the collected list |
| SmartScheduling.PropertiesDueForCheckToday | backend/utils/smart_scheduler.py:21-56 | the loop returns exactly the due-today list |
| SmartScheduling.DueTodaySpec | backend/utils/smart_scheduler.py:21-56 | a pair is due today iff its owner is bank-connected, owns it, and the check rule holds for yesterday |
| SmartScheduling.CountStep | backend/utils/smart_scheduler.py:212-221 | each result adds one success or one failure, its API calls only when successful, and a notification only when successful with one sent |
| SmartScheduling.Outcomes | backend/utils/smart_scheduler.py:209-213 | one detail per property checked |
| SmartScheduling.SummarizeFacts | backend/utils/smart_scheduler.py:198-224 | successful + failed = checked = number of details; notifications ≤ successes; the cost is 10 cents per API call; with one call per success, calls = successes |
| SmartScheduling.RunCost | backend/utils/smart_scheduler.py:217-224 | over a run, API calls equal successful checks and the cost is 10 cents per success |
| SmartScheduling.RunAsWrittenFindsNothing | backend/utils/smart_scheduler.py:102-106 | with the fetch as written, a run has no successes, every check failed and the cost is 0 |
| SmartScheduling.RunDailySmartCheck | backend/utils/smart_scheduler.py:181-227 | nothing due gives the early "no properties due" result; otherwise the summary of the fetches; the store gains the fetches' imports and the notifier their notices, in order |
| SmartScheduling.CheckDueProperties | backend/utils/smart_scheduler.py:209-224 | the loop's counters equal the summary of the per-property outcomes; rows and notices are those of all fetches in order |
| SmartScheduling.CheckDueProperty | backend/utils/smart_scheduler.py:210-213 | one loop step keeps the run invariant for one more property |
| SmartScheduling.RunImportsNext | backend/utils/smart_scheduler.py:109 | after one more fetch the rows and next id equal those of the first `i+1` fetches |
| SmartScheduling.RunNoticesNext | backend/utils/smart_scheduler.py:124-126 | after one more fetch the notices equal those of the first `i+1` fetches |
| SmartScheduling.RunImportsStep | backend/utils/smart_scheduler.py:109 | the imports of `i+1` fetches are those of `i` followed by the next fetch's, numbered on |
| SmartScheduling.RunNoticesStep | backend/utils/smart_scheduler.py:124-126 | the notices of `i+1` fetches are those of `i` followed by the next fetch's |
| SmartScheduling.OutcomesStep | backend/utils/smart_scheduler.py:209-213 | the details of a run end with the outcome of its last property |
| SmartScheduling.DayEntries | backend/utils/smart_scheduler.py:254-263 | every entry of a day carries that day's check date |
| SmartScheduling.DayEntriesSpec | backend/utils/smart_scheduler.py:254-263 | a day's entries are exactly the properties that pass the check for the day before, each with that check date |
| SmartScheduling.AppendDayEntries | backend/utils/smart_scheduler.py:254-263 | the inner loop appends exactly the day's entries |
| SmartScheduling.ScheduleRentChecks | backend/utils/smart_scheduler.py:229-273 | the schedule, after its stable sort by check date, is the 30-day plan over the properties of bank-connected users |
| SmartScheduling.PlannedSortIsIdentity | backend/utils/smart_scheduler.py:266 | the plan is already in date order, so the stable sort leaves it unchanged |
| SmartScheduling.PlannedSound | backend/utils/smart_scheduler.py:249-263 | every entry's property passed the check for `check_date - 1`, and its check date is 1 to `days` days after today |
| SmartScheduling.PlannedComplete | backend/utils/smart_scheduler.py:249-263 | every property passing the check for some day `today+k-1`, with `1 <= k <= days`, has an entry on `today+k` |
| SmartScheduling.PlannedSorted | backend/utils/smart_scheduler.py:249-266 | the plan is sorted ascending by check date, none later than `today + days` |
| SmartScheduling.ScheduleWindow | backend/utils/smart_scheduler.py:249-250 | every check date lies in `[today+1, today+30]` |
| Bank.AuthorizationUrlParameters | backend/utils/akahu_service.py:12-16 | the query splits at '&' into exactly `…/auth?client_id=…`, `redirect_uri=…` and `state=<user_id>`, in that order |
| Bank.MockGetAccounts | backend/utils/akahu_service.py:124-139 | always two accounts, `acc_test_123` (CHECKING) and `acc_test_456` (SAVINGS), whatever the token |
| Bank.ImportRows | backend/utils/akahu_service.py:76-98 | never more rows than fetched transactions |
| Bank.ImportRowsSpec | backend/utils/akahu_service.py:72-100 | one row per importable transaction (readable date, readable positive amount), so stored ≤ credits ≤ fetched; rows are numbered consecutively from the next id, belong to the property, are unmatched with a positive amount, and each is built from a fetched transaction |
| Bank.ImportRowsLength | backend/utils/akahu_service.py:93-94 | the number of rows is the number of importable transactions |
| Bank.StoreTransactions | backend/utils/akahu_service.py:72-100 | the loop appends exactly the import's rows and returns their count; with no database nothing is stored |
| Bank.SyncPropertyTransactions | backend/utils/akahu_service.py:102-118 | a failed fetch gives failure with its error and stores nothing; otherwise `transactions_found` is the fetched length, `transactions_stored` the import count, and stored ≤ found |
| Domain.InRange | backend/models/transaction.py:137-142 | the rows selected for a property and date range come from the table and are no more than it |
| Domain.InRangeSpec | backend/models/transaction.py:137-142 | a row is selected iff it belongs to the property and its date lies in `[start, end]` |
| Domain.DateRangeSpec | backend/models/transaction.py:128-163 | the date-range query returns the same rows as the selection, newest first, and membership is exactly property and date range |
| Domain.MarkIds | backend/models/transaction.py:165-184 | the rows keep their length and order; exactly the rows with a listed id become matched |
| Domain.MarkIdsUnion | backend/models/transaction.py:165-184 | marking one id set and then another equals marking their union |
| Domain.MarkIdsDateRange | backend/models/transaction.py:128-184 | marking rows does not change which rows a date-range query returns, up to the flag |
| Domain.MarkIdsInRange | backend/models/transaction.py:137-142 | marking rows does not change which rows are selected, up to the flag |
| Domain.TransactionStore.constructor | backend/models/transaction.py:16-49 | a new table is empty, with the given database availability |
| Domain.TransactionStore.Create | backend/models/transaction.py:16-49 | with no database, None and nothing changes; otherwise the row, unmatched, is appended with the next id |
| Domain.TransactionStore.MarkAsMatched | backend/models/transaction.py:165-184 | returns whether the database is available; if so exactly the row with that id becomes matched |
| PropertyRoutes.ValidatePropertyData | backend/routes/properties.py:8-41 | the loop of checks returns exactly the validation error list |
| PropertyRoutes.ValidationEmptyIff | backend/routes/properties.py:8-41 | no errors iff the name is truthy, the rent is a decimal > 0, the due day an integer in 1..31, and the frequency weekly, fortnightly or monthly |
| PropertyRoutes.ValidationFieldOrder | backend/routes/properties.py:12-39 | at most four errors, at most one per field, in the order name, rent, due day, frequency |
| PropertyRoutes.FieldErrorsReported | backend/routes/properties.py:12-39 | every field's error appears in the list |
| PropertyRoutes.FalsyRentRequired | backend/routes/properties.py:16-17 | a missing or falsy rent gives "Rent amount is required" and neither the format nor the positivity error |
| PropertyRoutes.ZeroStringRent | backend/routes/properties.py:19-22 | the text "0" is truthy and parses, so it gives only the positivity error |
| PropertyRoutes.TextRentBadFormat | backend/routes/properties.py:19-24 | the text "abc" gives only "Invalid rent amount format" |
| PropertyRoutes.WeekdayDueDayRejected | backend/routes/properties.py:29-34 | a due day "friday" gives only "Due day must be a valid number" |
| PropertyRoutes.PaddedDueDayAccepted | backend/routes/properties.py:29-32 | a due day of digits padded with spaces in 1..31 is accepted, as `int()` strips whitespace |
| PropertyRoutes.FrequencyExact | backend/routes/properties.py:36-39 | "Weekly" is rejected: the frequency check is exact, case-sensitive membership |
| PropertyRoutes.RentDecimal | backend/routes/properties.py:20 | a JSON number converts to its exact decimal; anything but a number or a text fails |
| PropertyRoutes.ParseFinite | backend/routes/properties.py:20 | a numeric text that parses gives a finite, non-negative-magnitude decimal |
| PropertyRoutes.IsPositive | backend/routes/properties.py:21 | the `<= 0` comparison is undefined exactly for NaN, which raises InvalidOperation |
| PropertyRoutes.ParseDecimalDigits | backend/routes/properties.py:20 | a digit string parses as the decimal integer it spells |
| PropertyRoutes.DueDayInt | backend/routes/properties.py:30 | an integer JSON number converts to itself; a text converts as `int()` of its stripped form; null, lists and objects fail |
| PropertyRoutes.DueDayIntNatString | backend/routes/properties.py:30 | the decimal text of `n` converts back to `n` |
| PropertyRoutes.TruncDiv | backend/routes/properties.py:30 | `int()` of a number with a fraction truncates toward zero: magnitude `|u| / d`, sign of `u` |
| PropertyRoutes.JoinMessages | backend/routes/properties.py:84-85 | the joined message starts with the first error, and is that error alone when there is one |
| PropertyRoutes.CreateProperty | backend/routes/properties.py:77-108 | an insert happens only for a body with no validation errors; its rent is > 0, due day in 1..31, frequency known, name and address stripped, and an empty nickname stored as None |
| PropertyRoutes.CreateRejects | backend/routes/properties.py:83-85 | a body is rejected iff it has validation errors, with all of them joined by "; " |
| PropertyRoutes.BlankNameAccepted | backend/routes/properties.py:83-89 | a name of spaces passes validation and is stored empty after stripping |
| PropertyRoutes.StrippedOr | backend/routes/properties.py:90-94 | the value stored for an optional text field is stripped |
| PropertyRoutes.ValidateProperty | backend/routes/properties.py:193-211 | `valid` iff the issue list is empty; the issues are those of the review |
| PropertyRoutes.ReviewValidIff | backend/routes/properties.py:193-211 | no issues iff rent > 0, due day in 1..31, a known frequency, weekly rent ≥ 100 and monthly rent ≥ 400; no threshold for fortnightly |
| PropertyRoutes.NegativeWeeklyRentTwoIssues | backend/routes/properties.py:195-207 | a negative weekly rent is both an invalid rent and an unusually low weekly rent |
| PropertyRoutes.ReviewWeekdayDueDay | backend/routes/properties.py:198 | a non-empty text due day, such as a weekday name, makes the review raise, because `due_day < 1` compares a text with an integer; an empty one is falsy and is reported as an invalid due day |
| AuthRoutes.ValidatePasswordSpec | backend/routes/auth.py:9-20 | accepted iff length ≥ 8, an ASCII letter and a digit; otherwise the message of the first failing check: length, then letter, then number |
| AuthRoutes.PasswordExamples | backend/routes/auth.py:9-20 | "password1" is valid, "password" lacks a number, "12345678" lacks a letter |
| AuthRoutes.ValidateEmailSpec | backend/routes/auth.py:22-25 | the matcher accepts exactly the strings the pattern with `$` accepts |
| AuthRoutes.BodyMatchesIff | backend/routes/auth.py:24 | the direct check of local part, '@', domain, last '.' and a letter suffix of length ≥ 2 agrees with the pattern |
| AuthRoutes.MatchPositions | backend/routes/auth.py:24 | in any match the '@' is the first one and the '.' before the suffix is the last one |
| AuthRoutes.AcceptedShape | backend/routes/auth.py:24 | an accepted address without a trailing newline has exactly one '@', a non-empty local part from `[A-Za-z0-9._%+-]`, a domain segment before the last '.', and ≥ 2 letters after it |
| AuthRoutes.OnlyOneAt | backend/routes/auth.py:24 | no '@' other than the matched one occurs |
| AuthRoutes.TrailingNewline | backend/routes/auth.py:24-25 | `$` accepts a valid address followed by one newline, but not by two |
| AuthRoutes.NoMatchEndingInNewline | backend/routes/auth.py:24 | the body of the pattern never matches a string ending in a newline |
| AuthRoutes.LastIndex | backend/routes/auth.py:24 | the position of the last occurrence of a character, or -1 |
| TemplateConfig.FeatureModuleDefaults | template_config.py:66-87 | a module built with the defaults is enabled, under "/api", with empty table and route lists |
| TemplateConfig.DefaultCoreTablesListed | template_config.py:26-36 | a fresh database section lists exactly `users`, `user_sessions`, `notification_log` |
| TemplateConfig.SaaSTemplate.constructor | template_config.py:111-117 | every section starts at its defaults and the registry is empty |
| TemplateConfig.SaaSTemplate.AddFeatureModule | template_config.py:122-124 | the module is stored under its name, replacing any module of that name; every other name is unchanged; a new name goes last in insertion order |
| TemplateConfig.SaaSTemplate.GetFeatureModule | template_config.py:126-128 | the stored module, or None when the name is absent |
| TemplateConfig.SaaSTemplate.GetEnabledModules | template_config.py:130-132 | exactly the registered modules with `enabled` set |
| TemplateConfig.EnabledModulesSpec | template_config.py:130-132 | a module is listed iff it is registered and enabled |
| TemplateConfig.EnabledModulesAppend | template_config.py:122-132 | registering a new name appends its module to the enabled list when enabled: insertion order is kept |
| TemplateConfig.InOrder | template_config.py:132 | the registered modules in insertion order, one per name |
| TemplateConfig.SaaSTemplate.GetAllDatabaseTables | template_config.py:134-141 | no duplicates; exactly the core tables and the tables of every enabled module; it raises when the core tables are not a list |
| TemplateConfig.AllTablesSpec | template_config.py:134-141 | the deduplicated union has no duplicates and contains exactly the core and enabled-module tables |
| TemplateConfig.DedupeSpec | template_config.py:141 | deduplication keeps exactly the members, each once |
| TemplateConfig.TablesOfMembership | template_config.py:138-139 | a table is in the extended list iff some module lists it |
| TemplateConfig.ExtendTables | template_config.py:136-139 | the copy extended in a loop is the core tables followed by every module's tables |
| TemplateConfig.Unique | template_config.py:141 | the result has no duplicates and the same members |
| TemplateConfig.MergeAttrs | template_config.py:166-176 | merging never adds or removes a key |
| TemplateConfig.MergeAttrsSpec | template_config.py:166-176 | an existing key takes the file's value when the file has it and keeps its own otherwise; unknown keys are ignored |
| TemplateConfig.MergeSection | template_config.py:166-176 | the loop computes the merge |
| TemplateConfig.MergeSectionFromFile | template_config.py:166-168 | with a JSON object's items (last duplicate wins), an existing key takes the file's value |
| TemplateConfig.SectionStep | template_config.py:164-176 | updating one section keeps all five sections present |
| TemplateConfig.LoadSections | template_config.py:164-176 | loading the sections in order keeps all five present |
| TemplateConfig.LoadSectionsSpec | template_config.py:164-176 | no section gains or loses an attribute, and a section absent from the file is unchanged |
| TemplateConfig.StringList | template_config.py:32-36 | a list of strings is read as the same number of strings |
| TemplateConfig.StringListStrings | template_config.py:32-36 | a list of strings reads back as itself |
| TemplateConfig.ModuleFromJson | template_config.py:181 | a module is built only from an object whose every key is a module field |
| TemplateConfig.Register | template_config.py:180-182 | registration stops the load exactly when the module cannot be built |
| TemplateConfig.LoadModulesRegistry | template_config.py:178-182 | loading modules keeps the registry well formed, never removes a name, and only appends to the insertion order |
| TemplateConfig.RegisteredUnderKey | template_config.py:180-182 | a module is stored under the file's key, not under its own name |
| TemplateConfig.LoadKeepsSections | template_config.py:156-185 | loading a file, even a failing one, keeps every section's attribute set |
| TemplateConfig.LoadKeepsRegistry | template_config.py:156-185 | loading a file keeps the registry well formed and only adds names |
| TemplateConfig.SaaSTemplate.MergeSections | template_config.py:164-176 | the section loop computes the section load and leaves the registry alone |
| TemplateConfig.SaaSTemplate.LoadFromFile | template_config.py:156-185 | the new state is the load specification of the old state and the parsed file |
| TemplateConfig.RegisterAll | template_config.py:179-182 | the module loop computes the module load |
| TemplateConfig.CreateRentTrackingConfig | template_config.py:200-224 | the branding section is the default one with app name "Rent Check", the rent-tracking tagline and description, and the house emoji, every other branding attribute at its default; the integrations section is the default one with bank integration enabled and provider "akahu"; other sections at their defaults; exactly one module, `property_management`, with tables `properties` and `transactions` |
| SetupEmail.BlockSettings | setup_email.py:66-73 | the block's lines are a header and then `MAIL_SERVER`, `MAIL_PORT`, `MAIL_USE_TLS=true`, `MAIL_USERNAME`, `MAIL_PASSWORD` in that order, carrying the given values |
| SetupEmail.IntText | setup_email.py:69 | the port is written as a non-empty decimal |
| SetupEmail.RewriteLines | setup_email.py:78-89 | the loop keeps exactly the lines of the filter |
| SetupEmail.KeptNoMail | setup_email.py:83-85 | no kept line starts with "MAIL_" |
| SetupEmail.KeptFromLines | setup_email.py:82-89 | every kept line is a line of the input |
| SetupEmail.KeptContent | setup_email.py:82-89 | every line that is neither a MAIL_ line nor blank is kept |
| SetupEmail.KeptWithoutMail | setup_email.py:80-88 | with no MAIL_ line, every line is kept and the skip flag never holds |
| SetupEmail.NewEnvSpec | setup_email.py:75-94 | the result always ends with the new block; without "MAIL_USERNAME=" it is the old content followed by the block; otherwise no line before the block starts with "MAIL_" |
| SetupEmail.UpdateEnv | setup_email.py:75-94 | the rewrite computes the new content |
| SetupEmail.ChooseProvider | setup_email.py:41-54 | choices 1 and 2 fix Gmail or Outlook on port 587; choice 3 reads server and port, 587 when the port is empty and a failure when it is not an integer; any other choice aborts |
| SetupEmail.SetupEmailConfig | setup_email.py:25-94 | an empty email or one without '@' aborts; then an empty password aborts; then a choice other than 1, 2 or 3 aborts with the invalid-choice outcome; choices 1 and 2 always save; choice 3 saves the stripped server with port 587 when the port is empty, saves the parsed port when it is an integer, and otherwise fails with the port text; only choice 3 can fail; a saved run writes the rewritten content (or a new file) with the block for the chosen server, port and credentials |
| SetupTemplate.PromptShape | setup_template.py:14-20 | the prompt starts with the question and ends with ": ", and is just that with no choices and no default |
| SetupTemplate.PromptHints | setup_template.py:16-19 | with choices the "(a/b)" hint follows the question; with a default the "[default]" hint comes just before ": " |
| SetupTemplate.BuildPrompt | setup_template.py:16-20 | the appends build the prompt |
| SetupTemplate.Responses | setup_template.py:23 | each response is the stripped input line |
| SetupTemplate.Judge | setup_template.py:25-36 | an accepted answer is never empty; an empty response is accepted iff there is a default, which it returns; a non-empty one is accepted iff there are no choices or it matches one case-insensitively, and is returned as typed |
| SetupTemplate.InLowers | setup_template.py:32 | a text is among the lower-cased choices iff some choice lower-cases to it |
| SetupTemplate.Answer | setup_template.py:22-36 | an answer is non-empty and consumes at least one line |
| SetupTemplate.AnswerSpec | setup_template.py:22-36 | the answer comes from the first accepted line, every earlier line was refused; no answer iff no line is accepted |
| SetupTemplate.AnswerAt | setup_template.py:22-36 | the first accepted line decides the answer and how many lines were consumed |
| SetupTemplate.AnswerStep | setup_template.py:28-34 | a refused line is consumed and the loop asks again |
| SetupTemplate.AnswerIgnoresLaterLines | setup_template.py:22-36 | once an answer is given, later input does not change it |
| SetupTemplate.ReadAnswer | setup_template.py:22-36 | the loop computes the answer |
| SetupTemplate.GetUserInput | setup_template.py:14-36 | shows the built prompt and returns the answer over the stripped input lines |
| SetupTemplate.YesNo | setup_template.py:38-46 | an empty response gives the default; otherwise true iff the lower-cased response is y, yes, true or 1 |
| SetupTemplate.YesNoIgnoresCase | setup_template.py:41 | the answer does not depend on letter case |
| SetupTemplate.YesNoIgnoresDefault | setup_template.py:43-46 | a non-empty response decides regardless of the default |
| SetupTemplate.GetYesNo | setup_template.py:38-46 | reads exactly one line; no answer only when input is exhausted |
| SetupTemplate.NormaliseRoute | setup_template.py:131-132 | the result starts with '/', and is the input when it already did, else '/' + input |
| SetupTemplate.NormaliseRouteIdempotent | setup_template.py:131-132 | normalising twice equals normalising once |
| SetupTemplate.CollectAsWrittenNeverEnds | setup_template.py:118-122 | as written, the table loop never reaches its `break`: with no default every answer is non-empty, so only end of input stops it |
| SetupTemplate.Collect | setup_template.py:116-122 | the evidently intended loop stops at the first empty response and returns every response before it; it never stops iff no response is empty |
| SetupTemplate.CollectStopsAt | setup_template.py:118-121 | the first empty response ends the list |
| SetupTemplate.CollectItems | setup_template.py:117-122 | the loop computes the intended collection |
| SetupTemplate.CollectTables | setup_template.py:116-122 | the table list is the intended collection over the stripped lines |
| SetupTemplate.NormaliseRoutes | setup_template.py:131-133 | each route is normalised, one for one |
| SetupTemplate.CollectRouteItems | setup_template.py:126-133 | the route loop collects like the table loop and normalises each route |
| SetupTemplate.CollectRoutes | setup_template.py:125-133 | the route list is the intended collection over the stripped lines, each normalised, so every route starts with '/' |
| Dates.AddDaysOrdinal | backend/utils/rent_checker.py:19-20 | adding `n` days adds `n` to the ordinal day count |
| Dates.ForwardOrdinal | backend/utils/rent_checker.py:20 | moving forward `n` days adds `n` to the ordinal |
| Dates.BackwardOrdinal | backend/utils/rent_checker.py:19 | moving back `n` days subtracts `n` from the ordinal |
| Dates.OrdinalNext | backend/utils/smart_scheduler.py:250 | the next calendar day has the next ordinal, across month and year ends |
| Dates.OrdinalPrev | backend/utils/smart_scheduler.py:27 | the previous calendar day has the previous ordinal |
| Dates.AddDaysWeekday | backend/utils/rent_checker.py:59-60 | adding `n` days advances the weekday by `n` modulo 7 |
| Dates.Weekday | backend/utils/rent_checker.py:59 | `weekday()` lies in 0..6 |
| Dates.AddDaysCompose | backend/utils/smart_scheduler.py:250-251 | adding `n` days and then `m` days adds `n + m` days |
| Dates.OrdinalMonotone | backend/models/transaction.py:140-141 | a calendar-earlier date has a smaller ordinal, so date order is ordinal order |
| Dates.OrdinalInjective | backend/models/transaction.py:140-141 | distinct dates have distinct ordinals |
| Dates.DaysBeforeYearStep | backend/utils/rent_checker.py:53 | the days before year `y+1` are those before `y` plus the length of `y` |
| Dates.IsoYearLength | backend/utils/smart_scheduler.py:69 | consecutive ISO years begin 364 or 371 days apart |
| Dates.IsoWeekRange | backend/utils/smart_scheduler.py:69 | an ISO week number lies in 1..53 |
| Dates.IsoWeek1MondayFacts | backend/utils/smart_scheduler.py:69 | the Monday of ISO week 1 is a Monday within three days of 1 January |
| Sorting.SortBySorted | backend/utils/smart_scheduler.py:266 | the sort returns a sorted permutation of its input |
| Sorting.SortByStable | backend/utils/smart_scheduler.py:266 | the elements with any one key keep their relative order |
| Sorting.SortBySortedIsIdentity | backend/utils/smart_scheduler.py:266 | sorting an already sorted list leaves it unchanged |
| Sorting.SortByMap | backend/models/transaction.py:141 | sorting commutes with a map that keeps the key, such as marking rows matched |
| Sorting.FilterMembership | template_config.py:132 | an element is kept iff it is in the input and passes |
| Sorting.FilterAppend | backend/utils/smart_scheduler.py:47-49 | filtering a concatenation filters each part |
| Common.StripSpec | setup_template.py:23 | `strip()` returns an infix of its input with no space at either end, and is empty iff the input is all space |
| Common.StripIdempotent | setup_template.py:23 | stripping twice equals stripping once |
| Common.LStrip | setup_template.py:23 | the left strip is a suffix of its input that starts with no space, and only spaces were removed |
| Common.RStrip | setup_template.py:23 | the right strip is a prefix of its input that ends with no space, and only spaces were removed |
| Common.ContainsCorrect | backend/utils/smart_scheduler.py:154-158 | the substring check holds iff the needle occurs at some position of the text |
| Common.LowerIdempotent | backend/utils/smart_scheduler.py:146 | lower-casing twice equals lower-casing once |
| Common.Lower | backend/utils/smart_scheduler.py:146 | `lower()` keeps the length and lower-cases each character in place |
| Common.JoinSplit | setup_email.py:78-91 | joining the pieces of a split gives the text back |
| Common.Split | setup_email.py:78 | `split('\n')` gives at least one piece, and no piece contains the separator |
| Common.SplitJoin | setup_email.py:78-91 | splitting a join of separator-free pieces gives the pieces back |
| Common.ParseNatToString | backend/utils/smart_scheduler.py:75 | `int()` of the decimal text of `n` is `n` |
| Common.ParseNat | backend/utils/smart_scheduler.py:75 | a text converts iff it is all ASCII digits |
| Common.DictItemsSpec | template_config.py:166 | looking a key up in a JSON object's `items()` gives what looking it up in the object gives |
| Common.Get | template_config.py:165 | a key is found iff some entry has it, and the value found is an entry's value |

## Left out

- Database access and HTTP are not modelled. The transactions table is an in-memory sequence. Users and properties are inputs. The bank gateway is a function parameter. `get_db_connection()` returning None is the store's `connected = false`. Other database errors are not modelled.
- `ORDER BY date DESC` among rows of the same date is modelled as the stable order of the table. The database guarantees no order there.
- Amounts are integer cents, not `float`. The cost is 10 cents per API call, not `0.10 * calls` in floating point. Decimal NaN and infinity appear only as far as the rent validator's comparisons need them.
- Only ASCII whitespace and ASCII digits are modelled in `strip()`, `isdigit()`, `int()` and `Decimal()` (`ParseNat`, `ParseInt`, `ParseDecimal`, `ParseFinite`). Python's Unicode classes are wider: `Decimal("١٢")` is 12 there and a format error in the model.
- Validation messages are the `Complaint` datatype and the issue texts of the `Review` datatype, not `jsonify` responses. Exceptions other than the ones the code catches are an `Err` value of the model.
- `hasattr` on a property is modelled by `keyword: Option<string>`. A property record without the attribute is None.
- Non-string values inside `core_tables`, and module values that are not objects, make the load fail or the result None. The original would raise TypeError on some of them later.
- `list(set(tables))` is modelled as deduplication in first-occurrence order. Python's set order is unspecified, so only the members and distinctness are promised.
- `to_dict`, `save_to_file`, the `config_file` existence check in the constructor, and the presets other than `create_rent_tracking_config` are not modelled.
- The terminal I/O and the `.env` file write of setup_email.py are not modelled, and neither are `show_email_providers_help` or the `__main__` block. The existing file's content is an input and the new content is the result.
- Of `interactive_setup`, only the module table and route loops and route normalisation are modelled. The other prompts, the yes/no prompt text and the generator call are not. Input lines are stripped as they are read.
- The fetch window of `fetch_transactions_for_property` is computed once from today, as `FetchWindow`, and passed to every fetch of a run. The source reads the clock again for each property.
- Logging, `print` and the notifier's e-mail are not modelled. The notifier is a list of notices, and a failing notification is swallowed as in the source.
- backend/utils/scheduler.py, template_generator.py, generate.py and debug_property.py are not part of this model.
- Python's year range 1..9999 is not enforced. Dates are unbounded proleptic Gregorian dates.
- RentDecimal: a JSON number is read as the exact decimal its text spells. The source passes it through a Python `float` first, so `str(float)` may round a number with more than 17 significant digits; the model does not round. A text with PEP 515 underscores, such as "1_000", is accepted by `Decimal()` and rejected by the model as "Invalid rent amount format".
- ParseFinite: the decimal grammar has no PEP 515 underscores (a single `_` between digits), which `Decimal()` accepts.
- ParseInt: `int()` accepts a single `_` between digits (PEP 515), and the model does not. `ParseNat`, which stands behind `isdigit()`, is exact.
- DueDayInt: a text with PEP 515 underscores, such as "1_5", fails in the model, while `int()` gives 15. A JSON number is truncated from its exact decimal, while the source truncates the nearest float: 31.99999999999999999 reads as 32.0 there and is out of range, while the model reads 31 and accepts it. A JSON number beyond the float range, such as 1e400, becomes `inf` in the source, and `int(inf)` raises OverflowError, which the except at backend/routes/properties.py:32 does not catch, so the request ends in a server error; the model reports the range error instead. The `Infinity` token, which Python's JSON reader also accepts, is not a value of the model's `Json` type.
- ChooseProvider: a port with PEP 515 underscores, such as "5_87", is a bad port in the model, while `int()` gives 587.
- CheckAllPropertiesForUser: the batch uses one `today` for every property. Without a check date, `check_rent_for_property` reads `datetime.now().date()` again for each property (backend/utils/rent_checker.py:12-13), so a batch that runs across midnight checks its later properties against the next day; the model does not.
- Lower: only ASCII letters are lower-cased. Python's `str.lower()` maps every cased Unicode letter (Ā to ā) and can change the length (İ). Rent detection (`DetectSpec`, `KeywordRule`, `DetectionIgnoresCase`), `Judge` and `YesNo` inherit this: in the model the keyword "Tāmati" does not match the description "TĀMATI RENT".
- ValidatePasswordSpec: a digit is an ASCII digit. `\d` at backend/routes/auth.py:17 matches every Unicode decimal digit, so "abcdefg٣" is valid in the source and lacks a number in the model.
- CollectLinkedProperties: each user's properties are taken in the order of the properties input. `Property.get_by_user_id` returns them `ORDER BY name` (backend/models/property.py:67), and name order is not modelled. Membership is exact (`LinkedSpec`, `DueTodaySpec`), but the order of a run's details, imports and notices, and of same-day schedule entries, is the input's order.
- Owned: keeps the order of the properties input, not `ORDER BY name`, as for CollectLinkedProperties.
- ModuleFromJson: a module is built only when `name`, `display_name` and `description` are strings, `api_prefix` is absent or a string, and `tables` and `frontend_routes` are absent, null or lists of strings. `FeatureModule(**data)` checks no types, so a file with a number for a name, a null `api_prefix` or a text for `tables` loads in the source and stops the load in the model.
- DetectSpec: a transaction's description is a string or absent. A description that is present but null or not a string makes `.lower()` raise at backend/utils/smart_scheduler.py:146; the except at lines 132-134 turns that into a failed fetch, after `store_transactions` (backend/utils/akahu_service.py:81) has already stored the rows. The model has no such description, so it never fails this way.
- DetectRentPayments: inherits the DetectSpec gap; a null or non-string description is not modelled.
- FetchOutcomeFacts: inherits the DetectSpec gap; the failed fetch that a null or non-string description causes after the import is not modelled.
- FetchCanSucceed: assumes descriptions are strings or absent, as for DetectSpec; a null description would make the source's fetch fail even with a good gateway.
- MergeAttrs: only the dataclass fields count as attributes. `hasattr` at template_config.py:167 and 174 is also true for `__doc__`, `__dict__`, `__class__` and other class attributes: a "__doc__" key is set on the object, "__dict__" replaces its fields, and "__class__" raises TypeError, caught at template_config.py:184, so the remaining sections and all modules are left unloaded. The model ignores such keys like any unknown key.
- MergeAttrsSpec: inherits the MergeAttrs gap for keys naming class attributes such as `__doc__`, `__dict__` and `__class__`.
- LoadSectionsSpec: inherits the MergeAttrs gap; a "__class__" key does not stop the load in the model, and "__dict__" does not replace a section's fields.
- LoadKeepsSections: holds for the model only; in the source a "__doc__" or "__dict__" key in a section changes the section's attribute set.
- LoadFromFile: inherits the MergeAttrs gap; the load specification ignores keys naming class attributes.
- KeywordRule: inherits the Lower gap; the keyword and nickname tests fold ASCII case only.
- DetectionIgnoresCase: inherits the Lower gap; it states case insensitivity for ASCII letters only.
- Judge: inherits the Lower gap; the reply and the choices are compared after ASCII lower-casing only.
- YesNo: inherits the Lower gap; "y", "yes", "true" and "1" are recognised after ASCII lower-casing only.
- SectionStep: inherits the MergeAttrs gap for keys naming class attributes.
- LoadSections: inherits the MergeAttrs gap for keys naming class attributes.

## Findings

| source | as written | input that shows it | evidently intended | confidence | as-written member | corrected member |
|---|---|---|---|---|---|---|
| backend/utils/smart_scheduler.py:102-106 | `get_transactions` is called with the token and `start_date`/`end_date` keywords, but `AkahuService.get_transactions(self, access_token, account_id, days_back=2)` (backend/utils/akahu_service.py:51) takes no such keywords and requires `account_id`, so the call raises TypeError. The TypeError is caught at lines 132-134, so every fetch reports failure | any user with an access token: the fetch fails and a run counts every property as a failed check with 0 API calls | call the gateway with the window it is meant to fetch; a token and an answer with readable amounts then give a successful fetch | not executed | SmartScheduling.FetchAsWrittenNeverSucceeds | SmartScheduling.FetchCanSucceed |
| setup_template.py:118-122 | `get_user_input` without a default re-prompts on an empty response and never returns "", so `if not table: break` can never fire. The table loop (and likewise the module and route loops) ends only at end of input | the input lines `["users", "", "orders"]`: the empty line is refused and "orders" is collected too; the loop never ends | an empty line ends the list | not executed | SetupTemplate.CollectAsWrittenNeverEnds | SetupTemplate.Collect |
