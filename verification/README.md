# TimeSync core, modelled in Dafny

TimeSync is a command-line tool. It reconciles hour registrations between three systems:

- Tempo: Jira worklogs.
- Toggl Track: a stopwatch.
- NC Toolkit: a SharePoint list of time registrations, booked on cases and work packages.

This project models its deterministic core and proves what that core promises.

- **transfer-from-toggl** (`TransferFromToggl`, `Allocation`):
  - Picks one day of Toggl entries and groups them by Jira issue key.
  - Converts each group to quarter-hour units.
  - Hands out the round-half-to-even total by largest remainder.
  - Applies the operator's overrides, then creates one Tempo worklog per issue.
  - Records the transferred day in the cache.
- **compare** (`CompareCommand`, `Reconcile`): one table row per day and account.
  - Each row holds the Tempo and Toolkit sums, rendered to hundredths or left blank.
  - A match flag marks rows whose two renderings agree.
- **sync** (`SyncCommand`, `SyncReport`):
  - Reads the Tempo registrations, asking again while accounts are missing.
  - Compares every day of the window, account by account, and records differences and missing registrations.
  - Lists the missing ones in a week/day/account tree.
  - Copies the picked ones to Toolkit.
- **week numbers** (`DateUtil`): the integer-only week number from the Julian Day Number, plus the year correction at year boundaries.
- **the metadata cache** (`CacheUtil`): a lazily read, string-keyed document with write-through `Set` and `Clear`.
- **the providers** (`TempoProvider`, `TogglProvider`, `JiraIssueKey`, `ToolkitProvider`): their decision logic.
  - Every REST, JSON or SharePoint result is a parameter.
  - Tempo: the secret format and its round trip; the authentication memo; invoice-account resolution with its per-issue memo; the memo flush and clear; the worklog post.
  - Toggl: the token check; the Jira-key rule; the page loop; milliseconds to hours.
  - Toolkit:
    - the state-code filter;
    - the case title;
    - the cached lookup, then refresh, then create sequence for cases and work packages;
    - the default-value dispatch;
    - the prompt-for-defaults loop;
    - the create preconditions.

The shared modules are `Wrappers` (`Option`, `Result` and the exceptions the code throws), `Domain` (registrants and entries), `Grouping` (LINQ `GroupBy`, `Sum`, `Where`, `Select`) and `Text` (character classes, `int.Parse`, `Split`, ordinal string order).

## Model

| member | source | states |
|---|---|---|
| Grouping.GroupKeys | TimeSync/Modules/TransferFromTogglCommand.cs:57 | `GroupBy` keys: each key once, exactly the keys of the elements |
| Grouping.GroupKeysFirstAppearance | TimeSync/Modules/TransferFromTogglCommand.cs:57 | groups come in the order in which their first members appear |
| Grouping.SumConserved | TimeSync/Modules/TransferFromTogglCommand.cs:57-61 | the group sums add up to the sum of all elements |
| Grouping.MembersMembership | TimeSync/Modules/TransferFromTogglCommand.cs:57-59 | an element is in group k iff its key is k |
| Grouping.Where | TimeSync/Modules/TransferFromTogglCommand.cs:51 | `Where` keeps exactly the elements that satisfy the predicate, each as often as in the input |
| Grouping.WhereAppend | TimeSync/Modules/TransferFromTogglCommand.cs:51 | filtering a concatenation filters each part in order, so the input order is kept |
| Domain.HoursConserved | TimeSync/Modules/TransferFromTogglCommand.cs:57-61 | grouping entries by any key neither creates nor loses hours |
| Domain.EntriesOn | TimeSync/Modules/TransferFromTogglCommand.cs:51 | the entries of one day: exactly the entries dated on it |
| Domain.EntriesOnCount | TimeSync/Modules/TransferFromTogglCommand.cs:51 | each entry of the day is kept as often as in the input, and no other is |
| Domain.EntriesOnAppend | TimeSync/Modules/TransferFromTogglCommand.cs:51 | a day's entries of a concatenation are each part's, in order |
| Domain.FirstRejected | TimeSync/Modules/TransferFromTogglCommand.cs:114-129 | the number of entries submitted before the first one the service throws on: all before it are accepted, the one at it is rejected |
| TransferFromToggl.TransferStart | TimeSync/Modules/TransferFromTogglCommand.cs:37-38 | the day after the last transfer when one is cached, otherwise today − 4 |
| TransferFromToggl.ProcessedDay | TimeSync/Modules/TransferFromTogglCommand.cs:47 | the processed day is an entry's day: the earliest when resuming, otherwise the latest |
| TransferFromToggl.DayQuarters | TimeSync/Modules/TransferFromTogglCommand.cs:57-63 | one quarter-hour sum per issue key, keys distinct |
| TransferFromToggl.DayQuartersTotal | TimeSync/Modules/TransferFromTogglCommand.cs:57-61 | the issues' quarter sums add up to four times the day's hours |
| TransferFromToggl.SumQuarterHours | TimeSync/Modules/TransferFromTogglCommand.cs:53-67 | the first loop builds the per-issue quarter sums, their total and the total of their floors |
| TransferFromToggl.RoundIssues | TimeSync/Modules/TransferFromTogglCommand.cs:71-77 | the second loop gives the p-th issue of the sorted order the ceiling while `toCeil` is positive, otherwise the floor; keys listed in that order; the map built is `UnitsMap` of the allotted units |
| TransferFromToggl.UnitsMapKeys | TimeSync/Modules/TransferFromTogglCommand.cs:69-77 | the rounded map holds exactly the scheduled issues |
| TransferFromToggl.UnitsMapAt | TimeSync/Modules/TransferFromTogglCommand.cs:69-77 | with distinct keys each issue maps to its own allotted units ÷ 4 |
| TransferFromToggl.AllocateQuarters | TimeSync/Modules/TransferFromTogglCommand.cs:53-77 | each issue receives its allotted quarters ÷ 4, with the deficit computed from the round-half-to-even total; the result is `RoundedTimes` of the day's entries, keys in schedule order |
| TransferFromToggl.RoundedTimes | TimeSync/Modules/TransferFromTogglCommand.cs:53-77 | the rounded map of a day holds exactly the issues of its schedule |
| TransferFromToggl.RoundedTimesAt | TimeSync/Modules/TransferFromTogglCommand.cs:53-77 | each scheduled issue of the day is rounded to its allotted quarters ÷ 4 |
| TransferFromToggl.DayTotalPreserved | TimeSync/Modules/TransferFromTogglCommand.cs:53-77 | the allotted quarters add up to round-half-to-even of 4 × the day's hours |
| TransferFromToggl.RoundedTotal | TimeSync/Modules/TransferFromTogglCommand.cs:69-77 | for any descending schedule the allotted units add up to the rounded total |
| TransferFromToggl.AllottedAt | TimeSync/Modules/TransferFromTogglCommand.cs:74-76 | position p gets the ceiling iff p < toCeil, otherwise the floor |
| TransferFromToggl.StopAnswer | TimeSync/Modules/TransferFromTogglCommand.cs:81-107 | the edit loop ends on an answer that is not an edit |
| TransferFromToggl.Review | TimeSync/Modules/TransferFromTogglCommand.cs:81-107 | fails iff an edit names an unknown issue; "don't transfer" gives no result; otherwise same issues, each with its last edited value or its allotted value |
| TransferFromToggl.ReviewAllocation | TimeSync/Modules/TransferFromTogglCommand.cs:81-107 | the override loop computes `Review` |
| TransferFromToggl.CreatedIssuesMembers | TimeSync/Modules/TransferFromTogglCommand.cs:114-117 | an issue is created iff its key is non-empty and its hours are non-zero |
| TransferFromToggl.CreatedIssuesAppend | TimeSync/Modules/TransferFromTogglCommand.cs:114-117 | the issues kept from a concatenation are those kept from each part, in order |
| TransferFromToggl.PlannedAppend | TimeSync/Modules/TransferFromTogglCommand.cs:114-129 | the entries planned for a concatenation of issues are each part's, in order |
| TransferFromToggl.PlannedAround | TimeSync/Modules/TransferFromTogglCommand.cs:114-129 | one issue contributes its own entry to the plan exactly when it is not skipped |
| TransferFromToggl.PlannedEntries | TimeSync/Modules/TransferFromTogglCommand.cs:114-129 | every planned entry is the registrant's, on the processed day, for a non-skipped issue, with its reviewed hours |
| TransferFromToggl.SubmitEntries | TimeSync/Modules/TransferFromTogglCommand.cs:114-129 | the planned entries are created in order up to the first one Tempo throws on; that exception is returned |
| TransferFromToggl.Execute | TimeSync/Modules/TransferFromTogglCommand.cs:19-133 | every outcome: the two missing-identity errors; nothing when the start is after today or no entries come back; the review's error; declined on "don't transfer"; otherwise the entries planned from the reviewed `RoundedTimes` of the processed day are created up to the first one Tempo throws on, and the day is cached only when all were created |
| Allocation.Fraction | TimeSync/Modules/TransferFromTogglCommand.cs:60-63 | the fraction lies in [0, 1) and leaves a whole number |
| Allocation.Ceiling | TimeSync/Modules/TransferFromTogglCommand.cs:74 | `Math.Ceiling`: x ≤ r < x + 1 |
| Allocation.RoundHalfEven | TimeSync/Modules/TransferFromTogglCommand.cs:69 | within ½ of x, and even on a tie |
| Allocation.RoundHalfEvenNearest | TimeSync/Modules/TransferFromTogglCommand.cs:69 | no integer is closer to x |
| Allocation.InsertDescending | TimeSync/Modules/TransferFromTogglCommand.cs:72 | insertion keeps the order descending and the multiset of the input |
| Allocation.OrderByFraction | TimeSync/Modules/TransferFromTogglCommand.cs:72 | `OrderByDescending(Fraction)`: descending and a permutation |
| Allocation.OrderByFractionStable | TimeSync/Modules/TransferFromTogglCommand.cs:72 | stable: issues with equal fractions keep their first-appearance order |
| Allocation.OrderByFractionSums | TimeSync/Modules/TransferFromTogglCommand.cs:72 | sorting keeps the quarter total and the floor total |
| Allocation.OrderByFractionDistinct | TimeSync/Modules/TransferFromTogglCommand.cs:72 | sorting keeps the keys distinct |
| Allocation.Allotted | TimeSync/Modules/TransferFromTogglCommand.cs:72-77 | each issue gets its floor or its ceiling, within one unit of its raw quarters; the ceiling iff it is among the first toCeil or has no fraction |
| Allocation.AllottedSum | TimeSync/Modules/TransferFromTogglCommand.cs:70-77 | with toCeil positive fractions in front, the units add up to the floors plus toCeil |
| Allocation.AllottedPastDeficit | TimeSync/Modules/TransferFromTogglCommand.cs:74-76 | a non-positive toCeil gives every issue its floor |
| Allocation.AllottedTotal | TimeSync/Modules/TransferFromTogglCommand.cs:69-77 | the deficit lies in [0, n], only issues with a fraction get the ceiling, and the total is the rounded sum |
| Allocation.PositivePrefix | TimeSync/Modules/TransferFromTogglCommand.cs:70-77 | the deficit never exceeds the number of issues with a positive fraction |
| Allocation.CeilingsGoFirst | TimeSync/Modules/TransferFromTogglCommand.cs:69-77 | the first `Deficit` issues of the sorted order get floor + 1, the rest their floor |
| Reconcile.DayHours | TimeSync/Modules/CompareCommand.cs:70-75 | the per-account sums of a day; fails with a duplicate key iff the day has both a null and a `""` account |
| Reconcile.DayAccounts | TimeSync/Modules/CompareCommand.cs:77 | strictly sorted union of both sides' accounts for the day |
| Reconcile.Render | TimeSync/Modules/CompareCommand.cs:84-85 | blank iff the sum is exactly 0, otherwise a sign and hundredths |
| Reconcile.RenderClose | TimeSync/Modules/CompareCommand.cs:84-85 | a shown value is within half a hundredth of the magnitude |
| Reconcile.DayRows | TimeSync/Modules/CompareCommand.cs:79-93 | one row per account, in the accounts' order |
| Reconcile.CompareRows | TimeSync/Modules/CompareCommand.cs:65-94 | fails iff some day has a duplicate key; otherwise rows sorted by day then account, and a row exists iff its day is in range and it is the row of that (day, account) |
| Reconcile.DayRowsMembers | TimeSync/Modules/CompareCommand.cs:70-93 | the rows of one day are exactly the listed (day, account) rows |
| Reconcile.AppendDayOrdered | TimeSync/Modules/CompareCommand.cs:65-77 | appending a later day's sorted rows keeps the table ordered |
| CompareCommand.Execute | TimeSync/Modules/CompareCommand.cs:35-99 | the day loop computes `CompareRows` |
| CompareCommand.AddDayRows | TimeSync/Modules/CompareCommand.cs:79-93 | the account loop appends the day's rows |
| CompareCommand.FirstErrorDecides | TimeSync/Modules/CompareCommand.cs:71-74 | a duplicate key on any day of the range makes the whole command fail |
| SyncReport.Classify | TimeSync/Modules/SyncCommand.cs:77-101 | agrees iff the renderings are equal; missing iff Toolkit is 0 and Tempo is not; differs otherwise |
| SyncReport.MissingOf | TimeSync/Modules/SyncCommand.cs:83-92 | exactly the accounts Toolkit lacks, with Tempo's hours |
| SyncReport.DiffsOf | TimeSync/Modules/SyncCommand.cs:93-102 | exactly the differing accounts, with Toolkit − Tempo |
| SyncReport.FindingsAt | TimeSync/Modules/SyncCommand.cs:58-104 | a day of the range is in each dictionary iff it has records of that kind, holding them |
| SyncReport.MissingClassified | TimeSync/Modules/SyncCommand.cs:58-104 | a missing record for (day, account) iff Toolkit's sum is 0, Tempo's is not, and the hours are Tempo's |
| SyncReport.DiffsClassified | TimeSync/Modules/SyncCommand.cs:58-104 | a difference record for (day, account) iff the renderings differ and Toolkit is not blank, holding Toolkit − Tempo |
| SyncReport.FindingsDays | TimeSync/Modules/SyncCommand.cs:58-104 | the days with records are days of the range, and their lists are non-empty |
| SyncReport.WeekStringInjective | TimeSync/Modules/SyncCommand.cs:240-244 | different weeks have different week strings |
| SyncReport.SameWeekString | TimeSync/Modules/SyncCommand.cs:240-244 | two dates share a week string iff they get the same year and week |
| SyncReport.MissingDays | TimeSync/Modules/SyncCommand.cs:139-147 | the days with missing registrations, ascending |
| SyncReport.TreeSums | TimeSync/Modules/SyncCommand.cs:144-154 | a week's hours are the sum of its days' hours, and a day's are the sum of its accounts' hours |
| SyncReport.TreeHoursConserved | TimeSync/Modules/SyncCommand.cs:131-157 | the weeks' hours add up to the missing hours of all listed days |
| SyncReport.WeeksByFirstDay | TimeSync/Modules/SyncCommand.cs:139-140 | weeks come out in the order of their first days |
| SyncReport.TreeDayListed | TimeSync/Modules/SyncCommand.cs:131-157 | every day node is the node of a listed day |
| SyncReport.TreeDayCovered | TimeSync/Modules/SyncCommand.cs:131-157 | every listed day has its node under its own week |
| SyncReport.LeavesAreMissing | TimeSync/Modules/SyncCommand.cs:131-157 | the leaves of the tree are exactly the missing registrations of the listed days |
| SyncCommand.ScanFailure | TimeSync/Modules/SyncCommand.cs:202-212 | the walk throws iff some group lacks the identification it reads |
| SyncCommand.ScanErrors | TimeSync/Modules/SyncCommand.cs:202-212 | otherwise there is one message per group without an account, naming its issue |
| SyncCommand.ScanTitleKeys | TimeSync/Modules/SyncCommand.cs:209-210 | a title is recorded iff some group has that account |
| SyncCommand.ScanTitleSource | TimeSync/Modules/SyncCommand.cs:209-210 | each title comes from the last group with that account |
| SyncCommand.NoErrorsIffAccounts | TimeSync/Modules/SyncCommand.cs:202-224 | an attempt reports nothing iff every entry has an account |
| SyncCommand.TitlesCoverAccounts | TimeSync/Modules/SyncCommand.cs:209-210 | after a clean attempt the titled accounts are exactly the entries' accounts |
| SyncCommand.RetriedEach | TimeSync/Modules/SyncCommand.cs:214-224 | every attempt before the returned one reported errors and was retried |
| SyncCommand.LastAttempt | TimeSync/Modules/SyncCommand.cs:192-228 | the returned attempt is the first that is not retried; every one before it was |
| SyncCommand.LastAttemptBound | TimeSync/Modules/SyncCommand.cs:214-222 | the retries end by the attempt after the operator's last answer |
| SyncCommand.HeadOf | TimeSync/Modules/SyncCommand.cs:195-210 | every entry's day and account group is visited through a first entry |
| SyncCommand.SyncRegistrant | TimeSync/Modules/SyncCommand.cs:28-41 | the registrant needs FullName and AtlassianID and carries both |
| SyncCommand.FindingsGrow | TimeSync/Modules/SyncCommand.cs:63-68 | a day with a duplicate key makes the whole comparison fail |
| SyncCommand.EmptyRange | TimeSync/Modules/SyncCommand.cs:58 | an empty range reports nothing |
| SyncCommand.Sync.constructor | TimeSync/Modules/SyncCommand.cs:20 | no titles recorded |
| SyncCommand.Sync.GetAccountTitle | TimeSync/Modules/SyncCommand.cs:187-190 | the recorded title, or the account itself |
| SyncCommand.Sync.CollectTitles | TimeSync/Modules/SyncCommand.cs:200-212 | the loop over days and groups fills `_accountTitles` and the messages as `Scan` says |
| SyncCommand.Sync.CollectDay | TimeSync/Modules/SyncCommand.cs:204-211 | one day's groups continue the walk |
| SyncCommand.Sync.GetTempoRegistrations | TimeSync/Modules/SyncCommand.cs:192-228 | returns from `LastAttempt`: retries while errors are reported and the answer is yes; throws on a missing identification or a declined retry; returns the entries of a clean attempt |
| SyncCommand.Sync.CompareDays | TimeSync/Modules/SyncCommand.cs:58-104 | the day loop computes `FindingsOver` |
| SyncCommand.Sync.RecordDay | TimeSync/Modules/SyncCommand.cs:58-104 | one iteration fails iff the day cannot be read, otherwise extends the walk |
| SyncCommand.Sync.CompareDay | TimeSync/Modules/SyncCommand.cs:60-103 | one day's differences and missing registrations, or the duplicate-key error |
| SyncCommand.Sync.CompareAccounts | TimeSync/Modules/SyncCommand.cs:70-102 | the account loop yields `DiffsOf` and `MissingOf` |
| SyncCommand.Sync.CompareAccount | TimeSync/Modules/SyncCommand.cs:74-102 | at most one record per account, per `Classify` |
| SyncCommand.Sync.CreatePicked | TimeSync/Modules/SyncCommand.cs:159-174 | one Toolkit entry per picked leaf, in order, titled with `GetAccountTitle`, up to the first one Toolkit throws on; that exception is returned |
| SyncCommand.Sync.Execute | TimeSync/Modules/SyncCommand.cs:22-185 | every outcome: registrant errors; the titles and errors of the `LastAttempt` attempt; the comparison's error; stops over differences unless the answer is "y"; nothing missing; otherwise the picked leaves of the week tree are created in order up to the first one Toolkit throws on; picked leaves are missing registrations |
| DateUtil.GetWeekNumber | TimeSync/Utils/DateUtil.cs:7-15 | the week is the raw week; a January week above 6 is the previous year's, a December week below 6 the next year's |
| DateUtil.CsDivModNonNegative | TimeSync/Utils/DateUtil.cs:19-25 | for non-negative operands C# `/` and `%` agree with Euclidean division |
| DateUtil.JdnPositive | TimeSync/Utils/DateUtil.cs:19-22 | for positive years the day number is positive and the formula agrees with floor division |
| DateUtil.WeekOfJdnRange | TimeSync/Utils/DateUtil.cs:23-26 | `d1` lies in [0, 365], so the week lies in [1, 53] |
| DateUtil.WeekNumberRange | TimeSync/Utils/DateUtil.cs:17-27 | every date of a positive year has a week in [1, 53] |
| DateUtil.WeekNumberYear | TimeSync/Utils/DateUtil.cs:7-15 | the returned year is within one of the date's year |
| DateUtil.JdnSuccessor | TimeSync/Utils/DateUtil.cs:19-22 | the next calendar day has the next day number |
| DateUtil.SameWeekMondayToSunday | TimeSync/Utils/DateUtil.cs:23-26 | days of the same Monday-to-Sunday block share a week number |
| CacheUtil.Store | TimeSync/Utils/CacheUtil.cs:22 | the key reads back the stored value, null included; every other key is unchanged |
| CacheUtil.Cache.constructor | TimeSync/Utils/CacheUtil.cs:9 | nothing loaded yet |
| CacheUtil.Cache.EnsureRead | TimeSync/Utils/CacheUtil.cs:35-50 | loads at most once, creating an empty file when missing; contents unchanged |
| CacheUtil.Cache.Get | TimeSync/Utils/CacheUtil.cs:11-16 | reads the key; nothing changes |
| CacheUtil.Cache.Set | TimeSync/Utils/CacheUtil.cs:18-26 | the contents become `Store(old, key, value)`, persisted copy included |
| CacheUtil.Cache.Clear | TimeSync/Utils/CacheUtil.cs:28-33 | every key reads null, in memory and on disk |
| TempoProvider.SecretRoundTrip | TimeSync/Tempo/TempoTimeProvider.cs:36-41 | two accepted tokens make an accepted secret that splits back into the same tokens |
| TempoProvider.SecretParse | TimeSync/Tempo/TempoTimeProvider.cs:36-41 | every accepted secret splits into exactly two valid tokens |
| TempoProvider.OpenAccounts | TimeSync/Tempo/TempoTimeProvider.cs:284-294 | only open accounts enter the map, and every open account does |
| TempoProvider.OpenAccountsLastWins | TimeSync/Tempo/TempoTimeProvider.cs:290-294 | an id maps to the key of its last open account |
| TempoProvider.InvoiceAccountResolution | TimeSync/Tempo/TempoTimeProvider.cs:306-315 | the mapped key of an open account; otherwise the first word of the account text; otherwise null |
| TempoProvider.IssueIds | TimeSync/Tempo/TempoTimeProvider.cs:305-319 | the four identifications recorded for an issue |
| TempoProvider.WorklogHours | TimeSync/Tempo/TempoTimeProvider.cs:171 | non-negative seconds give non-negative hours |
| TempoProvider.SecondsRoundTrip | TimeSync/Tempo/TempoTimeProvider.cs:209 | posting fetched hours sends back the worklog's own seconds |
| TempoProvider.HoursRoundTrip | TimeSync/Tempo/TempoTimeProvider.cs:171 | posted seconds read back give the entry's hours |
| TempoProvider.CollectOpenAccounts | TimeSync/Tempo/TempoTimeProvider.cs:290-294 | the account loop computes `OpenAccounts` |
| TempoProvider.Tempo.constructor | TimeSync/Tempo/TempoTimeProvider.cs:18-22 | uninitialised, no credentials, no memos |
| TempoProvider.Tempo.Initialize | TimeSync/Tempo/TempoTimeProvider.cs:27-45 | fails iff JiraUrl is missing or the secret does not match; on success the tokens are the secret's two halves |
| TempoProvider.Tempo.IsAuthenticated | TimeSync/Tempo/TempoTimeProvider.cs:99-138 | a remembered success is returned unchecked; false without email or tokens; the memo only becomes true |
| TempoProvider.Tempo.AskUserForCredentials | TimeSync/Tempo/TempoTimeProvider.cs:47-77 | invalid tokens fail; valid ones are stored, and credentials are returned iff authentication succeeds |
| TempoProvider.Tempo.GetLoggedInIdentity | TimeSync/Tempo/TempoTimeProvider.cs:79-96 | the AtlassianID of the signed-in user, only when authenticated |
| TempoProvider.Tempo.GetAccountIdentifications | TimeSync/Tempo/TempoTimeProvider.cs:273-325 | fails, with the request error, iff no account map is known and the account request fails; a memoised issue is answered from the memo; a new one is computed once and remembered |
| TempoProvider.Tempo.LoadAccountIds | TimeSync/Tempo/TempoTimeProvider.cs:275-278 | the per-issue memo from memory, else the cache, else empty |
| TempoProvider.Tempo.LoadAccounts | TimeSync/Tempo/TempoTimeProvider.cs:280-295 | the account map from memory, else the cache, else the fetched list filtered to open accounts |
| TempoProvider.Tempo.FlushAccountIdentificationsCache | TimeSync/Tempo/TempoTimeProvider.cs:335-341 | writes only the memos that are loaded; other keys unchanged |
| TempoProvider.Tempo.ClearAccountIdentificationsCache | TimeSync/Tempo/TempoTimeProvider.cs:327-333 | both memos reset and both cache keys null |
| TempoProvider.Tempo.GetTimeRegistrationEntries | TimeSync/Tempo/TempoTimeProvider.cs:140-178 | each error and when it happens: not initialized, not authenticated, no AtlassianID, the worklog request failing, the account request failing when the first worklog needs it; otherwise one entry per worklog with its issue's identifications; the memo only grows and is flushed |
| TempoProvider.Tempo.CreateTimeRegistrationEntry | TimeSync/Tempo/TempoTimeProvider.cs:190-223 | needs authentication, an AtlassianID and a JiraIssueKey; posts hours × 3600 seconds |
| JiraIssueKey.JiraKeyOf | TimeSync/TogglTrack/TogglTrackTimeProvider.cs:146-147 | a found key is an issue key and the description starts with it and a space |
| JiraIssueKey.JiraKeyFound | TimeSync/TogglTrack/TogglTrackTimeProvider.cs:146-147 | a description starting with a key and a space yields exactly that key |
| JiraIssueKey.JiraKeyIff | TimeSync/TogglTrack/TogglTrackTimeProvider.cs:146-147 | a key is found iff the description starts with some key and a space |
| TogglProvider.HoursAdd | TimeSync/TogglTrack/TogglTrackTimeProvider.cs:152 | hours add up like milliseconds |
| TogglProvider.SumOfHours | TimeSync/TogglTrack/TogglTrackTimeProvider.cs:152 | summing hours is converting the summed milliseconds |
| TogglProvider.QuarterUnits | TimeSync/TogglTrack/TogglTrackTimeProvider.cs:152 | quarter units are `ms / 900000` whole units plus `ms % 900000` as the fraction |
| TogglProvider.TogglEntry | TimeSync/TogglTrack/TogglTrackTimeProvider.cs:145-163 | hours are ms ÷ 3,600,000; the description is always recorded; the key iff one is found |
| TogglProvider.ConvertAllMeaning | TimeSync/TogglTrack/TogglTrackTimeProvider.cs:143-164 | converting succeeds iff every row has a description, row by row |
| TogglProvider.ConvertAllAppend | TimeSync/TogglTrack/TogglTrackTimeProvider.cs:143-164 | converting two runs of rows converts each run |
| TogglProvider.FetchDone | TimeSync/TogglTrack/TogglTrackTimeProvider.cs:128-167 | a finished loop has read pages 1 to the last, continuing only while the count is below `total_count` and the page is non-empty |
| TogglProvider.FetchPages | TimeSync/TogglTrack/TogglTrackTimeProvider.cs:126-168 | the page loop either completes or fails at a page after every earlier page succeeded |
| TogglProvider.FetchPage | TimeSync/TogglTrack/TogglTrackTimeProvider.cs:132-167 | one iteration: it fails there, or it advances the loop and grows the entries when more pages follow |
| TogglProvider.ReadPage | TimeSync/TogglTrack/TogglTrackTimeProvider.cs:139-164 | a page is read iff it arrives and its rows convert |
| TogglProvider.ConvertPage | TimeSync/TogglTrack/TogglTrackTimeProvider.cs:143-164 | the row loop computes `ConvertAll` |
| TogglProvider.Toggl.constructor | TimeSync/TogglTrack/TogglTrackTimeProvider.cs:16-19 | uninitialised, no token, no memo |
| TogglProvider.Toggl.Initialize | TimeSync/TogglTrack/TogglTrackTimeProvider.cs:21-37 | fails iff TogglApiUrl is missing or the secret is not non-empty ASCII alphanumeric |
| TogglProvider.Toggl.IsAuthenticated | TimeSync/TogglTrack/TogglTrackTimeProvider.cs:86-113 | a remembered success is returned unchecked; the memo only becomes true |
| TogglProvider.Toggl.AskUserForCredentials | TimeSync/TogglTrack/TogglTrackTimeProvider.cs:39-64 | invalid tokens fail; the setup flag is cached only after successful authentication |
| TogglProvider.Toggl.AwaitsSetup | TimeSync/TogglTrack/TogglTrackTimeProvider.cs:187-191 | true unless the setup flag is cached as true |
| TogglProvider.Toggl.GetLoggedInIdentity | TimeSync/TogglTrack/TogglTrackTimeProvider.cs:66-84 | the first workspace's id, only when authenticated |
| TogglProvider.Toggl.GetTimeRegistrationEntries | TimeSync/TogglTrack/TogglTrackTimeProvider.cs:115-171 | needs authentication and a TogglWorkspace; the entries are those of the completed page loop |
| TogglProvider.Toggl.CreateTimeRegistrationEntry | TimeSync/TogglTrack/TogglTrackTimeProvider.cs:178-181 | always not implemented |
| ToolkitProvider.CollectOk | TimeSync/Toolkit/ToolkitTimeProvider.cs:585-597 | a dictionary-filling loop succeeds iff no element throws |
| ToolkitProvider.CollectLastWins | TimeSync/Toolkit/ToolkitTimeProvider.cs:585-597 | each key holds the value of the last element that set it |
| ToolkitProvider.StateCode | TimeSync/Toolkit/ToolkitTimeProvider.cs:531-538 | a code exists iff the state starts with digits and white space; parsing may throw |
| ToolkitProvider.SpecBelow | TimeSync/Toolkit/ToolkitTimeProvider.cs:542-546 | "<n" admits exactly codes below n |
| ToolkitProvider.SpecAbove | TimeSync/Toolkit/ToolkitTimeProvider.cs:547-551 | ">n" admits exactly codes above n |
| ToolkitProvider.SpecEquals | TimeSync/Toolkit/ToolkitTimeProvider.cs:552-556 | a plain number admits exactly that code |
| ToolkitProvider.FirstMatchMeaning | TimeSync/Toolkit/ToolkitTimeProvider.cs:540-559 | true iff some spec holds and all earlier ones run and fail; false iff all fail |
| ToolkitProvider.IsValidState | TimeSync/Toolkit/ToolkitTimeProvider.cs:529-560 | null or no leading code is invalid; otherwise the specs decide in order |
| ToolkitProvider.RowPairMeaning | TimeSync/Toolkit/ToolkitTimeProvider.cs:585-597 | a row contributes iff its state is valid |
| ToolkitProvider.RefreshFails | TimeSync/Toolkit/ToolkitTimeProvider.cs:585-597 | a refresh throws iff some row's state cannot be read |
| ToolkitProvider.RefreshKeepsValid | TimeSync/Toolkit/ToolkitTimeProvider.cs:585-597 | every row with a valid state is kept |
| ToolkitProvider.RefreshOnlyValid | TimeSync/Toolkit/ToolkitTimeProvider.cs:585-597 | each kept id holds the last valid row with that id |
| ToolkitProvider.CollectValid | TimeSync/Toolkit/ToolkitTimeProvider.cs:585-597 | the refresh loop computes `ValidItems` |
| ToolkitProvider.OnlyNewHasAccount | TimeSync/Toolkit/ToolkitTimeProvider.cs:328-333 | after creation the new item is the only one booked on the account |
| ToolkitProvider.DefaultValue | TimeSync/Toolkit/ToolkitTimeProvider.cs:486-512 | Choice/Text write the text; a Lookup reads a number or the cached id of a prompted list; unknown types throw |
| ToolkitProvider.LookupByNumber | TimeSync/Toolkit/ToolkitTimeProvider.cs:497-500 | a numeric Lookup default is that item id |
| ToolkitProvider.LookupByPrompt | TimeSync/Toolkit/ToolkitTimeProvider.cs:492-496 | a "PromptFromList:" default, in any case, reads the cached id of the list after the prefix |
| ToolkitProvider.DefaultsFail | TimeSync/Toolkit/ToolkitTimeProvider.cs:484-513 | setting the defaults throws iff one of them throws |
| ToolkitProvider.DefaultsCoverFields | TimeSync/Toolkit/ToolkitTimeProvider.cs:484-513 | the fields written are exactly the configured fields |
| ToolkitProvider.DefaultsLastWins | TimeSync/Toolkit/ToolkitTimeProvider.cs:484-513 | each field holds the value of the last default naming it |
| ToolkitProvider.AssignDefaults | TimeSync/Toolkit/ToolkitTimeProvider.cs:484-513 | the defaults loop computes `DefaultFields` |
| ToolkitProvider.PromptedKeys | TimeSync/Toolkit/ToolkitTimeProvider.cs:356-393 | after prompting, the choices are the cached ones plus every prompted list |
| ToolkitProvider.PromptedValues | TimeSync/Toolkit/ToolkitTimeProvider.cs:363-364 | with onlyMissing no cached choice changes; an asked list holds the picked id |
| ToolkitProvider.PromptedAdds | TimeSync/Toolkit/ToolkitTimeProvider.cs:356-396 | something is added iff some prompted list is asked about |
| ToolkitProvider.CaseTitle | TimeSync/Toolkit/ToolkitTimeProvider.cs:428-430 | null text throws; the title is the text when it starts with "{account} ", otherwise exactly "{account} - {text}" |
| ToolkitProvider.FindOutcome | TimeSync/Toolkit/ToolkitTimeProvider.cs:323-345 | finding an item succeeds exactly when the cache or the refreshed list holds one, or creation succeeds; otherwise the refresh's or the creation's error |
| ToolkitProvider.Find | TimeSync/Toolkit/ToolkitTimeProvider.cs:323-345 | succeeds exactly when `FindOutcome` is done and fails with its error; on success the dictionary holds an item for the account and is what the cache then holds under the key; no other key changes |
| ToolkitProvider.FindSteps | TimeSync/Toolkit/ToolkitTimeProvider.cs:323-345 | branch by branch: a cache hit returns the cached dictionary and changes nothing; a failing refresh throws its error and changes nothing; a refreshed list with the account is stored and returned; otherwise the refreshed list is stored and either the creation's error is thrown or the created item joins it under the new id, as the only item for the account |
| ToolkitProvider.EntryTargets | TimeSync/Toolkit/ToolkitTimeProvider.cs:310-317 | null entry, missing InvoiceAccount, InvoiceAccountText or FullName each throw their own error |
| ToolkitProvider.RowEntry | TimeSync/Toolkit/ToolkitTimeProvider.cs:289-295 | a registration row becomes an entry with its hours, day, case title and account |
| ToolkitProvider.Toolkit.constructor | TimeSync/Toolkit/ToolkitTimeProvider.cs:18-22 | uninitialised, no list, no user |
| ToolkitProvider.Toolkit.Initialize | TimeSync/Toolkit/ToolkitTimeProvider.cs:24-41 | initialised, with the list loaded iff found |
| ToolkitProvider.Toolkit.IsAuthenticated | TimeSync/Toolkit/ToolkitTimeProvider.cs:223-229 | throws before initialisation, otherwise whether the list is loaded |
| ToolkitProvider.Toolkit.AskUserForCredentials | TimeSync/Toolkit/ToolkitTimeProvider.cs:156-188 | throws before initialisation, otherwise reloads the list and returns no credentials |
| ToolkitProvider.Toolkit.CurrentUser | TimeSync/Toolkit/ToolkitTimeProvider.cs:207-221 | asks the server only the first time |
| ToolkitProvider.Toolkit.GetLoggedInIdentity | TimeSync/Toolkit/ToolkitTimeProvider.cs:190-204 | FullName of the current user, after the initialisation and authentication checks |
| ToolkitProvider.Toolkit.GetTimeRegistrationEntries | TimeSync/Toolkit/ToolkitTimeProvider.cs:231-296 | the three precondition errors; otherwise one entry per row |
| ToolkitProvider.Toolkit.GetItems | TimeSync/Toolkit/ToolkitTimeProvider.cs:562-601 | a cached dictionary without force is returned as is; otherwise refreshed and written to the cache |
| ToolkitProvider.Toolkit.GetCases | TimeSync/Toolkit/ToolkitTimeProvider.cs:562-601 | as `GetItems` for the cases |
| ToolkitProvider.Toolkit.GetWorkPackages | TimeSync/Toolkit/ToolkitTimeProvider.cs:603-655 | as `GetItems` for the user's work packages |
| ToolkitProvider.Toolkit.SetDefaultValues | TimeSync/Toolkit/ToolkitTimeProvider.cs:479-514 | `DefaultFields` over the cached choices; the cache is unchanged |
| ToolkitProvider.AskDefaults | TimeSync/Toolkit/ToolkitTimeProvider.cs:356-393 | the loop computes exactly `Prompted`: the choices and whether any was added |
| ToolkitProvider.Toolkit.PromptDefaultValues | TimeSync/Toolkit/ToolkitTimeProvider.cs:350-397 | the choices become `Prompted`, written only when something was added |
| ToolkitProvider.Toolkit.CreateCase | TimeSync/Toolkit/ToolkitTimeProvider.cs:426-451 | the defaults plus title and PO number; the new case is added to the cached cases; a null text, an unresolvable default or a failing list read throws, in that order, and leaves the cache alone |
| ToolkitProvider.Toolkit.CaseFields | TimeSync/Toolkit/ToolkitTimeProvider.cs:428-441 | fails exactly as `CaseCreation` says, with its error; otherwise the title and the defaults with title and PO number set; the cache is not changed |
| ToolkitProvider.Toolkit.CreateWorkPackage | TimeSync/Toolkit/ToolkitTimeProvider.cs:453-477 | the defaults plus title, assignee and case; the new package is added to the cached packages; an unresolvable default or a failing list read throws, in that order, and leaves the cache alone |
| ToolkitProvider.Toolkit.LookupAccount | TimeSync/Toolkit/ToolkitTimeProvider.cs:324-326 | the cached dictionary when it has the account, else a forced refresh |
| ToolkitProvider.Toolkit.FindCase | TimeSync/Toolkit/ToolkitTimeProvider.cs:323-333 | the result and the new cache are exactly those of `Find` over the cached cases, the refreshed case list and `CaseCreation`; the returned case is in the found dictionary and booked on the account |
| ToolkitProvider.Toolkit.AddCase | TimeSync/Toolkit/ToolkitTimeProvider.cs:328-332 | create, then re-read: the cache gains exactly the new case; throws exactly what creating the case throws |
| ToolkitProvider.Toolkit.FindWorkPackage | TimeSync/Toolkit/ToolkitTimeProvider.cs:335-345 | the same relation to `Find` for the user's work packages, with `WorkPackageCreation` and a package titled like the case |
| ToolkitProvider.Toolkit.AddWorkPackage | TimeSync/Toolkit/ToolkitTimeProvider.cs:340-344 | create, then re-read: the cache gains exactly the new package; throws exactly what creating the package throws |
| ToolkitProvider.Toolkit.CreateTimeRegistrationEntry | TimeSync/Toolkit/ToolkitTimeProvider.cs:308-348 | the entry checks and the current-user check; past them it succeeds exactly when both finds succeed, and throws the case's error first; only the cases and the user's work packages in the cache change; with both already cached it succeeds and changes nothing; on success the case and package are booked on the entry's account and the registration has its hours and day |
| Text.ParseIntString | TimeSync/Toolkit/ToolkitTimeProvider.cs:534-538 | `int.Parse` reads back every 32-bit value from its decimal string |
| Text.SortDistinct | TimeSync/Modules/CompareCommand.cs:77 | `Distinct().OrderBy`: strictly sorted, exactly the input's elements |
| Text.StrictlySortedUnique | TimeSync/Modules/CompareCommand.cs:77 | a strictly sorted sequence is determined by its elements |
| Text.SplitAt | TimeSync/Tempo/TempoTimeProvider.cs:39-41 | the first separator ends the first piece |

## Left out

- SharePoint CSOM, CAML, HTTP, RestSharp and JSON parsing are not modelled: what a request returns is a parameter (a fetched list, a page, an id, the signed-in user, whether a server answered). The browser login, cookies and `InitializeList` are not modelled.
- Console prompts and output are not modelled: operator answers, picks and override values are parameters, and tables and markup are not produced.
- Command wiring, provider discovery, the credential manager and configuration loading are not modelled. The configuration arrives as a map or a settings value.
- Dates are integer day numbers, and the current date is a parameter. Time of day, time zones, `ToLocalTime` and `DateTime` bounds are not modelled. `SanitizeDateTime` is not modelled.
- Hours are exact reals, not IEEE doubles: summation drift is absent, and `Math.Abs(x) < Double.Epsilon` is `x == 0`. `"F2"` is modelled as a sign plus hundredths rounded half away from zero; .NET's own formatting rules are not modelled.
- Culture-sensitive string order is modelled as ordinal order on characters, and `StartsWith(..., CurrentCultureIgnoreCase)` as ASCII case folding.
- The .NET regex engine is replaced by hand-written predicates for the four patterns. `$` accepting a final newline is not modelled.
- `Text.ParseDecimal`: the "Number" default is read from plain decimal notation only; exponents, group separators and culture formats are not modelled.
- The cache stores typed values; their JSON encoding and a corrupt cache file are not modelled. File I/O errors are not modelled.
- `ToolkitProvider.Toolkit.FindCase`: `First(...)` over the dictionary is modelled as any item booked on the account, because the model's maps have no enumeration order.
- `ToolkitProvider.Toolkit.CreateWorkPackage`: the start and due dates written to a new work package are not modelled.
- `ToolkitProvider.Toolkit.CreateTimeRegistrationEntry`: the case and work-package lists are each one snapshot per call, so a list that changes between the lookups inside one call is not modelled.
- `ToolkitProvider.Toolkit.PromptDefaultValues`: the item the operator picks for a list is a function of the list's name.
- Null strings in the Toolkit settings and in descriptions other than Toggl's are not modelled.
- `TempoProvider.Tempo.GetTimeRegistrationEntries`: the issue behind a worklog URL is a function of the URL, so the issue cannot change between requests.
- Concurrency is not modelled: the cache and provider fields are used by one thread.
- `TransferFromToggl.Execute`: the per-issue description strings shown in the prompt are not modelled. Only the values and the chosen issue matter to the outcome.
- `SyncCommand.Sync.Execute`: the window's start and end are parameters, not computed from today, and each day's calendar date is supplied by a function.
- `SyncCommand.Sync.Execute`: the calls to `ClearAccountIdentificationsCache` at SyncCommand.cs lines 31 and 220 are not made. Each Tempo attempt's entries are the parameter `fetchTempo`, so the provider's memo and cache are not involved. The clearing itself is `TempoProvider.Tempo.ClearAccountIdentificationsCache`. Failures of the two providers' entry requests are not modelled either: the entries are parameters.
- `SyncCommand.Sync.GetTempoRegistrations`: does not clear the Tempo account cache before a retry (SyncCommand.cs line 220). The next attempt's entries are `fetchTempo(attempt + 1)`.
- `TransferFromToggl.Execute`: Toggl's entries are the parameter `fetch`, so a failing Toggl request is not modelled. Tempo's rejection of an entry is the parameter `rejects`, and `TempoProvider.Tempo.CreateTimeRegistrationEntry` is not called.
- `Text.IsRegexSpace`: covers `\s` only in the Latin-1 range. .NET's `\s` also matches the other Unicode separators, which are not modelled.
- `ToolkitProvider`: the culture-sensitive `StartsWith(string)` at ToolkitTimeProvider.cs lines 429, 542 and 547 is modelled as an ordinal prefix test.
