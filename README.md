# CronOps dashboard core in Dafny

CronOps is a cron-job service. This directory covers only its web dashboard,
which calls a REST backend that is not modelled here. What is modelled is the
deterministic logic the dashboard runs in the browser:

- **Chart aggregation** (`execution_charts.dfy`, `admin_analytics.dfy`,
  `analytics.dfy`). The execution logs are first filtered to a time window.
  They then feed a zero-initialised daily series (oldest day first), a
  Success/Failed/Running breakdown and a 24-slot hourly histogram. The admin
  page also derives a plan distribution and a cumulative user-growth series.
  The map-filling loops are methods, proved equal to reference functions, and
  the counting laws are proved about those functions.
- **Admin cache store** (`admin_store.dfy`). A class with the store's 14
  fields. Caching follows a 5-minute freshness rule with a force flag, an
  in-flight guard and a bypass when the status filter changes. Each fetch has
  two steps: a decision, then the settling of the response. Cached users can
  be merged or removed by id, and `clearAll` resets the store.
- **OTP entry** (`otp_entry.dfy`). Six slots in an array, edited by typing
  and by paste. The model also covers focus, backspace, the submit gate and
  the resend countdown.
- **Password reset** (`reset_password.dfy`). The length and composition
  rules, with the regular expression's lookaheads modelled line by line; the
  confirmation check; the submit guards; and per-field error clearing.
- **New job** (`new_job.dfy`). Form defaults, the editable header rows, the
  header dictionary, and the create payload chosen by job type.
- **List pages** (`jobs_list.dfy`, `logs_page.dfy`, `admin_users.dfy`,
  `admin_jobs.dfy`, `admin_access.dfy`). Toggling and deleting by id,
  case-insensitive searches, query parameters, pagination clamps, the status
  badge, the response preview, role changes and the self-row rule. The admin
  jobs view asks the cache store for jobs.
- **Session and plans** (`auth_store.dfy`, `pricing.dfy`). The auth store is
  a class over `user`, `isAuthenticated`, `isLoading` and a key-value token
  storage. The pricing page covers the plan table, the current-plan rule, the
  button state and the upgrade flag.

`common.dfy` holds the shared pieces: options and results, the user record,
ASCII lower-casing, `includes`, JavaScript `trim`, order-preserving `filter`
and subsequences.

Clocks, locales and the network are parameters:

- `now`, and each response's arrival time `at`, are integers in
  milliseconds.
- `toLocaleDateString` and `getHours` are the functions `dayKey` and
  `hourOf`. `hourOf` returns 0..23.
- API outcomes are `Result` values, or booleans for calls with no payload.

## Model

| member | source | states |
|---|---|---|
| ExecutionCharts.WindowStart | src/app/admin/analytics/page.tsx:110 | `now - timeRange` days, in milliseconds (a definition) |
| ExecutionCharts.FilterWindow | src/app/admin/analytics/page.tsx:110-114 | a log is kept iff its startedAt is at or after the window start (inclusive), each such log as often as it occurs, in original order |
| ExecutionCharts.KeyOrder | src/app/admin/analytics/page.tsx:117-122 | a Map's keys after repeated `set`: distinct, exactly the keys set, first-set first |
| ExecutionCharts.DayKeys | src/app/admin/analytics/page.tsx:117-122 | the dailyMap's keys: the day keys of today back to timeRange - 1 days ago, in insertion order (a definition) |
| ExecutionCharts.BucketOf | src/app/admin/analytics/page.tsx:124-136 | a day's bucket carries its key and success + failed <= total <= number of logs |
| ExecutionCharts.Buckets | src/app/admin/analytics/page.tsx:138 | one bucket per key, bucket j is the bucket of key j |
| ExecutionCharts.DailySeries | src/app/admin/analytics/page.tsx:138 | `Array.from(dailyMap.values()).reverse()` (a definition) |
| ExecutionCharts.InitDailyMap | src/app/admin/analytics/page.tsx:117-122 | the first loop yields the window's day keys, each mapped to a zero bucket |
| ExecutionCharts.CountDaily | src/app/admin/analytics/page.tsx:124-136 | the counting loop keeps the keys and leaves each entry equal to the bucket of the logs on that day; logs on other days are dropped |
| ExecutionCharts.BuildDaily | src/app/admin/analytics/page.tsx:117-138 | the daily series equals the map's values reversed |
| ExecutionCharts.DailyShape | src/app/admin/analytics/page.tsx:117-138 | one bucket per distinct day key of the last timeRange days, at most timeRange of them, oldest first, today's last |
| ExecutionCharts.BucketZeroWithoutLogs | src/app/admin/analytics/page.tsx:121 | a day with no log keeps its zero bucket |
| ExecutionCharts.BucketTotalCountsDay | src/app/admin/analytics/page.tsx:127-129 | a bucket's total is the number of logs on its day |
| ExecutionCharts.BucketKindsCountDay | src/app/admin/analytics/page.tsx:128-134 | a bucket's success count is the number of that day's logs classified success, its failed count those classified failed |
| ExecutionCharts.SumTotalsReverse | src/app/admin/analytics/page.tsx:138 | reversing the series keeps the sum of totals |
| ExecutionCharts.SumTotalsAppend | src/app/admin/analytics/page.tsx:138 | the sum of totals distributes over concatenation |
| ExecutionCharts.SumTotalsStep | src/app/admin/analytics/page.tsx:126-129 | one more log raises the sum of totals by one iff its day has a bucket |
| ExecutionCharts.DailyTotalsCountMatchedLogs | src/app/admin/analytics/page.tsx:124-138 | the daily totals sum to the number of logs whose day has a bucket: none counted twice, unmatched ones dropped |
| ExecutionCharts.BucketsEmptySum | src/app/admin/analytics/page.tsx:121 | with no logs every total is zero |
| ExecutionCharts.CountKind | src/app/admin/analytics/page.tsx:143-146 | a status count is at most the number of logs |
| ExecutionCharts.KindsPartitionLogs | src/app/admin/analytics/page.tsx:141-147 | the success, failed and running counts sum to the number of logs |
| ExecutionCharts.NonZero | src/app/admin/analytics/page.tsx:153 | keeps the slices with a positive value, each as often as it occurs, in order |
| ExecutionCharts.NonZeroKeepsSum | src/app/admin/analytics/page.tsx:153 | dropping empty slices keeps the sum |
| ExecutionCharts.StatusSlices | src/app/admin/analytics/page.tsx:141-153 | the Success, Failed and Running slices in that order, without empty ones (a definition) |
| ExecutionCharts.StatusSlicesSum | src/app/admin/analytics/page.tsx:141-153 | the breakdown sums to the number of filtered logs and has no zero slice |
| ExecutionCharts.BuildStatusBreakdown | src/app/admin/analytics/page.tsx:141-153 | the counter loop yields the Success, Failed, Running slices without empty ones |
| ExecutionCharts.HourLabel | src/app/admin/analytics/page.tsx:164-167 | the label of an hour is "h:00", 4 or 5 characters |
| ExecutionCharts.HourLabelInjective | src/app/admin/analytics/page.tsx:164-167 | different hours get different labels |
| ExecutionCharts.HourTally | src/app/admin/analytics/page.tsx:160-163 | an hour's count is at most the number of logs |
| ExecutionCharts.HourlySeries | src/app/admin/analytics/page.tsx:156-167 | the histogram has exactly 24 entries |
| ExecutionCharts.SumExecutionsBump | src/app/admin/analytics/page.tsx:162 | raising one entry by one raises the sum by one |
| ExecutionCharts.SumExecutionsSame | src/app/admin/analytics/page.tsx:164 | entries with equal counts have equal sums |
| ExecutionCharts.HourlySumsToCount | src/app/admin/analytics/page.tsx:156-167 | the 24 counts sum to the number of filtered logs |
| ExecutionCharts.SumExecutionsZero | src/app/admin/analytics/page.tsx:157-159 | zero-initialised hours sum to zero |
| ExecutionCharts.BuildHourly | src/app/admin/analytics/page.tsx:156-167 | the hourly loop yields hours 0..23 in order, labelled "h:00", each with its count |
| AdminAnalytics.EffectivePlan | src/app/admin/analytics/page.tsx:173 | a missing or empty plan counts as FREE, any other plan is the user's own |
| AdminAnalytics.CountPlan | src/app/admin/analytics/page.tsx:172-177 | a plan's count is at most the number of users |
| AdminAnalytics.KnownPlansPartition | src/app/admin/analytics/page.tsx:171-177 | FREE, PREMIUM and PRO counts sum to the users whose effective plan is one of the three; unrecognised plans are ignored |
| AdminAnalytics.PlanSlices | src/app/admin/analytics/page.tsx:171-182 | the Free, Premium and Pro slices in that order, without empty ones (a definition) |
| AdminAnalytics.PlanSlicesCountKnownPlans | src/app/admin/analytics/page.tsx:171-182 | the distribution sums to the users on known plans and has no zero slice |
| AdminAnalytics.BuildPlanDistribution | src/app/admin/analytics/page.tsx:170-182 | the counting loop yields the Free, Premium, Pro slices without empty ones |
| AdminAnalytics.CreatedBefore | src/app/admin/analytics/page.tsx:192-198 | the users created before the window start, at most all users |
| AdminAnalytics.CreatedOn | src/app/admin/analytics/page.tsx:200-210 | the users created on a day, at most all users |
| AdminAnalytics.GrowthSeries | src/app/admin/analytics/page.tsx:200-215 | one point per date, each point the base plus the users created on that and earlier dates |
| AdminAnalytics.GrowthSeriesAt | src/app/admin/analytics/page.tsx:209-215 | the value of point j of the growth series |
| AdminAnalytics.CreatedOnFirstMonotone | src/app/admin/analytics/page.tsx:204-209 | the running count never falls along the dates |
| AdminAnalytics.UserGrowth | src/app/admin/analytics/page.tsx:185-215 | the growth series over the window's days, oldest first, from the users created before the window (a definition) |
| AdminAnalytics.UserGrowthNonDecreasing | src/app/admin/analytics/page.tsx:185-215 | the growth series is non-decreasing, starts at least at the users created before the window, and runs over the window's day keys oldest first |
| AdminAnalytics.AddCreatedOn | src/app/admin/analytics/page.tsx:203-208 | the inner loop adds the users created on one day to the running count |
| AdminAnalytics.InitGrowthMap | src/app/admin/analytics/page.tsx:186-190 | the growth map has exactly the window's day keys |
| AdminAnalytics.CountCreatedBefore | src/app/admin/analytics/page.tsx:192-198 | the first loop counts the users created before the window |
| AdminAnalytics.AccumulateGrowth | src/app/admin/analytics/page.tsx:200-215 | the date loop yields the growth series |
| AdminAnalytics.BuildUserGrowth | src/app/admin/analytics/page.tsx:185-215 | the whole user-growth computation equals the growth series over the window |
| AdminAnalytics.SelectSuccessRate | src/app/admin/analytics/page.tsx:224-226 | a numeric success rate is used as is, any other value gives 0 |
| AdminAnalytics.ProcessDataForCharts | src/app/admin/analytics/page.tsx:98-219 | no logs: every series empty; otherwise the daily, status and hourly series of the window's logs, and plan and growth series only when users were loaded |
| Analytics.ProcessLogsForCharts | src/app/analytics/page.tsx:64-128 | no logs: every series empty; otherwise the daily, status and hourly series of the logs inside the inclusive window |
| Analytics.ParseSuccessRate | src/app/analytics/page.tsx:133-135 | a string rate is parsed, a number is used as is, a missing rate is 0 |
| AdminStore.CacheWindow | src/lib/admin-store.ts:129-136 | with data and an unforced fetch, no request is made iff less than 300000 ms passed since the last fetch |
| AdminStore.CacheBypass | src/lib/admin-store.ts:129-140 | forcing, a changed filter, no data or no timestamp never serves the cache; a request follows unless one is in flight |
| AdminStore.InFlightNeverRequests | src/lib/admin-store.ts:138-140 | while a fetch of the resource is in flight no new request starts |
| AdminStore.Fresh | src/lib/admin-store.ts:132-133 | a timestamp is fresh when present, non-zero (falsy 0) and under 5 minutes old (a definition) |
| AdminStore.Decide | src/lib/admin-store.ts:129-140 | the cache guard (skipped when forced or the filter changed, needs data) before the in-flight guard (a definition) |
| AdminStore.ApplyPatch | src/lib/admin-store.ts:271 | `{ ...u, ...updates }`: each field present in the patch replaces the record's (a definition) |
| AdminStore.PatchLaws | src/lib/admin-store.ts:267-274 | an empty patch changes nothing, and applying a patch twice equals applying it once |
| AdminStore.MergeById | src/lib/admin-store.ts:267-274 | the length is kept, records with the id are merged with the updates, all others are unchanged |
| AdminStore.RemoveById | src/lib/admin-store.ts:276-281 | the users without that id remain, each as often as before, in their original order |
| AdminStore.RemoveAbsentId | src/lib/admin-store.ts:276-281 | removing an id nobody has leaves the list as it was |
| AdminStore.Store.constructor | src/lib/admin-store.ts:106-123 | empty data, nothing loading, no timestamps, both filters "all" |
| AdminStore.Store.FetchStats | src/lib/admin-store.ts:125-142 | the decision follows the cache rule; a request sets only statsLoading, otherwise nothing changes |
| AdminStore.Store.SettleStats | src/lib/admin-store.ts:144-154 | success stores the data, clears loading and records the time; failure clears only loading and returns the error |
| AdminStore.Store.FetchUsers | src/lib/admin-store.ts:157-174 | as for stats, with a cache hit also requiring a non-empty user list |
| AdminStore.Store.SettleUsers | src/lib/admin-store.ts:176-186 | success stores the users, clears loading and records the time; failure clears only loading and returns the error |
| AdminStore.Store.FetchJobs | src/lib/admin-store.ts:189-210 | a changed filter bypasses the cache; a request records the new filter and sets loading and sends "all" as no status; otherwise nothing changes |
| AdminStore.Store.SettleJobs | src/lib/admin-store.ts:212-225 | success stores the jobs, clears loading and records the time; failure clears only loading and returns the error |
| AdminStore.Store.FetchLogs | src/lib/admin-store.ts:228-249 | the same rule as jobs, for logs and logsStatusFilter |
| AdminStore.Store.SettleLogs | src/lib/admin-store.ts:251-264 | success stores the logs, clears loading and records the time; failure clears only loading and returns the error |
| AdminStore.Store.UpdateUserInCache | src/lib/admin-store.ts:267-274 | only the user list changes, to its merge by id |
| AdminStore.Store.RemoveUserFromCache | src/lib/admin-store.ts:276-281 | only the user list changes, to the list without that id |
| AdminStore.Store.ClearAll | src/lib/admin-store.ts:283-296 | data, timestamps and filters are reset, the loading flags are kept |
| OtpEntry.Pasted | src/app/verify/page.tsx:46 | the first six characters of the pasted text |
| OtpEntry.PasteInto | src/app/verify/page.tsx:45-54 | the buffer stays six slots long |
| OtpEntry.PasteKeepsSlotsValid | src/app/verify/page.tsx:45-54 | pasting keeps every slot empty or one digit, leaves the slots before the index and after the paste alone, and writes character i to slot index + i only when it fits and is a digit |
| OtpEntry.PasteFocus | src/app/verify/page.tsx:55-56 | focus after a paste is at most index + pasted length and at most 5, and equals one of them: min(index + pasted length, 5) |
| OtpEntry.Join | src/app/verify/page.tsx:80 | the code is the slots concatenated in order, `otp.join("")` (a definition) |
| OtpEntry.FilledCount | src/app/verify/page.tsx:79-80 | the number of filled slots equals the slot count iff no slot is empty |
| OtpEntry.JoinCountsFilled | src/app/verify/page.tsx:80 | with valid slots the joined code is all digits and as long as the number of filled slots |
| OtpEntry.CodeCompleteIffFilled | src/app/verify/page.tsx:79-88 | the code has length six iff every slot is filled |
| OtpEntry.OtpForm.constructor | src/app/verify/page.tsx:21-25 | six empty slots, no countdown, nothing loading |
| OtpEntry.OtpForm.Paste | src/app/verify/page.tsx:45-57 | the slot invariant is kept; the first six pasted characters fill the slots from the index on, digits only, and focus moves to the end of the paste, at most the last slot |
| OtpEntry.OtpForm.Change | src/app/verify/page.tsx:44-69 | the slot invariant is kept; a paste writes as pasting specifies and moves focus; a single edit that is not all digits changes nothing; a valid one sets the slot and moves focus forward when non-empty |
| OtpEntry.OtpForm.KeyDown | src/app/verify/page.tsx:71-75 | backspace on an empty slot after the first moves focus back one, otherwise focus stays |
| OtpEntry.OtpForm.BeginSubmit | src/app/verify/page.tsx:77-90 | the code is sent iff it has six characters, and then it is six digits from filled slots; a click on the enabled button (line 219) always sends |
| OtpEntry.OtpForm.FinishSubmit | src/app/verify/page.tsx:92-123 | success stores both tokens and signs in; failure empties all six slots and focuses the first, leaving the session alone; the countdown and the resending flag are kept |
| OtpEntry.OtpForm.BeginResend | src/app/verify/page.tsx:125-128 | a request is sent iff the countdown is zero, so a click on the enabled button (line 242) always sends |
| OtpEntry.OtpForm.FinishResend | src/app/verify/page.tsx:130-146 | a sent code sets the countdown to 60 |
| OtpEntry.OtpForm.Tick | src/app/verify/page.tsx:37-42 | the countdown falls by one and stops at zero |
| ResetPassword.CompositionRule | src/app/reset-password/page.tsx:43 | the three lookaheads of the regular expression, all at one start position (a definition) |
| ResetPassword.CompositionMeansAllClasses | src/app/reset-password/page.tsx:43 | a password passing the regular expression has a lower-case letter, an upper-case letter and a digit; on one line the converse holds |
| ResetPassword.ClassesOnSeparateLines | src/app/reset-password/page.tsx:43 | "aB\n1" has all three classes but fails the regular expression, whose `.` stops at line ends |
| ResetPassword.Validate | src/app/reset-password/page.tsx:38-53 | under 8 characters only the length error; otherwise the composition error iff the rule fails; the mismatch error iff the fields differ, independently |
| ResetPassword.ValidMeans | src/app/reset-password/page.tsx:38-53 | no errors iff length at least 8, the rule holds and both fields match; then all three classes occur |
| ResetPassword.Submit | src/app/reset-password/page.tsx:55-67 | the errors are recorded; a request happens iff the form is valid and the token non-empty, with that token and password |
| ResetPassword.RequestOnlyWhenValid | src/app/reset-password/page.tsx:55-67 | any request carries a non-empty token and a password of length at least 8 with all three classes, equal to its confirmation |
| ResetPassword.EditPassword | src/app/reset-password/page.tsx:168-171 | editing the password clears only the password error |
| ResetPassword.EditConfirmPassword | src/app/reset-password/page.tsx:201-204 | editing the confirmation clears only the confirmation error |
| NewJob.DefaultForm | src/app/jobs/new/page.tsx:77-89 | UTC, GET (one of the offered methods), 3 retries 60 s apart, 30 s timeout, active, empty text fields |
| NewJob.InitialRows | src/app/jobs/new/page.tsx:75 | one empty header row |
| NewJob.AddHeader | src/app/jobs/new/page.tsx:91-93 | the rows gain one empty row at the end, the others kept |
| NewJob.RemoveHeader | src/app/jobs/new/page.tsx:95-97 | exactly row i is removed, the others kept in order; an index out of range removes nothing |
| NewJob.RemoveKeepsARow | src/app/jobs/new/page.tsx:372 | the remove button only appears with two or more rows, so a row always remains |
| NewJob.SetHeaderField | src/app/jobs/new/page.tsx:99-107 | only the chosen field of row i changes; the row count is kept |
| NewJob.StoredKey | src/app/jobs/new/page.tsx:117-118 | a non-blank trimmed key that a plain object stores, so not `__proto__` (a definition) |
| NewJob.HeaderMap | src/app/jobs/new/page.tsx:115-120 | the dictionary after the forEach: each row with a storable trimmed key assigned in order (a definition) |
| NewJob.AssignHasKeys | src/app/jobs/new/page.tsx:115-120 | every assignment of a storable key leaves that key in the object |
| NewJob.AssignKeysFrom | src/app/jobs/new/page.tsx:115-120 | every key of the object was assigned and is storable |
| NewJob.AssignLastWins | src/app/jobs/new/page.tsx:115-120 | a key holds the value of its last assignment |
| NewJob.HeaderMapKeys | src/app/jobs/new/page.tsx:115-120 | the dictionary's keys are exactly the storable trimmed row keys |
| NewJob.HeaderMapLastWins | src/app/jobs/new/page.tsx:115-120 | a key's value is the untrimmed value of the last row with that key |
| NewJob.BuildHeaders | src/app/jobs/new/page.tsx:115-120 | the forEach loop builds the header dictionary |
| NewJob.BuildPayload | src/app/jobs/new/page.tsx:122-136 | url and method iff HTTP, script iff script, headers iff HTTP with at least one, body iff HTTP with a non-empty body; retries, timeout and activity always |
| NewJob.BodySentForAnyMethod | src/app/jobs/new/page.tsx:130 | a body typed for POST is still sent after switching to a method whose editor is hidden |
| NewJob.PrepareSubmission | src/app/jobs/new/page.tsx:109-136 | the submitted payload is the payload of the form and the header dictionary |
| JobsList.SearchParam | src/app/jobs/page.tsx:69 | an empty search box sends no parameter, otherwise the text |
| JobsList.IsActiveParam | src/app/jobs/page.tsx:70 | "all" sends nothing, "active" true, anything else false |
| JobsList.FlipById | src/app/jobs/page.tsx:94-96 | same length; jobs with the id have isActive flipped, others unchanged |
| JobsList.FlipTwice | src/app/jobs/page.tsx:94-96 | toggling twice restores the list |
| JobsList.ToggleStatus | src/app/jobs/page.tsx:90-109 | the update asks for the opposite state; the list changes only after success |
| JobsList.RemoveJob | src/app/jobs/page.tsx:133 | the jobs without that id remain, each as often as before, in order |
| JobsList.HandleDelete | src/app/jobs/page.tsx:127-149 | no selected job: nothing; otherwise the job is removed on success and the dialog is closed and cleared either way |
| JobsList.JobMatches | src/app/jobs/page.tsx:151-161 | name, schedule or URL, lower-cased, contains the lower-cased query (a definition) |
| JobsList.FilteredJobs | src/app/jobs/page.tsx:151-161 | an empty query keeps every job; otherwise a job stays iff its name, schedule or URL contains the query ignoring case, as often as it occurs; order kept |
| JobsList.SearchIgnoresQueryCase | src/app/jobs/page.tsx:153 | the query's case does not matter |
| LogsPage.Query | src/app/logs/page.tsx:44-49 | "all" filters send no parameter, others their value; 20 logs per page |
| LogsPage.LogsOrEmpty | src/app/logs/page.tsx:50 | missing logs become an empty list |
| LogsPage.TotalPagesOf | src/app/logs/page.tsx:51 | a missing or zero page count is one page |
| LogsPage.PrevPage | src/app/logs/page.tsx:269 | max(1, p - 1): at least 1 and at least p - 1, and equal to one of them |
| LogsPage.NextPage | src/app/logs/page.tsx:280 | min(totalPages, p + 1): at most totalPages and at most p + 1, and equal to one of them |
| LogsPage.PagingStaysInRange | src/app/logs/page.tsx:269-280 | from a page in [1, totalPages] both buttons stay in range |
| LogsPage.DisplayStatus | src/app/logs/page.tsx:83-103 | success and failed ignoring case, every other status shown as running |
| LogsPage.Compact | src/app/logs/page.tsx:253 | `JSON.stringify(o)` of an object of string fields, without escapes (a definition) |
| LogsPage.Pretty | src/app/logs/page.tsx:252 | `JSON.stringify(o, null, 2)` of the same object (a definition) |
| LogsPage.BodyLengths | src/app/logs/page.tsx:252-253 | the indented object body is three characters per field and one per separator longer |
| LogsPage.PrettyLonger | src/app/logs/page.tsx:252-253 | indented JSON is 4n + 1 characters longer than compact JSON for n > 0 fields |
| LogsPage.Prefix | src/app/logs/page.tsx:251-252 | `slice(0, n)`: a prefix of length min(n, length) |
| LogsPage.Displayed | src/app/logs/page.tsx:250-252 | a text response as it is, an object response indented (a definition) |
| LogsPage.PreviewAsWritten | src/app/logs/page.tsx:246-253 | as written: no preview for a missing or empty response; otherwise the first 500 characters of the displayed text |
| LogsPage.PreviewCutWithoutEllipsis | src/app/logs/page.tsx:250-253 | a 490-character field is cut at 500 characters with no "..." |
| LogsPage.ResponsePreview | src/app/logs/page.tsx:246-253 | the first 500 characters of the displayed text, with "..." iff it was cut |
| LogsPage.AsWrittenEllipsisIsSound | src/app/logs/page.tsx:253 | where the page shows "..." the text was cut, and both previews show the same text |
| AdminAccess.AdminGuard | src/app/admin/users/page.tsx:59-68 | load iff the user is an admin; redirect iff auth has settled and the user is not one; otherwise wait |
| AdminUsers.SetRole | src/app/admin/users/page.tsx:90-95 | same length; users with the id get the new role, others unchanged |
| AdminUsers.SetRoleKeepsIdentity | src/app/admin/users/page.tsx:90-95 | only roles change, and setting the same role again changes nothing |
| AdminUsers.HandleRoleChange | src/app/admin/users/page.tsx:85-110 | no selected user: nothing; the role changes and the dialog closes only on success |
| AdminUsers.HandleDeleteUser | src/app/admin/users/page.tsx:112-133 | no selected user: nothing; the user is removed and the dialog closes only on success |
| AdminUsers.DeleteRemovesOnlySelected | src/app/admin/users/page.tsx:117-118 | after a delete, exactly the users without that id remain, in order |
| AdminUsers.UserMatches | src/app/admin/users/page.tsx:135-139 | email, or name when present, lower-cased, contains the lower-cased query (a definition) |
| AdminUsers.FilteredUsers | src/app/admin/users/page.tsx:135-139 | a user stays iff the email or the name, if present, contains the query ignoring case, as often as it occurs; order kept |
| AdminUsers.EmptySearchKeepsAll | src/app/admin/users/page.tsx:135-139 | an empty query keeps everyone |
| AdminUsers.DefaultRole | src/app/admin/users/page.tsx:236 | the dialog starts at the user's role, USER when none |
| AdminUsers.OpenRoleDialog | src/app/admin/users/page.tsx:233-237 | selects the row's user and opens the role dialog at `user.role || "USER"` (a definition) |
| AdminUsers.OpenDeleteDialog | src/app/admin/users/page.tsx:248-253 | selects the row's user and opens the delete confirmation (a definition) |
| AdminUsers.ShowsControls | src/app/admin/users/page.tsx:229 | `user.id !== currentUser?.id` (a definition) |
| AdminUsers.ShowsYouBadge | src/app/admin/users/page.tsx:259 | `user.id === currentUser?.id` (a definition) |
| AdminUsers.SelfRowHasNoControls | src/app/admin/users/page.tsx:229-261 | each row shows either the controls or the "You" badge; the signed-in user's row has no controls |
| AdminUsers.RoleChangeSparesSelf | src/app/admin/users/page.tsx:229-240 | a role change opened from a row never alters the signed-in user's record |
| AdminUsers.DeleteSparesSelf | src/app/admin/users/page.tsx:248-254 | a delete opened from a row never removes the signed-in user |
| AdminJobs.AdminJobMatches | src/app/admin/jobs/page.tsx:57-61 | name or owner email, lower-cased, contains the lower-cased query (a definition) |
| AdminJobs.FilteredJobs | src/app/admin/jobs/page.tsx:57-61 | a job stays iff its name or owner email contains the query ignoring case, as often as it occurs; order kept |
| AdminJobs.EmptySearchKeepsAll | src/app/admin/jobs/page.tsx:57-61 | an empty query keeps every job |
| AdminJobs.SearchIgnoresQueryCase | src/app/admin/jobs/page.tsx:57-61 | the query's case does not matter |
| AdminJobs.JobsView.constructor | src/app/admin/jobs/page.tsx:36-37 | the select starts at the store's remembered jobs filter, the search box empty |
| AdminJobs.JobsView.Render | src/app/admin/jobs/page.tsx:57-71 | the spinner iff auth or jobs are loading; otherwise exactly the cached jobs the search keeps, every copy, in store order |
| AdminJobs.JobsView.Refresh | src/app/admin/jobs/page.tsx:39-55 | an admin always calls fetchJobs with the select's filter, unforced, and the cache rule decides; a request changes only the store's jobs filter and loading flag, no request changes nothing; others redirect or wait without touching the store |
| AdminJobs.JobsView.ChangeStatusFilter | src/app/admin/jobs/page.tsx:105-114 | a new selection is recorded and fetched with; a request changes only the store's jobs filter (to the selection) and loading flag, no request changes nothing |
| AdminJobs.NewFilterBypassesCache | src/lib/admin-store.ts:194-208 | a filter different from the remembered one requests unless a jobs fetch is in flight |
| AuthStore.SignedIn | src/lib/store.ts:23-32 | accessToken, refreshToken and token are set, other keys kept |
| AuthStore.HasAccessToken | src/lib/store.ts:61-62 | a stored, non-empty access token is what lets the session check go on (a definition) |
| AuthStore.SignedOut | src/lib/store.ts:45-57 | the three token keys are removed, other keys kept |
| AuthStore.SignOutUndoesSignIn | src/lib/store.ts:23-57 | signing out after signing in is signing out; an access token exists after sign-in iff non-empty, never after sign-out |
| AuthStore.Session.Persisted | src/lib/store.ts:84-86 | only the user and the authenticated flag are persisted |
| AuthStore.Session.constructor | src/lib/store.ts:19-21 | no user, not authenticated, loading |
| AuthStore.Session.Rehydrate | src/lib/store.ts:84-86 | the persisted user and flag come back, still loading |
| AuthStore.Session.Establish | src/lib/store.ts:26-31 | the three keys are written (token = access token), the user is signed in, loading is left alone |
| AuthStore.Session.Login | src/lib/store.ts:23-32 | success stores the three keys and signs in, leaving loading alone; failure changes nothing |
| AuthStore.Session.Signup | src/lib/store.ts:34-43 | the same as login |
| AuthStore.Session.Logout | src/lib/store.ts:45-57 | the token keys are removed and the user signed out, whatever the server says |
| AuthStore.Session.CheckAuth | src/lib/store.ts:59-75 | no access token: only loading clears; a profile signs in; a failure signs out; loading is always cleared |
| AuthStore.Session.SetAuth | src/lib/store.ts:77-81 | accessToken and token are written, refreshToken untouched; authenticated, not loading |
| Pricing.PlansAscend | src/app/pricing/page.tsx:15-61 | limits strictly increase, FREE 3 < PREMIUM 100 < PRO unlimited, prices increase, ids are distinct |
| Pricing.PlanIds | src/app/pricing/page.tsx:15-61 | the ids of the three plans in order |
| Pricing.UserPlan | src/app/pricing/page.tsx:102 | the user's plan, with an absent user, plan or empty plan treated as none |
| Pricing.CurrentPlans | src/app/pricing/page.tsx:102 | the plans the current-plan rule selects |
| Pricing.OneCurrentPlan | src/app/pricing/page.tsx:102 | at most one plan is current, exactly one when the user's plan is FREE, PREMIUM, PRO or absent |
| Pricing.IsCurrentPlan | src/app/pricing/page.tsx:102 | the user's plan is this id, or the user has no plan and the id is FREE (a definition) |
| Pricing.ButtonDisabled | src/app/pricing/page.tsx:148 | disabled on the current plan or while any upgrade is loading (a definition) |
| Pricing.Label | src/app/pricing/page.tsx:151-157 | a spinner for the loading plan, otherwise "Current Plan" iff current, otherwise "Upgrade" |
| Pricing.SpinnerImpliesDisabled | src/app/pricing/page.tsx:148-157 | a button showing the spinner is disabled |
| Pricing.PricingPage.constructor | src/app/pricing/page.tsx:66 | no upgrade in progress |
| Pricing.PricingPage.BeginUpgrade | src/app/pricing/page.tsx:68-70 | the chosen plan becomes the loading plan |
| Pricing.PricingPage.FinishUpgrade | src/app/pricing/page.tsx:71-87 | the loading plan returns to none in every outcome; on success the session is re-checked: without an access token it is kept, a profile signs in, a failed profile signs out and removes the tokens; on failure the session is untouched |
| Common.Lower | src/app/jobs/page.tsx:153 | `toLowerCase` on ASCII: same length, no upper-case letter left |
| Common.LowerIdempotent | src/app/jobs/page.tsx:153 | lower-casing twice is lower-casing once |
| Common.IncludesEmpty | src/app/admin/users/page.tsx:137 | every text includes the empty query |
| Common.TrimSpec | src/app/jobs/new/page.tsx:117-118 | `trim`: a substring with no JavaScript whitespace at either end, empty iff all whitespace |
| Common.Filter | src/app/admin/users/page.tsx:135-139 | `filter`: exactly the elements satisfying the predicate are present, in order |
| Common.FilterCounts | src/app/admin/users/page.tsx:135-139 | `filter` keeps every copy of a passing element and none of a failing one |
| Common.FilterSnoc | src/app/pricing/page.tsx:102 | filtering an extended list extends the filtered list by the new element iff it passes |
| Common.FilterAgrees | src/app/jobs/page.tsx:151-161 | predicates that agree on a list filter it alike |
| Common.FilterKeepsAll | src/app/admin/users/page.tsx:135-139 | a predicate every element satisfies keeps the list |
| Common.AllAsNone | src/app/logs/page.tsx:45-46 | "all" becomes no parameter, any other value is sent as is |
| Common.ClassifyStatus | src/app/admin/analytics/page.tsx:143-146 | success and failed ignoring case, everything else running |
| Common.ClassifyIgnoresCase | src/app/analytics/page.tsx:101-104 | classifying a lower-cased status gives the same class |

## Left out

- The backend, the HTTP client and its token refresh are not modelled. Every API call is a `Result` parameter, or a boolean for calls without a payload.
- Dates and locales are parameters: `Date.now()` is `now`, `toLocaleDateString` is `dayKey`, `getHours` is `hourOf`. Day keys carry no year, so their distinctness is not assumed; invalid dates are not modelled.
- Asynchrony: each fetch is split into a decision and a settling step. The interleaving of concurrent requests, `Promise.all`, effects and timers is not modelled. The countdown is an explicit `Tick`.
- Floating point: success rates are `real`. `parseFloat` is a parameter. `NaN` and `toFixed(1)` formatting are not modelled.
- Text is a sequence of code points. `toLowerCase` is ASCII only, and lengths count code points rather than UTF-16 units.
- LogsPage.ResponsePreview: a non-string response is an object of string fields. Nested values, numbers and the escaping done by `JSON.stringify` are not modelled.
- JavaScript object key order is not modelled: the header dictionary is a `map`. Besides `__proto__`, the other inherited property names are not treated specially.
- Plans named like inherited object properties: `plan in planCounts` also holds for an inherited name such as `toString`. The page then increments a property no slice reads, so the model treats such a plan like any other unknown plan.
- In `updateUserInCache`, a key present in `Partial<...>` with the value `undefined` is not modelled. Absent means "keep".
- The header rows are values. `handleHeaderChange` edits a row object in place after a shallow copy of the array; the model replaces the row.
- OtpEntry.OtpForm.Change and OtpEntry.OtpForm.Paste write the slots array in place, where the page copies the array before writing.
- Persistence of the auth store under "auth-storage" is a `Persisted` snapshot and the `Rehydrate` constructor; serialisation itself is not modelled.
- Pricing.PricingPage.FinishUpgrade: the plan-update call of the page is not part of the visible API module, so its success is a boolean.
- Common.Filter: its own contract states membership and order only; how many copies of each element it keeps is stated once, for every input, by the lemma Common.FilterCounts, which keeps the many proofs that use Filter small. Every list operation built on it restates the count in its own contract.
- Toasts, routing and rendering are not modelled beyond the decisions above. The plan feature texts and the static pages are not modelled either.
- On the admin users page, `fetchUsers` and its loading view are plain data display and are not modelled.

## Findings

| source | as written | input that shows it | evidently intended | confidence | as-written member | corrected member |
|---|---|---|---|---|---|---|
| src/app/logs/page.tsx:250-253 | an object response is shown as indented JSON cut at 500 characters, but "..." is decided by the length of the compact JSON | a response `{"a": "<490 characters>"}`: 498 characters compact, 503 indented, so the preview is cut at 500 with no "..." | "..." exactly when the displayed text was cut | not executed; medium | LogsPage.PreviewCutWithoutEllipsis | LogsPage.ResponsePreview |
