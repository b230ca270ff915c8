# roaw2020 in Dafny: weekly dashboards and the Strava sync path

This project models the computational core of roaw2020, a running-challenge
web application written in Go, and proves properties of it. The core has two
parts.

- **The weekly aggregation engine** of the dashboards. It groups the rows of a
  weekly database query `(week, user, value)` into one series per user. The
  current dashboards (distance and count) fill skipped weeks with zero
  buckets. The older distance dashboard does not. A cumulative pass then turns
  every series into running sums, and gives every user whose series ends early
  one flat point at the latest week.
- **The sync path** of the user model and the Strava client:
  - refreshing a user's OAuth tokens;
  - fetching every activity page by page, 200 at a time;
  - storing each fetched activity while collecting the ids that failed;
  - the profile statistics (count, sums and maxima over all activities and
    over the valid runs).

Around them sit small pure helpers: the configured year, the podium CSS class
and the human-readable duration, plus the guards of the speed and pace
columns.

Modules, one file each:

| file | module | models |
|---|---|---|
| wrappers.dfy | Wrappers | `Option` and `Result` |
| strconv.dfy | GoStrconv | `strconv.Atoi`, `%d`/`%02d` formatting, int64/int32 wrap-around |
| weekly.dfy | WeeklyStats | the grouping loops, the cumulative pass and their specifications |
| dashboard_distances.dfy | DashboardDistances | actions/dashboard_distances.go |
| dashboard_count.dfy | DashboardCount | actions/dashboard_count.go |
| dashboard.dfy | Dashboard | actions/dashboard.go |
| render.dfy | Render | actions/render.go, and `secondsToHuman` of actions/dashboard.go |
| strava_client.dfy | StravaClient | strava_client/fetch_activities.go |
| models.dfy | Models | models/user.go, and the `Activity` fields of models/activity.go |

Nothing of the outside world is called. Each outside dependency is a
parameter or an oracle:

- The database rows and their error are the input of each dashboard function.
- The environment variable and the current year are parameters.
- The Strava endpoint is a class answering each request with a fixed function
  and logging the requests.
- The OAuth providers are a map from provider name to refresh function.
- The database connection is a `Store` class that logs `Save` and
  `CreateOrUpdate` calls and answers from oracles.
- `ParseStravaActivity` is a function parameter.

## Model

| member | source | states |
|---|---|---|
| GoStrconv.ParseInt | actions/dashboard.go:25 | `strconv.Atoi` accepts only an optional '+' or '-' followed by at least one decimal digit; the value is the digits' value, negated after '-', and lies in the int64 range |
| GoStrconv.FormatInt | actions/dashboard.go:33 | `%d` of a Go int: a leading '-' exactly for negative numbers, followed by decimal digits whose value is the magnitude |
| GoStrconv.FormatParseRoundTrip | actions/dashboard.go:33 | every int64 printed with `%d` is read back by `Atoi` as itself |
| GoStrconv.FormatIntInjective | actions/dashboard.go:33 | different years never print as the same string |
| GoStrconv.Pad2 | actions/render.go:28-33 | `%02d` of 0..99 is two digits whose value is the number |
| GoStrconv.Pad2Injective | actions/render.go:28-33 | two-digit padding is injective on 0..99 |
| GoStrconv.Wrap64 | actions/dashboard.go:33 | the `thisYear+1` of a Go int lies in the int64 range, equals the true sum when that is in range, and is congruent to it modulo 2^64 |
| GoStrconv.Wrap32 | strava_client/fetch_activities.go:41-44 | an `int32(...)` conversion lies in the int32 range, keeps in-range values, and is congruent modulo 2^32 |
| Dashboard.ParseThisNextYear | actions/dashboard.go:23-34 | the first string is the `%d` of the parsed variable when `Atoi` accepts it, and of the current year otherwise |
| Dashboard.ParseThisNextYearReadsBack | actions/dashboard.go:23-34 | the first string reads back as the parsed variable when `Atoi` accepts it and as the current year otherwise; the second reads back as that year plus one (wrapped) |
| Dashboard.ParseThisNextYearConsecutive | actions/dashboard.go:23-34 | below the int64 maximum the two strings are consecutive years |
| Dashboard.ParseThisNextYearStable | actions/dashboard.go:23-34 | feeding the first string back in gives the same pair, whatever the clock says |
| Dashboard.ConvertPodiumClass | actions/dashboard.go:113-123 | a class is returned exactly for ranks 0, 1 and 2, and it is one of the three table classes; any other rank gives "" |
| Dashboard.PodiumClassesDistinct | actions/dashboard.go:113-123 | the three podium places get three different classes |
| Render.GoRem | actions/render.go:23-24 | Go's `%` truncates: the result is below the divisor in size, equals the Euclidean remainder for non-negative inputs and carries the dividend's sign |
| Render.Minutes | actions/render.go:23 | minutes within the hour: between -60 and 59, and for a non-negative duration the whole minutes of its remainder by 3600 |
| Render.Hours | actions/render.go:24 | hours within the day: between -24 and 23, and for a non-negative duration the whole hours of its remainder by 86400 |
| Render.Days | actions/render.go:25 | whole days: the floor of the duration over 86400 (exact below 2^53, see Left out) |
| Render.SecondsToHuman | actions/render.go:17-35 | the output is "0" exactly for a zero duration; any other output ends in "m" and has at least three characters |
| Render.Decomposition | actions/render.go:23-25 | for a non-negative duration, days·86400 + hours·3600 + minutes·60 + leftover seconds is the duration, with hours < 24 and minutes < 60, all three functions of the whole minutes |
| Render.FormatByBranch | actions/render.go:27-33 | "Nd HHhMMm" when days > 0, otherwise "HHhMMm" when hours > 0, otherwise "MMm", told apart by length |
| Render.UnderAMinute | actions/render.go:23-33 | a duration of 1 to 59 seconds renders as "00m" |
| Render.SecondsToHumanInjective | actions/render.go:17-35 | two positive durations render the same text if and only if they have the same number of whole minutes |
| Render.SameTextSameFields | actions/render.go:27-33 | equal renderings of positive durations have equal days, hours and minutes |
| Render.Speed | actions/render.go:41-44 | speed shows "-" exactly when the duration is zero, and otherwise is computed from the two inputs |
| Render.Pace | actions/render.go:50-53 | pace shows "-" exactly when the duration or the distance is zero |
| Render.PaceGuardsSpeed | actions/render.go:41-53 | whenever a pace is computed, the speed is computed too, and neither divides by zero |
| WeeklyStats.UsersSnoc | actions/dashboard_distances.go:45-48 | one more row adds exactly its user to the users seen |
| WeeklyStats.Fill | actions/dashboard_distances.go:52-55 | the fill loop appends one zero bucket for each week from the counter up to the row's week |
| WeeklyStats.FillTotal | actions/dashboard_distances.go:52-55 | filler buckets add nothing to a total |
| WeeklyStats.GroupStep | actions/dashboard_distances.go:45-61 | one pass of the loop: the row's user's series ends with the row's bucket, and `weekIdx` becomes one past the larger of the row's week and the counter (0 for a new user) |
| WeeklyStats.Group | actions/dashboard_distances.go:43-61 | the loop over all rows: no rows give an empty map, otherwise the last row's user's series ends with that row's bucket |
| WeeklyStats.GroupKeys | actions/dashboard_distances.go:45-50 | the keys of the grouped map are exactly the users of the rows |
| WeeklyStats.GroupLast | actions/dashboard_distances.go:57-61 | for any rows, every series is non-empty and ends with its user's last row |
| WeeklyStats.GroupTotals | actions/dashboard_distances.go:53-60 | for any rows, each series adds up to the sum of its user's row values |
| WeeklyStats.GroupNonNegative | actions/dashboard_distances.go:53-60 | non-negative row values give non-negative buckets |
| WeeklyStats.StepStart | actions/dashboard_distances.go:46-50 | on well-ordered rows the counter is reset only for a new user and otherwise equals the length of that user's series, which is at most the row's week |
| WeeklyStats.GroupDense | actions/dashboard_distances.go:43-61 | on rows where each user's rows are contiguous with non-negative, strictly increasing weeks, bucket i of every series is week i, each row's value sits at its week, every other week holds zero, and the week counter and the current user's series length are the last row's week plus one |
| WeeklyStats.GroupProperties | actions/dashboard_distances.go:43-64 | the keys, last buckets and totals for any rows, and on well-ordered rows gap filling and length = last week + 1 |
| WeeklyStats.DuplicateNamesExample | actions/dashboard_distances.go:26-61 | two users sharing a name, each with a week-1 row, give rows that are not well ordered and one merged series with week 1 twice |
| WeeklyStats.GroupExample | actions/dashboard_distances.go:43-61 | rows (0,10) and (2,5) of one user give [(0,10),(1,0),(2,5)] |
| WeeklyStats.PlaceRow | actions/dashboard_distances.go:46-61 | one iteration of the loop is one step of the grouping specification |
| WeeklyStats.GroupWeekly | actions/dashboard_distances.go:43-62 | the loop computes the grouping specification and has all its properties |
| WeeklyStats.ByUser | actions/dashboard.go:229-239 | the older grouping: one list per user who has a row, and no other keys |
| WeeklyStats.UserBucketsShape | actions/dashboard.go:229-239 | a user's list in the older grouping is non-empty exactly when the user has a row, and it sums to the user's total |
| WeeklyStats.TotalLengthUpdate | actions/dashboard.go:235 | replacing one user's list changes the total length by the difference in length |
| WeeklyStats.ListedByUserSnoc | actions/dashboard.go:230-239 | one pass of the older loop appends the row to its user's list and to nobody else's |
| WeeklyStats.ByUserShape | actions/dashboard.go:229-239 | every list of the older grouping is non-empty and sums to its user's total |
| WeeklyStats.GroupByUser | actions/dashboard.go:229-241 | the older loop yields each user's rows in input order, with no gap filling, and the list lengths add up to the number of rows |
| WeeklyStats.PrefixSums | actions/dashboard_distances.go:84-88 | the running-sum series has one bucket per weekly bucket, each keeping its week |
| WeeklyStats.PrefixSumsAt | actions/dashboard_distances.go:84-88 | position i of the running sums holds the sum of positions 0..i |
| WeeklyStats.PrefixSumsDifferences | actions/dashboard_distances.go:84-88 | differences of consecutive running sums give back the weekly values |
| WeeklyStats.PrefixSumsMonotone | actions/dashboard_distances.go:84-88 | running sums of non-negative values never decrease |
| WeeklyStats.AlignedCumulative | actions/dashboard_distances.go:83-92 | one user's cumulative series is one bucket longer exactly when the series ends before the latest week, and ends at the later of the two weeks with the user's total |
| WeeklyStats.AlignedCumulativeShape | actions/dashboard_distances.go:83-92 | the cumulative series keeps the weeks, holds the running sums, ends at the latest week with the user's total, and is one bucket longer exactly when the series ended earlier |
| WeeklyStats.AlignedCumulativeMonotone | actions/dashboard_distances.go:83-92 | with non-negative values the aligned cumulative series never decreases |
| WeeklyStats.CumulatedShape | actions/dashboard_distances.go:74-92 | for non-negative weekly values, every user's cumulative series never decreases, keeps the weekly weeks, and grows by one point only when the user's last week is before the latest one |
| WeeklyStats.MaxLastWeek | actions/dashboard_distances.go:74-80 | `latestWeek` starts from 0, so it is never negative and is 0 when there are no users |
| WeeklyStats.MaxLastWeekIsLatest | actions/dashboard_distances.go:74-80 | `latestWeek` is 0 or a user's last week, and no user's last week exceeds it |
| WeeklyStats.LatestWeekUnique | actions/dashboard_distances.go:74-80 | that characterisation determines the latest week, whatever the map iteration order |
| WeeklyStats.LatestWeek | actions/dashboard_distances.go:74-80 | the first loop of the cumulative pass computes the latest week |
| WeeklyStats.PrefixSumsStep | actions/dashboard_distances.go:85-88 | one step of the in-place loop turns position idx into its running sum |
| WeeklyStats.Accumulate | actions/dashboard_distances.go:84-88 | the in-place loop yields the running sums, and `cumulative` ends as the series total |
| WeeklyStats.CumulativeAlign | actions/dashboard_distances.go:74-95 | same users; each series becomes its aligned running sums and ends at the latest week with the user's total |
| WeeklyStats.CumulatedTotals | actions/dashboard_distances.go:83-92 | after the cumulative pass every user ends at their total, and all users end at the same week |
| DashboardDistances.AsRows | actions/dashboard_distances.go:45-60 | the query rows, field by field, as the engine's rows |
| DashboardDistances.GetWeeklyDistanceStats | actions/dashboard_distances.go:43-66 | the grouped, gap-filled map of the rows read, with the query's error passed on |
| DashboardDistances.GetWeeklyCumulativeDistanceStats | actions/dashboard_distances.go:68-96 | a failed query gives an empty map and no error; otherwise the cumulative pass of the grouped rows, with every user ending at their total on the same week |
| DashboardDistances.CumulativeDistancesShape | actions/dashboard_distances.go:74-92 | with non-negative distances every cumulative series never decreases and grows by one point only when it ends early |
| DashboardCount.AsRows | actions/dashboard_count.go:50-65 | the query rows, field by field, as the engine's rows |
| DashboardCount.GetWeeklyCountStats | actions/dashboard_count.go:48-71 | the grouped, gap-filled map of the rows read, with the query's error passed on |
| DashboardCount.GetWeeklyCumulativeCountStats | actions/dashboard_count.go:73-101 | a failed query gives an empty map and no error; otherwise the cumulative pass of the grouped rows, with every user ending at their total on the same week |
| DashboardCount.CumulativeCountsShape | actions/dashboard_count.go:79-97 | with non-negative counts every cumulative series never decreases and grows by one point only when it ends early |
| Dashboard.GetWeeklyDistanceStats | actions/dashboard.go:229-243 | the older grouping: each user's rows in input order, the lengths adding up to the rows read, and the query's error passed on |
| Dashboard.GetWeeklyCumulativeDistanceStats | actions/dashboard.go:245-273 | a failed query gives an empty map and no error; otherwise the same cumulative pass over the older grouping |
| StravaClient.GetThisYear | strava_client/fetch_activities.go:20-30 | the parsed `ROAW_YEAR` when `Atoi` accepts it, else the current year |
| StravaClient.GetThisYearReadsBack | strava_client/fetch_activities.go:22-29 | a year written with `%d` is the year picked, whatever the clock says |
| StravaClient.JanFirstUnix | strava_client/fetch_activities.go:41-42 | `time.Date(year, 1, 1, ...).Unix()`, which is 0 for 1970 |
| StravaClient.LeapsStep | strava_client/fetch_activities.go:41-42 | a year adds one to the Gregorian leap-year count exactly when it is a leap year |
| StravaClient.JanFirstUnixStep | strava_client/fetch_activities.go:41-42 | 1970-01-01 is time 0, and consecutive Jan 1 timestamps are 365 or 366 days apart, following the Gregorian leap rule |
| StravaClient.DefaultOpts | strava_client/fetch_activities.go:40-45 | the default options are int32 timestamps, page 1 and page size 5 |
| StravaClient.DefaultWindow | strava_client/fetch_activities.go:41-42 | from 1902 to 2037 the window is exactly the calendar year, so Before is after After |
| StravaClient.DefaultWindow2038 | strava_client/fetch_activities.go:41-42 | for 2038 the int32 conversion wraps the end of the window below its start |
| StravaClient.StravaAPI.constructor | strava_client/fetch_activities.go:34-48 | a new client carries the token and the default options of the year picked |
| StravaClient.ActivitiesApi.GetLoggedInAthleteActivities | strava_client/fetch_activities.go:53 | the endpoint answers from its oracle and logs the request |
| StravaClient.StravaAPI.FetchActivitiesSinglePage | strava_client/fetch_activities.go:51-56 | sets the page (as an int32), makes exactly one request with the current options, and returns its answer |
| StravaClient.Combine | strava_client/fetch_activities.go:67-71 | an error discards the activities gathered so far; success prepends them |
| StravaClient.CombineAssociative | strava_client/fetch_activities.go:71 | gathering page by page equals gathering the concatenation |
| StravaClient.Paginate | strava_client/fetch_activities.go:64-80 | the run started at a page stops at a page between that page and `lastPage + 1`, the page by which `Finite` says it ends |
| StravaClient.PaginateStep | strava_client/fetch_activities.go:65-76 | an error ends the run with no activities; a short page ends it with everything gathered; a full page goes on to the next page |
| StravaClient.PaginateMeaning | strava_client/fetch_activities.go:64-80 | every page before the last one requested was full; on success the result is the in-order concatenation of the pages and the last page was short; on error the result is empty and carries that page's error |
| StravaClient.FullPageLength | strava_client/fetch_activities.go:73 | a page that the int32 comparison counts as full holds exactly PerPage activities |
| StravaClient.PaginationExample | strava_client/fetch_activities.go:64-80 | pages of 200, 200 and 47 give 447 activities from three requests |
| StravaClient.PageRequests | strava_client/fetch_activities.go:64-65 | requests for pages 1..n, in order, none skipped |
| StravaClient.FetchNext | strava_client/fetch_activities.go:65-76 | one pass of the loop: one request for the next page, and the run's outcome or the continued loop state |
| StravaClient.FetchPages | strava_client/fetch_activities.go:63-80 | the loop returns exactly the pagination run's activities and error, after requesting pages 1, 2, ... in order up to the last page the run needs, and leaves the client's page option at that page |
| StravaClient.FetchAllActivities | strava_client/fetch_activities.go:59-81 | the default window with PerPage 200, then the pagination run over it |
| StravaClient.FetchLatestActivities | strava_client/fetch_activities.go:84-90 | exactly one request, for page 1 with PerPage 5, and its answer unchanged |
| Models.Join | models/user.go:113 | `strings.Join` of no ids is ""; otherwise the text begins with the first id and ends with the last one |
| Models.JoinContains | models/user.go:113 | every id passed to `strings.Join` occurs in the joined text |
| Models.Message | models/user.go:74-113 | the error texts; the activities error names every failed provider id |
| Models.Store.Save | models/user.go:86 | `tx.Save` is logged and answers from its oracle |
| Models.Store.CreateOrUpdate | models/user.go:107 | `CreateOrUpdate` is logged and answers from its oracle |
| Models.ActivitySource.Fetch | models/user.go:98 | the fetch function is called once with the given token and answers from its oracle |
| Models.RefreshPlan | models/user.go:72-87 | the refresh fails exactly when the provider is unknown or its refresh call fails; it replaces the tokens only with the call's tokens, whose access token differs from the stored one |
| Models.RefreshError | models/user.go:72-89 | nil only when the provider is known and its refresh call succeeds; a save error only when the tokens were replaced and `tx.Save` of the new user failed with it; after a replacement, nil exactly when `tx.Save` succeeds |
| Models.Refreshed | models/user.go:83-87 | a refresh never changes the name, provider or provider id |
| Models.RefreshOutcomes | models/user.go:70-90 | an unknown provider and a failed refresh call are errors that leave the user unchanged; both tokens are replaced if and only if the refresh succeeds with a different access token; after a replacement the error is `tx.Save`'s (nil when the save succeeds); an equal access token changes nothing and returns nil |
| Models.RefreshSettles | models/user.go:83-87 | a second refresh that hands out the same access token writes nothing |
| Models.User.RefreshAccessToken | models/user.go:70-90 | the user becomes the refreshed user; exactly one save happens when the tokens are replaced, none otherwise; the error is the refresh's or the save's |
| Models.Parsed | models/user.go:104-105 | one stored activity per fetched one |
| Models.ParsedSnoc | models/user.go:104-105 | parsing one more fetched activity appends one stored activity |
| Models.FailedIds | models/user.go:103-110 | the collected `errorStrings`, never more ids than activities |
| Models.FailedIdsMeaning | models/user.go:103-110 | the failed ids are empty if and only if no CreateOrUpdate failed; each failing activity's id is listed and each listed id belongs to a failing activity |
| Models.FailedIdsConcat | models/user.go:104-110 | the ids of a concatenation are the concatenation of the ids, so they come in input order |
| Models.FailedIdsSnoc | models/user.go:107-109 | one more activity adds its id exactly when its CreateOrUpdate fails |
| Models.SyncError | models/user.go:112-115 | nil if and only if every CreateOrUpdate succeeded |
| Models.StoreActivities | models/user.go:103-115 | every fetched activity is parsed and passed to `CreateOrUpdate` in order, a failure not stopping the loop; no user is saved; the error lists the failed ids |
| Models.User.SyncActivities | models/user.go:93-116 | a refresh error is returned before any fetch; a fetch error is returned before any CreateOrUpdate; otherwise every activity is tried and the error says which failed |
| Models.ValidRuns | models/user.go:157 | each kept activity is an activity of the input of type "Run" with more than 15 minutes elapsed, and there are no more of them than activities |
| Models.ValidRunsComplete | models/user.go:157 | every activity of type "Run" with more than 15 minutes elapsed is kept |
| Models.Accumulate | models/user.go:141-154 | one activity counted; each maximum is at least the old maximum and the activity's value, and is one of the two |
| Models.Summarize | models/user.go:140-154 | the fold of the loop from zero, whose count is the number of activities |
| Models.Snoc | models/user.go:140-172 | one more activity is one more step of the statistics fold, and of the valid-run filter exactly when it is a valid run |
| Models.SumSnoc | models/user.go:142-144 | one more activity adds its value to a sum |
| Models.MostSnoc | models/user.go:146-154 | one more activity raises a maximum only when strictly larger |
| Models.SummarizeMeaning | models/user.go:140-154 | the count is the number of activities, the totals are sums, and the maxima are the largest values, floored at 0 |
| Models.MostBounds | models/user.go:146-154 | a maximum is at least 0 and every value, and it is 0 or one of the values |
| Models.MostSubset | models/user.go:157-171 | the maximum over a sub-list is no larger |
| Models.ValidRunsSum | models/user.go:157-161 | with non-negative values the valid-run sum is between 0 and the overall sum |
| Models.ValidBelowAll | models/user.go:140-171 | valid statistics never exceed the overall ones: count and maxima always, totals when values are not negative |
| Models.AddActivity | models/user.go:141-154 | the loop body's field-by-field updates are one step of the fold |
| Models.User.GetStats | models/user.go:130-176 | a failed query gives two zero records and the error; otherwise the statistics of all activities and of the valid runs |

## Left out

- The SQL query strings and what the database computes (week numbers, the
  year filter, the `'Run'` filter, SUM and COUNT, the ordering). The rows are
  the input. The grouping itself is modelled for any rows.
- WeeklyStats.GroupDense and the gap-filling half of
  WeeklyStats.GroupProperties hold only on `WellOrdered` rows. The weekly
  queries group by user id but key and sort rows by user name
  (actions/dashboard_distances.go:26,33-34; actions/dashboard_count.go:31,38-39).
  User names come from the OAuth provider and need not be unique
  (actions/auth.go:47). So the queries deliver that order only when names are
  unique. `WeeklyStats.DuplicateNamesExample` records what the loop does
  otherwise: two users named "ana" merge into one series with a repeated week.
- HTTP handlers, templates, sessions and routing (actions/app.go,
  actions/auth.go, actions/app_routes_auth.go and the `*Handler` functions).
  actions/users.go is not part of this model: its handlers repeat the refresh
  and pagination logic in request-bound variants.
- Floating point: `metersToKm` and the numbers shown by `speed` and `pace`.
  Only their "-" guards are modelled.
- Render.SecondsToHuman and Render.Days model `math.Floor(float64(duration) / 86400)`
  as exact floor division, which agrees with Go only while |duration| < 2^53.
  Beyond that, `float64` rounding can make Go's day count one larger. For
  example, 86400·2^40 − 1 seconds shows as 1099511627776 days in Go but
  1099511627775 in the model. Minutes and hours come from remainders below
  86400 and are exact.
- `time.Now()`, `os.Getenv`/`envy.Get` and the logger. The environment value
  and the current year are parameters.
- `goth` token refresh, the swagger HTTP call, `tx.Save`, `CreateOrUpdate`
  and `ParseStravaActivity` are oracles. Their own behaviour is not part of
  this model.
- Models.Store.CreateOrUpdate: its answer is a fixed function of the
  activity, whereas Go's answer can depend on what the database already
  holds, so the same activity seen twice in one batch gets the same answer
  here. No proved property relies on this.
- Models.Activity: models/activity.go declares `MovingTime` and `ElapsedTime`
  as strings, but models/user.go adds and compares them as ints. The model
  follows models/user.go and makes them ints.
- Models.User.GetStats and Models.AddActivity do not model int64 overflow of
  the sums. Go's `int` would wrap after about 9.2·10^18 metres or seconds.
- WeeklyStats.Accumulate and WeeklyStats.CumulativeAlign sum in unbounded
  integers. Go's `cumulative +=` is an int64 and wraps past 2^63 − 1
  (actions/dashboard_distances.go:86, actions/dashboard_count.go:91,
  actions/dashboard.go:263).
- WeeklyStats.CumulatedTotals, and through it the cumulative dashboard
  methods, states that each series ends at the user's exact total. That
  holds for Go only while every running sum stays within int64.
- StravaClient.FetchPages and StravaClient.FetchAllActivities require
  `Finite`: some page `lastPage + 1` of the run's own window and page size
  fails or is not full. Go's loop has no bound and would not end against an
  endpoint that always answers full pages. `Finite` also requires
  `lastPage + 1` to fit in an int32, so the model does not cover a run that
  reaches page 2^31 and wraps `int32(page)`
  (strava_client/fetch_activities.go:52).
- The in-place rewrites of slices shared between the map and the loop
  variable are modelled as reassigned `seq` values. Aliasing between Go slices
  is not modelled.
- Go's map iteration order is unspecified. Every map loop is a loop over the
  remaining key set, and every result is stated over the map, not over an
  order.
- `secondsToHuman` of actions/dashboard.go is the same code as
  `SecondsToHuman` of actions/render.go and is modelled once, as
  `Render.SecondsToHuman`.
- The swagger `SummaryActivity` payload is modelled only by an id.
  The model checks the pagination control logic, not the activity contents.
