# User-growth analytics over a user/event log

This project models the reports of a small user-growth analytics engine for a
short-video app. The engine reads two relations and computes its reports from
them:

- `users`: id, signup date and acquisition channel;
- `events`: owning user, event date and event type. The type is an open
  string: the funnel and engagement queries read `view`, `like`, `comment`
  and `share`, and ignore events of any other type (such as `signup` or
  `drop_off`).

The reports are:

- **Funnel.** The number of distinct users at each of the steps Signup, View,
  Like, Comment and Share, with the step-to-step conversion percentages. The
  same counts also feed a chart, which is built from parallel label and count
  lists.
- **Retention.** The total, engaged and not-engaged users. For a day offset
  n, the users who came back exactly n days after signing up (the report uses
  n = 1 and n = 7), split by engagement, with the printed rates.
- **Acquisition.** Users grouped by channel and ordered by count, largest
  first. Per channel, the total and the engaged users from a LEFT JOIN, with
  the engagement rate. The acquisition chart's columns and its rate list are
  built in a loop.

Every query is a deterministic function of the two relations. The log is a
pair of sequences, days are integers, and each SQL count becomes a count
that is defined once:

- `COUNT(DISTINCT …)` is the cardinality of a set comprehension;
- `COUNT(*)` is a row count.

Rates are `real`, computed with a single safe percentage that is 0 when the
denominator is 0.

The schema's two constraints are stated as predicates in `EventLog`:

- ids are unique in `users`;
- every event refers to a registered user.

The queries are total functions and do not assume either constraint, because
SQLite does not enforce the foreign key by default. The properties that need
a constraint assume it: a lemma takes it as `requires`, and a function states
it as `WellFormed(log) ==>` or `EventsReferenceUsers(log) ==>` inside its
`ensures`.

Modules, one file each:

- `EventLog` holds the relations, the derived user sets, `SafeRate`, the
  cardinality lemmas and a three-user example log.
- `FunnelAnalysis` and `FunnelVisualization` hold the funnel queries as
  written.
- `TransitiveFunnel` holds the fully sequential funnel that the code's
  comments describe, and how it compares with the queries.
- `Retention` holds the retention report.
- `AcquisitionAnalysis` and `AcquisitionVisualization` hold the acquisition
  reports.

Three behaviours of the code are easy to misread; the model follows the code:

- **Funnel gating.** funnel_analysis.py:10 calls the funnel "SEQUENTIAL" and
  funnel_visualization.py:13 says "Each step requires the previous step",
  but the queries at funnel_analysis.py:57-62 and 70-75 (and
  funnel_visualization.py:45-58) gate Comment only on the raw set of users
  with a `like` event and Share only on the raw set with a `comment` event.
  So Comment can exceed Like, and a user with a share and a comment but no
  like or view is counted at Share. About the shipped counts the model
  proves `Like <= View` and the raw-set bounds, not monotonicity (see
  Findings). The sequential definition the comments describe is in
  `TransitiveFunnel`.
- **Event order.** The queries ignore the order of a user's events: a
  comment on any day gates a share on any day, before or after it.
- **Not-engaged count.** `not_engaged_users` is `COUNT(*) FROM users` minus
  `COUNT(DISTINCT user_id)` over the engagement events
  (analyze_retention.py:12-22), a row count minus a distinct count of ids
  taken from another table. It is guaranteed non-negative only under the
  foreign key, which `GetBasicCounts` assumes for that clause.

## Model

| member | source | states |
|---|---|---|
| EventLog.SafeRate | analyze_retention.py:75-76 | 0 when the whole is 0 or the part is 0; otherwise the rate times the whole is the part times 100; in [0, 100] whenever 0 <= part <= whole |
| EventLog.TypeUsersMembership | funnel_analysis.py:33-38 | a user is in a step-type's user set exactly when some event of theirs has that type |
| EventLog.EngagedMembership | analyze_retention.py:5 | a user is engaged exactly when they have a like, comment or share event |
| EventLog.TypeUsersRegistered | analyze_retention.py:15-22 | under the foreign key every event-derived user set lies inside the registered users |
| EventLog.IdSetCard | analyze_retention.py:12-13 | the distinct ids never outnumber the rows of `users`, and equal them when ids are unique |
| FunnelAnalysis.GatedUsers | funnel_analysis.py:41-50 | the `IN`-subquery count set is the intersection of the step's and the previous type's user sets |
| FunnelAnalysis.RunFunnelAnalysis | funnel_analysis.py:24-87 | five entries keyed signup, view, like, comment, share in order: signup = distinct users; view = distinct viewers; like = like ∩ view <= view; comment = comment ∩ like <= likers; share = share ∩ comment <= commenters; under the foreign key view <= signup |
| FunnelAnalysis.ViewWithinSignup | funnel_analysis.py:29-38 | under the foreign key the View count never exceeds the Signup count |
| FunnelAnalysis.ConversionRates | funnel_analysis.py:90-101 | one line per step with its count; no conversion for the first step; for each later step the safe percentage of the previous step's count |
| FunnelAnalysis.ShareNeedsComment | funnel_analysis.py:66-77 | a user counted at Share has both a share and a comment event, so a share without a comment is never counted |
| FunnelAnalysis.SignupIgnoresEvents | funnel_analysis.py:29-30 | Signup is unchanged when the events change, is at most the number of rows, and equals it when ids are unique |
| FunnelAnalysis.ViewCountedOnce | funnel_analysis.py:33-38 | a further view event of a user who already viewed leaves the View count unchanged |
| FunnelAnalysis.LikeConversionInRange | funnel_analysis.py:41-51 | the Like conversion exists and lies in [0, 100] because Like <= View |
| FunnelAnalysis.NoUsersAllZero | funnel_analysis.py:24-101 | with no users (and the foreign key) every count is 0 and every conversion is 0, never a division by zero |
| FunnelAnalysis.CountsFromSets | funnel_analysis.py:24-87 | on any log whose user ids are {1, 2, 3} and whose view, like, comment and share user sets are {1, 3}, {1, 3}, {3} and {1, 3}, the five counts are 3, 2, 2, 1, 1 |
| FunnelAnalysis.ThreeUserScenario | funnel_analysis.py:24-87 | on the three-user example: Signup 3, View 2, Like 2, Comment 1, Share 1 |
| FunnelVisualization.SequentialFunnelCounts | funnel_visualization.py:9-67 | the labels are Signup, View, Like, Comment, Share; five counts: distinct users, viewers, like ∩ view (<= viewers), comment ∩ like, share ∩ comment |
| FunnelVisualization.ChartMatchesReport | funnel_visualization.py:18-61 | on the same log the chart's counts equal the funnel report's counts step for step |
| FunnelVisualization.PrintedPairs | funnel_visualization.py:75-76 | `zip`: as many pairs as the shorter list, pair i is label i with count i |
| FunnelVisualization.PrintedPairsMatchReport | funnel_visualization.py:71-76 | each printed line pairs a step label with the funnel report's count at the same step |
| TransitiveFunnel.Reached | funnel_visualization.py:10-14 | a user reaches step i exactly when registered and having an event of every step type up to i |
| TransitiveFunnel.Counts | funnel_visualization.py:10-14 | five counts, count i is the number of users reaching step i |
| TransitiveFunnel.Steps | funnel_analysis.py:81-87 | the sequential counts under the report's five keys, in order |
| TransitiveFunnel.ReachedNested | funnel_visualization.py:10-14 | reaching a later step implies reaching every earlier one |
| TransitiveFunnel.CountsNonIncreasing | funnel_analysis.py:9-12 | the sequential funnel's counts never grow from one step to a later one |
| TransitiveFunnel.ConversionsInRange | funnel_analysis.py:94-101 | every conversion of the sequential funnel lies in [0, 100] |
| TransitiveFunnel.AgreesUpToLike | funnel_analysis.py:28-51 | under the foreign key the shipped Signup, View and Like counts equal the sequential ones |
| TransitiveFunnel.UngatedLogSets | funnel_analysis.py:53-77 | the per-type user sets of the one-user counterexample log |
| TransitiveFunnel.UngatedFromSets | funnel_analysis.py:53-77 | with those sets the shipped Like, Comment and Share are 0, 1, 1 while the sequential Comment and Share are 0 |
| TransitiveFunnel.UngatedCounterexample | funnel_analysis.py:53-77 | a user with like, comment and share but no view is counted at Comment and Share, so Comment exceeds Like, while the sequential funnel counts them at neither |
| Retention.GetBasicCounts | analyze_retention.py:11-22 | total = rows of `users`, engaged = distinct engaged users, engaged + not engaged = total; under the foreign key 0 <= engaged <= total and not engaged >= 0; with both constraints not engaged = registered users outside the engaged set |
| Retention.EngagedWithinUsers | analyze_retention.py:12-22 | under the foreign key engaged <= total; with unique ids total − engaged counts the registered non-engaged users |
| Retention.Returners | analyze_retention.py:31-38 | the day-n returners are registered users |
| Retention.ReturnerIffExactDate | analyze_retention.py:29-36 | with unique ids a user is a day-n returner exactly when one of their events is dated signup day + n |
| Retention.ReturnerCountedOnce | analyze_retention.py:37 | a further event of a returner does not change the returner set, so each returner counts once |
| Retention.RetentionAtOffset | analyze_retention.py:31-47 | returners = the day-n returner set's size; engaged returners = returners ∩ engaged; the two parts add up to returners; returners <= total and engaged returners <= engaged; under the foreign key not-engaged returners <= not engaged; no users gives (0, 0, 0) |
| Retention.CohortBounds | analyze_retention.py:44-47 | the cardinality facts behind the cohort's split and bounds |
| Retention.CohortPartition | analyze_retention.py:45-47 | engaged and not-engaged returners are disjoint and together make up the returners |
| Retention.RatesInRange | analyze_retention.py:78-86 | under the foreign key the three printed rates of a cohort lie in [0, 100] |
| Retention.ReportConsistent | analyze_retention.py:7-86 | under the foreign key both printed cohorts split into their parts and stay within the total, and all six rates lie in [0, 100] |
| Retention.CohortRatesOf | analyze_retention.py:78-86 | each of the three printed rates is 0 when its denominator (total, engaged or not-engaged users) is 0, and lies in [0, 100] when its part is between 0 and its denominator; RatesInRange and ReportConsistent apply this to the report |
| Retention.RetentionMain | analyze_retention.py:7-86 | the report's basic counts are the total rows and the distinct engaged users; its day-1 and day-7 cohorts count the returners at offsets 1 and 7 and their engaged part; each printed rate is the safe rate of that cohort figure over its denominator; ReportConsistent and NoUsersNoRetention state its bounds and empty case |
| Retention.NoUsersNoRetention | analyze_retention.py:7-86 | with no users both cohorts are (0, 0, 0) and all six rates are 0 |
| Retention.DayTwoIsNotDayOne | analyze_retention.py:36 | an event two days after signup makes a day-2 returner, not a day-1 returner |
| AcquisitionAnalysis.CountInChannel | acquisition_analysis.py:19-21 | a channel's row count is at most the number of users, and 0 exactly when no user has that channel |
| AcquisitionAnalysis.DistinctChannels | acquisition_analysis.py:21 | the GROUP BY keys: no duplicates, exactly the channels present among the users |
| AcquisitionAnalysis.RowsFor | acquisition_analysis.py:19-21 | one row per listed channel, carrying that channel's row count |
| AcquisitionAnalysis.GroupByChannel | acquisition_analysis.py:18-21 | distinct channels, exactly the present ones, every count >= 1 and equal to the channel's row count, counts summing to the number of users |
| AcquisitionAnalysis.SumCountsAppend | acquisition_analysis.py:19-21 | the sum of counts distributes over concatenation |
| AcquisitionAnalysis.RowsForAppendUser | acquisition_analysis.py:19-21 | one more user adds one to the sum exactly when their channel is listed |
| AcquisitionAnalysis.GroupSum | acquisition_analysis.py:18-21 | the grouped counts add up to the number of users |
| AcquisitionAnalysis.InsertByCount | acquisition_analysis.py:22 | inserting into a non-increasing list keeps it non-increasing, adds exactly that row and its count |
| AcquisitionAnalysis.SortByCountDesc | acquisition_analysis.py:22 | the sorted rows are non-increasing in count and a permutation of the input, with the same sum |
| AcquisitionAnalysis.PermutationKeepsChannelsDistinct | acquisition_analysis.py:22 | reordering rows with distinct channels keeps them distinct |
| AcquisitionAnalysis.AcquisitionSummary | acquisition_analysis.py:18-27 | rows ordered by count, largest first, a permutation of the grouped rows: one per present channel, each count >= 1 and equal to the channel's count, summing to the number of users |
| AcquisitionAnalysis.ChannelEngaged | acquisition_analysis.py:42-46 | the LEFT JOIN's engaged set for a channel is the channel's users intersected with the engaged users |
| AcquisitionAnalysis.ChannelUsersCard | acquisition_analysis.py:41 | with unique ids a channel's distinct users number as many as its rows |
| AcquisitionAnalysis.ChannelEngagement | acquisition_analysis.py:39-47 | a channel's row: total = distinct users, engaged = distinct engaged users, 0 <= engaged <= total, total >= 1 for a present channel, total = its row count when ids are unique |
| AcquisitionAnalysis.EngagementRows | acquisition_analysis.py:38-47 | one row per listed channel, in order, each that channel's engagement row |
| AcquisitionAnalysis.AcquisitionEngagement | acquisition_analysis.py:38-50 | one row per grouped channel, in the grouped order, each that channel's engagement row |
| AcquisitionAnalysis.EngagementRatesInRange | acquisition_analysis.py:50-53 | every row has total >= 1 and its printed rate lies in [0, 100] |
| AcquisitionAnalysis.UnengagedChannelKept | acquisition_analysis.py:43-47 | a present channel none of whose users is engaged still has a row, with engaged 0 and rate 0 |
| AcquisitionAnalysis.UnengagedRow | acquisition_analysis.py:42-46 | such a channel's row has engaged 0 |
| AcquisitionAnalysis.EngagementTotalsMatchSummary | acquisition_analysis.py:18-22 | with unique ids each engagement row's total is that channel's count in the summary |
| AcquisitionAnalysis.SingleUserRow | acquisition_analysis.py:39-47 | a one-user channel has total 1, and engaged 1 exactly when that user is engaged |
| AcquisitionAnalysis.ScenarioChannels | acquisition_analysis.py:47 | on the three-user example the groups are organic, ads, influencer |
| AcquisitionAnalysis.EngagementFromRows | acquisition_analysis.py:38-47 | three channels' engagement rows are determined by their per-channel rows |
| AcquisitionAnalysis.ScenarioRows | acquisition_analysis.py:39-47 | the three example channels' rows: organic 1 of 1, ads 0 of 1, influencer 1 of 1 |
| AcquisitionAnalysis.ScenarioEngagementByChannel | acquisition_analysis.py:38-53 | the example's engagement report is organic 1/1 (100%), ads 0/1 (0%), influencer 1/1 (100%) |
| AcquisitionVisualization.CountColumnSum | acquisition_visualization.py:26 | the counts column sums to the rows' count sum |
| AcquisitionVisualization.UsersByChannel | acquisition_visualization.py:17-26 | parallel channels and counts columns, one entry per grouped row in row order, counts >= 1 summing to the number of users, channels exactly those present |
| AcquisitionVisualization.EngagementRateByChannel | acquisition_visualization.py:41-61 | after the loop both lists have one entry per LEFT JOIN row; entry i is row i's channel and its safe rate, which lies in [0, 100] |

## Left out

- Database access, file paths, printing and plotting are left out, and each query is modelled as a function of the two in-memory relations. This covers the SQLite connections, `execute`/`fetch` and matplotlib. Print formatting is left out too: `:.1f` rounding, `capitalize` and the messages.
- Floating point: rates are exact `real`s, so no rounding is modelled.
- Dates are integer day numbers. ISO-8601 parsing, `date(event_time)` and `date(signup_date, '+n day')` are not modelled: an event's date is its `day` field and the target date is `signupDay + n`.
- The `device_type`, `country` and `event_id` columns are not modelled, because no core query reads them.
- SQL NULLs are not modelled: ids are plain integers. This keeps `NOT IN` at analyze_retention.py:47 a set difference.
- SQL leaves the row order of GROUP BY, and the order of rows tied under ORDER BY, unspecified. The model takes one admissible order: groups in the order their channel first appears among the users, and a stable sort that keeps tied rows in that order. Properties that hold for every order, such as sums, membership and non-increasing counts, do not depend on this choice.
- `print_funnel_results` looks up `results[steps[i - 1]]` by dictionary key. The model reads index i − 1, which is the same entry because the five keys are distinct and in insertion order.
- generate_data.py, main.py and check.py are not part of this model. They generate random data, bootstrap the schema and print row-count diagnostics.
- FunnelAnalysis.ConversionRates: its contract gives each conversion as the safe rate of the two counts. The [0, 100] bound is stated separately, only where the model proves it: LikeConversionInRange and TransitiveFunnel.ConversionsInRange. The shipped counts do not satisfy that bound for Comment and Share.

## Findings

| source | as written | input that shows it | evidently intended | confidence | as-written member | corrected member |
|---|---|---|---|---|---|---|
| funnel_analysis.py:53-77 (also funnel_visualization.py:41-61) | Comment counts users with a comment event and any like event; Share counts users with a share event and any comment event. Neither step requires the previous step to have been reached, so the counts can increase along the funnel. | One registered user with a like, a comment and a share event and no view: Like 0, Comment 1, Share 1. | A sequential funnel ("each step requires the previous step"): a user reaches a step when they reached the previous step and have an event of this step's type, so the counts never increase. | medium, not executed | TransitiveFunnel.UngatedCounterexample | TransitiveFunnel.CountsNonIncreasing |
