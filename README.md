# Startup Growth AE Manager Dashboard — metrics and rules, in Dafny

This project models the metrics and rules layer of a sales-management dashboard
for an account-executive (AE) team, and proves properties of it. The layer covers:

- **Account health.** Five component scores (usage trend, support load,
  engagement, renewal runway, payment status), each clamped to [0, 100], and
  their fixed-weight sum.
- **Forecast.** Opportunities fall into commit, best-case and upside buckets by
  win probability. The layer also computes pipeline coverage, forecast error
  and a per-stage breakdown.
- **Coaching flags.** Five threshold rules per AE, each raising at most one
  medium or high flag.
- **Manager actions.** A stable descending sort of the action candidates by
  impact plus urgency, the top six turned into dated actions. The actions panel
  cycles an action's status and orders the panel with blocked actions first.
- **Scenario planning.** Preset shifts of the stage probabilities, and a
  recalculation with per-stage probability overrides.
- **Account plans.** The completeness of an account plan, in the metrics
  library and in the editor.
- **Dashboard loader helpers.** Quarter keys, the prior quarter,
  period-over-period deltas, health bands, discount guardrails, the remaining
  target, default stage probabilities, action-candidate assembly and per-AE
  activity counters.
- **Other views.** The accounts table's filters, the stakeholder matrix's
  influence scores, the breadcrumb trail, the manager-question status strip,
  and the persisted table-view state.

One module per source file. Shared helpers live in `Numbers` (clamp,
`Math.round`, sums), `Text` (strings), `StableSort` (the stable descending sort
used by the three sorts of the source) and `Options` (null/undefined).

Form follows the source:

- Pure code becomes functions and lemmas.
- Loops and in-place updates become methods with loop invariants. Each is
  proved equal to a specification function, and the properties are proved of
  that function:
  - `Forecast.BucketForecast` and `Forecast.StageBreakdownByBucket`;
  - `Coaching.BuildCoachingFlags`;
  - `ManagerActions.RankManagerActions`, which sorts the caller's array in place;
  - `DashboardData.DefaultStageProbabilities`, `DashboardData.ActivityByAE` and
    `DashboardData.RenewalTouches`;
  - the constructor and methods of the `ActionsPanel.Panel` class, which holds
    the panel's status map.

Numbers are mathematical reals, strings are `seq<char>`, and dates are day
numbers. The current time, database queries and JSON codecs are inputs.

Three behaviours of the code worth knowing:

- **Probabilities in the gaps.** A probability of 0.699999 is in no bucket,
  since best case stops at 0.69 (`Forecast.BucketBoundaries`).
- **When the buckets hold the whole pipeline.** They hold all of it exactly when
  every opportunity with a positive amount has a probability outside the gaps
  (0.39, 0.4) and (0.69, 0.7) and of at least 0.1. "Every probability at least
  0.1" is not enough (`Forecast.BucketsWithinPipeline`).
- **More tickets.** More weighted support tickets lower the health score
  strictly only while the support score is still above 0
  (`Health.TicketsLowerScore`).

## Model

| member | source | states |
|---|---|---|
| Numbers.Clamp | lib/metrics/health.ts:65-67 | the result is at least the lower bound, at most the upper one, and equals the value inside the range and the crossed bound outside it |
| Numbers.ClampMonotone | lib/metrics/health.ts:65-67 | clamping never reverses the order of two values |
| Numbers.Round | components/account-plan-editor.tsx:33 | Math.round: the result is the integer within half a unit of the value, halves going up |
| Numbers.RoundMonotone | lib/metrics/account-plan.ts:39 | rounding never reverses the order of two values |
| Numbers.SumAppend | lib/dashboard-data.ts:131-133 | the sum of a concatenation is the sum of the parts |
| Numbers.SumBounds | lib/dashboard-data.ts:131-133 | n values in [lo, hi] sum to between n·lo and n·hi |
| Numbers.MeanBounds | lib/dashboard-data.ts:741-743 | the mean of a non-empty list of values in [lo, hi] lies in [lo, hi] |
| Text.NatToString | lib/dashboard-data.ts:58 | the decimal rendering is a non-empty string of digits, of length 1 exactly below 10 |
| Text.IntToString | lib/dashboard-data.ts:58 | definition: a template literal of an integer, "-" before the digits of a negative one; injective by Text.IntToStringInjective |
| Text.NatToStringInjective | lib/dashboard-data.ts:58 | different naturals render differently |
| Text.IntToStringInjective | lib/dashboard-data.ts:58 | different integers render differently, so a year can be recovered from its rendering |
| Text.FirstCharIsSign | lib/dashboard-data.ts:58 | a rendering starts with '-' exactly for a negative number |
| Text.ToLower | components/accounts/stakeholder-matrix.tsx:9 | lower-casing keeps the length |
| Text.StartsWith | lib/dashboard-data.ts:485 | definition: the string begins with the prefix |
| Text.Contains | components/accounts/stakeholder-matrix.tsx:9-13 | definition: String.prototype.includes, the substring starts at some position |
| Text.Trim | lib/metrics/account-plan.ts:33 | definition: String.prototype.trim, both ends stripped; its meaning is Text.TrimStart, Text.TrimEnd and Text.TrimNonEmptyIff |
| Text.TrimStart | lib/metrics/account-plan.ts:33 | leading whitespace removed: a suffix whose first character is not whitespace, all of the dropped characters whitespace |
| Text.TrimEnd | lib/metrics/account-plan.ts:33 | trailing whitespace removed: a prefix whose last character is not whitespace, all of the dropped characters whitespace |
| Text.TrimNonEmptyIff | lib/metrics/account-plan.ts:33 | `trim().length > 0` holds exactly when the string has a non-whitespace character |
| Text.SplitOn | components/layout/breadcrumbs.tsx:29 | split gives at least one part and no part holds the separator |
| Text.Join | components/layout/breadcrumbs.tsx:37 | definition: Array.prototype.join with a one-character separator; inverse of Text.SplitOn by Text.JoinSplit and Breadcrumbs.SplitJoin |
| Text.JoinSplit | components/layout/breadcrumbs.tsx:29 | joining the parts of a split gives back the string |
| Text.JoinSnoc | components/layout/breadcrumbs.tsx:37 | joining one more part appends the separator and the part |
| Text.Slice | components/layout/breadcrumbs.tsx:22 | String.prototype.slice: the substring between the bounds, the end clamped to the length, empty when the bounds cross or start past the end |
| Text.ReplaceChar | components/layout/breadcrumbs.tsx:24 | replaceAll of one character keeps the length |
| StableSort.InsertBackPermutes | lib/metrics/manager-actions.ts:16 | inserting into a list keeps exactly its elements and the new one |
| StableSort.SortDescPermutes | lib/metrics/manager-actions.ts:16 | the sort is a permutation of its input |
| StableSort.InsertBackSorted | lib/metrics/manager-actions.ts:16 | inserting into a descending list keeps it descending |
| StableSort.SortDescSorted | lib/metrics/manager-actions.ts:16 | the sort's output is in descending key order |
| StableSort.WithKeyAppend | lib/metrics/manager-actions.ts:16 | the elements of one key in a concatenation are those of each part, in order |
| StableSort.InsertBackStable | lib/metrics/manager-actions.ts:16 | inserting keeps the input order among elements of equal key |
| StableSort.SortDescStable | lib/metrics/manager-actions.ts:16 | the sort is stable: per key, the output lists the elements in input order |
| StableSort.SortInPlace | lib/metrics/manager-actions.ts:15-16 | the in-place sort of an array leaves it holding the stable descending sort of its old contents |
| StableSort.InsertLast | lib/metrics/manager-actions.ts:16 | one insertion step in place: the prefix becomes the insertion of its last element and the rest is unchanged |
| Health.WeightsSumToOne | lib/metrics/health.ts:3-9 | the five weights are positive and sum to 1 |
| Health.UsageTrendScore | lib/metrics/health.ts:31 | in [0, 100]; 50 at a flat trend, 50 + 2·trend between -25% and +25%, 100 above and 0 below |
| Health.SupportScore | lib/metrics/health.ts:32 | in [0, 100]; 100 without tickets, 0 from 9 weighted tickets on, and positive exactly below 100/12 tickets |
| Health.MeetingScore | lib/metrics/health.ts:34 | in [0, 60], and 60 from five meetings on |
| Health.StakeholderScore | lib/metrics/health.ts:35 | in [0, 24], and 24 from three stakeholders on |
| Health.QbrScore | lib/metrics/health.ts:36 | 16 exactly when the QBR was completed, otherwise 0 |
| Health.EngagementScore | lib/metrics/health.ts:34-37 | the outer clamp never acts: the score is the sum of the three capped parts, at most 84 without a QBR and at least 16 with one |
| Health.RenewalScore | lib/metrics/health.ts:39-40 | in [0, 100]; 0 at or past renewal, 100 from 180 days on, and days·100/180 in between |
| Health.PaymentScore | lib/metrics/health.ts:42-43 | 100 for good, 60 for watch, 25 for overdue |
| Health.WeightedSumBounds | lib/metrics/health.ts:45-53 | a weighted sum of five scores in [0, 100] lies in [0, 100] |
| Health.ComputeHealthScore | lib/metrics/health.ts:30-63 | every component and the weighted score lie in [0, 100], and the weighted score is exactly the weighted sum, so its clamp never acts |
| Health.HealthMonotone | lib/metrics/health.ts:30-63 | an account at least as healthy on every signal never gets a lower component or weighted score |
| Health.TicketsLowerScore | lib/metrics/health.ts:32 | more weighted tickets never raise the score, and lower it strictly exactly when the old count is below 100/12 and the new count is above 0 |
| Health.WeakBelowStrong | tests/unit/health.test.ts:21-42 | the weak-signal example scores below the strong-signal one |
| Forecast.StageNameInjective | lib/metrics/forecast.ts:49-53 | different stages have different enum names |
| Forecast.BucketOf | lib/metrics/forecast.ts:19-25 | commit exactly from 0.7, best case exactly on [0.4, 0.69], upside exactly on [0.1, 0.39], and no bucket below 0.1 or in the gaps (0.39, 0.4) and (0.69, 0.7) |
| Forecast.BucketBoundaries | lib/metrics/forecast.ts:19-25 | 0.7 is commit, 0.69 and 0.4 best case, 0.39 and 0.1 upside; 0.0999, 0.699999 and 0.395 are in no bucket |
| Forecast.AmountOf | lib/metrics/forecast.ts:17-29 | definition: the total amount of the selected opportunities; its properties are Forecast.AmountOfSnoc and Forecast.AmountNonNegative |
| Forecast.BucketTotals | lib/metrics/forecast.ts:16-30 | definition: per bucket, the amount of the opportunities whose probability falls in it; the reference the loop Forecast.BucketForecast is proved against |
| Forecast.BucketForecast | lib/metrics/forecast.ts:16-30 | the reduce yields, per bucket, the total amount of the opportunities in that bucket |
| Forecast.BucketsPartition | lib/metrics/forecast.ts:16-30 | the three buckets and the unbucketed rest add up to the whole amount |
| Forecast.AmountNonNegative | lib/metrics/forecast.ts:16-30 | with non-negative amounts every selected total is non-negative, and 0 exactly when each selected amount is 0 |
| Forecast.BucketsWithinPipeline | lib/metrics/forecast.ts:16-30 | with non-negative amounts the buckets never hold more than the pipeline, and hold all of it exactly when every positive amount is bucketed |
| Forecast.BucketExample | tests/unit/forecast.test.ts:6-16 | 100 at 0.75, 200 at 0.55 and 300 at 0.25 bucket to commit 100, best case 200, upside 300 |
| Forecast.AmountOfSnoc | lib/metrics/forecast.ts:17-29 | one more opportunity adds its amount exactly when it is selected |
| Forecast.PipelineCoverage | lib/metrics/forecast.ts:32-37 | 0 when no target remains, otherwise the ratio whose product with the remaining target is the pipeline |
| Forecast.ForecastAccuracy | lib/metrics/forecast.ts:39-44 | 0 for a zero actual, otherwise the ratio whose product with the actual is the absolute error; non-negative for a positive actual |
| Forecast.RatioExamples | tests/unit/forecast.test.ts:18-25 | coverage 2 for 1,000,000 over 500,000; 0 for a zero or negative target; error 0.1 for 100 against 90, and 0 for a zero actual |
| Forecast.Stages | lib/metrics/forecast.ts:49-59 | definition: the distinct stages in order of first appearance; characterised by Forecast.StagesSpec |
| Forecast.StageRows | lib/metrics/forecast.ts:46-72 | definition: one row per stage of Forecast.Stages, with that stage's commit, best-case and whole amounts; the reference the loop Forecast.StageBreakdownByBucket is proved against |
| Forecast.StagesSpec | lib/metrics/forecast.ts:49-59 | the stage list holds exactly the stages of the input, each once |
| Forecast.OfAbsentStage | lib/metrics/forecast.ts:52-59 | a stage not yet seen has no opportunities |
| Forecast.RowForSnoc | lib/metrics/forecast.ts:61-68 | one more opportunity changes only its own stage's row, by the loop body's update |
| Forecast.StageBreakdownByBucket | lib/metrics/forecast.ts:46-72 | the map-building loop yields one row per distinct stage in order of first appearance, each with that stage's commit, best-case and whole amounts |
| Forecast.RowWithinPipeline | lib/metrics/forecast.ts:62-68 | with non-negative amounts a row's commit plus best case never exceeds its pipeline |
| Forecast.OfStageMembers | lib/metrics/forecast.ts:51-52 | a stage's opportunities are input opportunities of that stage |
| Forecast.SumRowsSnoc | lib/metrics/forecast.ts:61-68 | one more opportunity adds its amount to the sum over the rows exactly when its stage is listed and it is selected |
| Forecast.StageRowsSum | lib/metrics/forecast.ts:46-72 | summed over the rows, commit, best case and pipeline equal the global totals |
| Forecast.RowsForSnoc | lib/metrics/forecast.ts:71 | one more stage adds its row's value to the sum |
| Forecast.NewStageRow | lib/metrics/forecast.ts:52-68 | a stage seen for the first time holds just the new opportunity |
| Forecast.StageRowsMatchBuckets | lib/metrics/forecast.ts:16-72 | the breakdown's commit and best-case columns add up to bucketForecast's commit and best case, and its pipeline column to the whole amount |
| Forecast.StageRowsShape | lib/metrics/forecast.ts:49-71 | one row per distinct stage, every input stage has a row, and no two rows share a stage |
| Coaching.Raised | lib/metrics/coaching.ts:17-65 | definition: the five rule conditions, coverage below 2.5, at least 3 slipping deals, discount above 0.18, fewer than 2.5 stakeholders, fewer than 2 renewal touches |
| Coaching.Severe | lib/metrics/coaching.ts:17-65 | definition: the stricter thresholds for high severity, coverage below 1.8, 5 slipping deals, discount above 0.24, fewer than 2 stakeholders, never for renewal touches |
| Coaching.FlagsFor | lib/metrics/coaching.ts:16-66 | definition: one input's flags, the raised rules' flags in rule order; characterised by Coaching.FlagsForSpec |
| Coaching.CoachingFlags | lib/metrics/coaching.ts:13-69 | definition: the flags of every input, input by input; the reference the loop Coaching.BuildCoachingFlags is proved against |
| Coaching.RuleIndex | lib/metrics/coaching.ts:17-65 | each rule has a position in the order the rules are checked |
| Coaching.BuildCoachingFlags | lib/metrics/coaching.ts:13-69 | the push loop yields, input by input, the flags of the raised rules in rule order |
| Coaching.PushFlagsFor | lib/metrics/coaching.ts:16-66 | one pass of the loop body appends exactly the input's flags, in rule order |
| Coaching.FlagsOverSnoc | lib/metrics/coaching.ts:17-65 | checking one more rule appends its flag when raised |
| Coaching.FlagsForUnfolded | lib/metrics/coaching.ts:17-65 | one input's flags are the five rules' pushes in order |
| Coaching.FlagsOverFields | lib/metrics/coaching.ts:17-65 | every flag is about its input, comes from a raised rule, is high exactly past the stricter threshold, and is never low |
| Coaching.FlagsOverOrdered | lib/metrics/coaching.ts:17-65 | the flags come in rule order |
| Coaching.FlagsOverComplete | lib/metrics/coaching.ts:17-65 | a listed rule has a flag exactly when it is raised |
| Coaching.FlagsForSpec | lib/metrics/coaching.ts:17-65 | per input: at most five flags, one per raised rule and none otherwise, in rule order, about that AE, high exactly past the stricter threshold, never low |
| Coaching.WorseMetricsMoreFlags | lib/metrics/coaching.ts:17-65 | an AE doing no better on any metric gets every flag the other gets, at least as severe |
| Coaching.CoachingFlagsAppend | lib/metrics/coaching.ts:16-66 | the flags of concatenated inputs are the concatenated flags; there is no sorting across inputs |
| Coaching.CoachingFlagsOrigin | lib/metrics/coaching.ts:16-66 | every flag comes from some input, at most five per input |
| Coaching.AllFlagsExample | lib/metrics/coaching.ts:17-65 | an AE past every threshold gets five flags, all high except the always-medium renewal-touch flag |
| ManagerActions.ImpactOf | lib/metrics/manager-actions.ts:27 | high exactly from 15, medium exactly on [10, 15), low below 10 |
| ManagerActions.ImpactMonotone | lib/metrics/manager-actions.ts:27 | a larger total never gets a lower impact |
| ManagerActions.StatusAt | lib/metrics/manager-actions.ts:28 | blocked exactly for blocked candidates; otherwise new in the first three places and in progress after |
| ManagerActions.ToAction | lib/metrics/manager-actions.ts:18-30 | definition: the action at ranking position idx, due on day today + idx + 1, with impact from the total and status from the position |
| ManagerActions.ActionsOf | lib/metrics/manager-actions.ts:17-30 | definition: the first six of a ranked list, each made into its action |
| ManagerActions.Rank | lib/metrics/manager-actions.ts:14-31 | definition: the actions of the stable descending sort by impact plus urgency; characterised by ManagerActions.RankSpec and ManagerActions.RankOrdered |
| ManagerActions.RankManagerActions | lib/metrics/manager-actions.ts:14-31 | the caller's array is left sorted in place, and the result is the ranking of its old contents |
| ManagerActions.RankSpec | lib/metrics/manager-actions.ts:14-31 | at most six actions taken from a permutation sorted descending, none left out with a larger total; identity fields copied, due on days today+1 onwards, impact from the total, blocked exactly when the candidate is, and new exactly when the candidate is unblocked and among the first three places |
| ManagerActions.RankOrdered | lib/metrics/manager-actions.ts:14-31 | impact never rises and due days strictly increase along the ranking |
| PipelineScenario.PresetShift | lib/pipeline-scenario.ts:3-7 | conservative -8, current 0, aggressive +8 |
| PipelineScenario.ApplyScenarioPreset | lib/pipeline-scenario.ts:9-19 | the same stages, every value in [0, 100] |
| PipelineScenario.ShiftOrClamp | lib/pipeline-scenario.ts:13-16 | a stage moves by exactly the shift unless that leaves [0, 100], in which case it sits at the bound crossed |
| PipelineScenario.CurrentIsIdentity | lib/pipeline-scenario.ts:3-19 | the current preset leaves values in [0, 100] unchanged |
| PipelineScenario.PresetsOrdered | lib/pipeline-scenario.ts:3-19 | per stage conservative ≤ current ≤ aggressive, each within 8 of current |
| PipelineScenario.PresetExamples | tests/unit/pipeline-scenario.test.ts:15-31 | 20 and 85 shift to 12/28 and 77/93; 2 and 99 clamp to 0 and 100 |
| AccountPlan.FieldCompleteIff | lib/metrics/account-plan.ts:26-37 | a string field counts exactly when it has content; a date always counts; a missing, null or undefined field never does |
| AccountPlan.CountComplete | lib/metrics/account-plan.ts:26-37 | never more than the number of fields |
| AccountPlan.CompletionPercent | lib/metrics/account-plan.ts:39 | in [0, 100], within half a point of the exact percentage, 0 exactly for none and 100 exactly for all seven |
| AccountPlan.CompletionPercentTable | lib/metrics/account-plan.ts:39 | the eight possible scores 0, 14, 29, 43, 57, 71, 86 and 100 |
| AccountPlan.AccountPlanCompleteness | lib/metrics/account-plan.ts:21-40 | in [0, 100]; 0 for a null plan, otherwise the rounded share of the seven fields filled in |
| AccountPlan.CountAgrees | lib/metrics/account-plan.ts:26-37 | plans that agree on which fields are filled in count the same |
| AccountPlan.OnlyRequiredFieldsMatter | lib/metrics/account-plan.ts:1-9 | keys other than the seven required fields never change the score |
| AccountPlan.CountFillMonotone | lib/metrics/account-plan.ts:26-37 | filling a field never lowers the count |
| AccountPlan.FillingNeverLowers | lib/metrics/account-plan.ts:21-40 | filling a field never lowers the score |
| AccountPlan.SixOfSevenExample | tests/unit/account-plan.test.ts:6-18 | six fields filled and the next-QBR date null score 86 |
| AccountPlan.StrCounts | lib/metrics/account-plan.ts:32-33 | a string starting with a non-whitespace character counts |
| AccountPlan.CountAllButLast | lib/metrics/account-plan.ts:26-37 | the first six filled and the seventh not count 6 |
| AccountPlan.FullAndEmpty | lib/metrics/account-plan.ts:21-40 | 100 exactly when all seven fields are filled, 0 exactly when none is |
| AccountPlan.CountExtremes | lib/metrics/account-plan.ts:26-37 | the count is full exactly when every field counts, and 0 exactly when none does |
| AccountPlanEditor.Fields | components/account-plan-editor.tsx:22-30 | seven field strings |
| AccountPlanEditor.CountNonBlank | components/account-plan-editor.tsx:32 | never more than the number of fields |
| AccountPlanEditor.CompletenessScore | components/account-plan-editor.tsx:21-34 | in [0, 100] and within half a point of the exact percentage of non-blank fields |
| AccountPlanEditor.PercentNonBlank | components/account-plan-editor.tsx:32-33 | in [0, 100] and within half a point of the exact percentage |
| AccountPlanEditor.FieldAgrees | components/account-plan-editor.tsx:22-32 | each editor field is non-blank exactly when accountPlanCompleteness counts the same field |
| AccountPlanEditor.CountsAgree | components/account-plan-editor.tsx:32 | lists that agree position by position count the same |
| AccountPlanEditor.AgreesWithAccountPlan | components/account-plan-editor.tsx:21-34 | the editor's score equals accountPlanCompleteness of the same plan |
| AccountPlanEditor.NullDateIsEmpty | components/account-plan-editor.tsx:28-29 | a null date scores exactly like an empty date string |
| AccountPlanEditor.CountNonBlankZero | components/account-plan-editor.tsx:32 | the count is 0 exactly when every field is blank |
| AccountPlanEditor.BlankFieldMissing | components/account-plan-editor.tsx:32 | one blank field keeps the count below the number of fields |
| AccountPlanEditor.AllFilledCount | components/account-plan-editor.tsx:32 | with every field filled, every field counts |
| AccountPlanEditor.CountNonBlankFull | components/account-plan-editor.tsx:32 | the count is full exactly when every field is filled |
| AccountPlanEditor.ScoreExtremes | components/account-plan-editor.tsx:21-34 | 0 exactly when no field has content, 100 exactly when all do |
| AccountPlanEditor.DefaultPlanScoresZero | components/account-plan-editor.tsx:38-46 | the editor's default plan scores 0 |
| ManagerQuestions.StatusFromCoverage | lib/metrics/manager-questions.ts:3-7 | on track exactly from 2.5, watch exactly on [2, 2.5), risk below 2 |
| ManagerQuestions.StatusFromForecast | lib/metrics/manager-questions.ts:9-15 | watch without a positive target; otherwise on track exactly when commit is at least 92% of target, watch from 75%, risk below |
| ManagerQuestions.RatioThreshold | lib/metrics/manager-questions.ts:11-13 | for a positive target, the ratio reaches k exactly when commit reaches k·target |
| ManagerQuestions.CoverageMonotone | lib/metrics/manager-questions.ts:3-7 | more coverage never gives a worse status |
| ManagerQuestions.ForecastMonotone | lib/metrics/manager-questions.ts:9-15 | more commit never gives a worse status |
| ManagerQuestions.StatusExamples | tests/unit/manager-questions.test.ts:6-16 | 2.6, 2.2 and 1.7 classify on track, watch and risk; 920k, 820k and 620k of 1M likewise |
| TableView.DensityOf | lib/table-view.ts:18 | a density exactly for "compact" and "comfortable", named by the string |
| TableView.ParseTableView | lib/table-view.ts:13-25 | null for a null or empty string, a decode failure, a non-object or a wrong member kind; otherwise the view with the object's density, filter, page size, sorting and visibility |
| TableView.SerializeTableView | lib/table-view.ts:27-29 | an object the parser accepts |
| TableView.ParseSerialize | lib/table-view.ts:13-29 | parsing what was serialised gives back the view |
| TableView.ResolveDensity | lib/table-view.ts:31-33 | the requested density when it names one, the fallback otherwise |
| TableView.ResolveDensityExamples | tests/unit/table-view.test.ts:22-27 | compact, comfortable, invalid falling back to comfortable, and an undefined request with the compact fallback |
| TableView.TableViewExample | tests/unit/table-view.test.ts:6-20 | the test's view survives the round trip with density, filter and page size |
| DashboardData.QuarterNumber | lib/dashboard-data.ts:51 | a quarter's number is in 1..4 |
| DashboardData.QuarterOfNumber | lib/dashboard-data.ts:68 | `Q${n}` names the quarter whose number is n |
| DashboardData.QuarterContextOf | lib/dashboard-data.ts:50-62 | the parsed number is in 1..4 and names the quarter back |
| DashboardData.QuarterIndex | lib/dashboard-data.ts:64-69 | definition: quarters counted from year 0, so that the prior quarter is one less |
| DashboardData.PriorQuarter | lib/dashboard-data.ts:64-69 | the quarter immediately before (one fewer quarter since year 0), with its own quarterContext |
| DashboardData.PriorQuarterCases | lib/dashboard-data.ts:64-69 | Q1 steps back to Q4 of the previous year; other quarters stay in the year |
| DashboardData.FourPriorQuarters | lib/dashboard-data.ts:64-69 | four steps back reach the same quarter of the previous year |
| DashboardData.QuarterKeyInjective | lib/dashboard-data.ts:58 | a key names one quarter of one year |
| DashboardData.PriorKeyDiffers | lib/dashboard-data.ts:58-68 | the prior quarter's key differs from the current one |
| DashboardData.PctDelta | lib/dashboard-data.ts:135-140 | from 0: 0 exactly when nothing changed, else 100; otherwise previous grown by r percent is current |
| DashboardData.PctDeltaSign | lib/dashboard-data.ts:135-140 | from a positive base the delta has the sign of the change |
| DashboardData.ToHealthBand | lib/dashboard-data.ts:142-150 | healthy exactly from 75, watch exactly on [60, 75), risk below 60 |
| DashboardData.HealthBandMonotone | lib/dashboard-data.ts:142-150 | a higher score never gets a worse band |
| DashboardData.DiscountGuardrailLabel | lib/dashboard-data.ts:152-163 | rep discretion exactly up to 0.1, manager to 0.2, director to 0.3, VP exception above |
| DashboardData.DealDeskRisk | lib/dashboard-data.ts:766-767 | high exactly above 0.2, medium exactly on (0.1, 0.2], low otherwise |
| DashboardData.RecommendedCounter | lib/dashboard-data.ts:780-784 | the approval's counter when it has one, otherwise the term trade for high risk and the enablement package for the rest |
| DashboardData.GuardrailMatchesRisk | lib/dashboard-data.ts:152-163 | low risk is rep discretion, medium a manager, high a director or the VP |
| DashboardData.RemainingTarget | lib/dashboard-data.ts:299 | at least 1 and at least target minus won, and equal to one of the two; the target defaults to 1 |
| DashboardData.CoverageWellDefined | lib/dashboard-data.ts:299-300 | coverage is always pipeline over remaining target, and without a target or wins the remaining target is 1 |
| DashboardData.IsOpen | lib/dashboard-data.ts:723-726 | definition: the filter test, neither closed-lost nor closed-won and probability at least 0.1 |
| DashboardData.OpenOpps | lib/dashboard-data.ts:722-727 | exactly the input opportunities that are not closed and have probability at least 0.1 |
| DashboardData.OpenOppsAppend | lib/dashboard-data.ts:722-727 | the filter keeps query order: filtering a concatenation filters each part |
| DashboardData.OpenOppBucketed | lib/dashboard-data.ts:722-727 | an open opportunity is unbucketed exactly in the gaps (0.39, 0.4) and (0.69, 0.7) |
| DashboardData.AdjustableStagesAreOpen | lib/dashboard-data.ts:729-736 | the adjustable stages are exactly the stages that are not closed |
| DashboardData.Probabilities | lib/dashboard-data.ts:742 | the probabilities of the opportunities, in order |
| DashboardData.AdjustableNamesDistinct | lib/dashboard-data.ts:729-736 | the six stages have six names |
| DashboardData.DefaultProbability | lib/dashboard-data.ts:740-743 | definition: a stage's rounded mean probability in percent over its open opportunities, 0 without any; bounded by DashboardData.DefaultProbabilityBounds |
| DashboardData.DefaultStageProbabilities | lib/dashboard-data.ts:738-745 | one entry per adjustable stage name, each that stage's rounded mean percentage or 0 |
| DashboardData.DefaultProbabilityBounds | lib/dashboard-data.ts:738-745 | with probabilities at most 1, a stage with open opportunities defaults to 10..100, and 0 exactly when it has none |
| DashboardData.AdjustProbability | lib/dashboard-data.ts:805-808 | amount and stage kept, probability in [0, 1]; a listed stage gets its override percent / 100 clamped to [0, 1], an unlisted one its own probability clamped to [0, 1], so an in-range opportunity is unchanged |
| DashboardData.AdjustAll | lib/dashboard-data.ts:805-808 | every opportunity adjusted, in order |
| DashboardData.AdjustKeepsPipeline | lib/dashboard-data.ts:805-808 | adjusting never changes the total amount |
| DashboardData.PresetOverrideExact | lib/dashboard-data.ts:807 | a preset's values are in [0, 100], so an overridden stage gets exactly its percent / 100 |
| DashboardData.ScenarioOf | lib/dashboard-data.ts:805-823 | definition: the buckets and stage rows of the adjusted opportunities; the reference DashboardData.RecalculatePipelineScenario is proved against |
| DashboardData.RecalculatePipelineScenario | lib/dashboard-data.ts:790-824 | buckets and stage rows of the adjusted opportunities, whose commit and best-case columns add up to the totals |
| DashboardData.NoOverridesIsForecast | lib/dashboard-data.ts:805-816 | without overrides the scenario is the plain forecast |
| DashboardData.ScenarioWithinPipeline | lib/dashboard-data.ts:805-821 | with non-negative amounts the scenario's buckets never hold more than the pipeline |
| DashboardData.AllOverriddenToCommit | lib/dashboard-data.ts:805-821 | every stage overridden to at least 70 puts the whole pipeline in commit |
| DashboardData.AllCommit | lib/metrics/forecast.ts:19-25 | all-commit opportunities give commit the whole amount and the other buckets 0 |
| DashboardData.HealthRowOf | lib/dashboard-data.ts:382-383 | definition: a health row holds the rounded weighted score and the band of the unrounded one |
| DashboardData.AtRisk | lib/dashboard-data.ts:389 | exactly the rows whose rounded score is below 60 |
| DashboardData.AtRiskAppend | lib/dashboard-data.ts:389 | the filter keeps the rows' order: filtering a concatenation filters each part |
| DashboardData.AtRiskVersusBand | lib/dashboard-data.ts:382-389 | the list uses the rounded score and the band the raw one: at-risk accounts are in the risk band, and a risk-band account is off the list exactly on [59.5, 60) |
| DashboardData.PendingApprovals | lib/dashboard-data.ts:491-492 | exactly the pending approvals |
| DashboardData.PendingApprovalsAppend | lib/dashboard-data.ts:491-492 | the filter keeps the approvals' order: filtering a concatenation filters each part |
| DashboardData.Take | lib/dashboard-data.ts:477 | slice(0, n): the first min(n, length) elements |
| DashboardData.RiskCandidate | lib/dashboard-data.ts:477-483 | definition: the candidate of the i-th at-risk account, impact 9 - i, urgency 8 |
| DashboardData.CoachCandidate | lib/dashboard-data.ts:484-490 | definition: the candidate of the i-th coaching flag, impact 7 - i, urgency 8 for a high flag and 6 otherwise |
| DashboardData.ApprovalCandidate | lib/dashboard-data.ts:491-501 | definition: the blocked candidate of the i-th pending approval, impact 6 - i, urgency 7 |
| DashboardData.ActionCandidates | lib/dashboard-data.ts:476-502 | definition: the three groups concatenated; characterised by DashboardData.ActionCandidatesSpec |
| DashboardData.ActionCandidatesSpec | lib/dashboard-data.ts:476-502 | up to four risk, four coaching and three approval candidates with their impact, urgency, blocked flag, id and owner |
| DashboardData.RiskGroup | lib/dashboard-data.ts:477-483 | the first four at-risk accounts, the i-th with impact 9 - i, urgency 8, not blocked, its "risk-" id and owner |
| DashboardData.CoachGroup | lib/dashboard-data.ts:484-490 | the first four coaching flags, the i-th with impact 7 - i, urgency 8 exactly for a high flag and 6 otherwise, not blocked, an id starting "coach-" and the AE as owner |
| DashboardData.ApprovalGroup | lib/dashboard-data.ts:491-501 | the first three pending approvals, the i-th with impact 6 - i, urgency 7, blocked and its "approval-" id, each a pending input approval |
| DashboardData.CandidateTotals | lib/dashboard-data.ts:476-502 | only the first at-risk account's candidate totals 17; all others less |
| DashboardData.FirstRiskLeadsRanking | lib/dashboard-data.ts:476-549 | ranked, the first at-risk account comes first, new, high impact and due tomorrow |
| DashboardData.CountsFor | lib/dashboard-data.ts:391-410 | definition: an AE's four per-type totals over the grouped rows; the reference the loop DashboardData.ActivityByAE is proved against |
| DashboardData.ActivityByAE | lib/dashboard-data.ts:391-410 | one entry per AE of the rows, holding its four per-type totals |
| DashboardData.AddRow | lib/dashboard-data.ts:397-409 | the loop body's four type tests add the row's count to its type's counter only, as DashboardData.CountsForSnoc relies on |
| DashboardData.CountsForSnoc | lib/dashboard-data.ts:397-409 | one more row changes only its AE's counters, by its type |
| DashboardData.CountersPartition | lib/dashboard-data.ts:397-409 | the four counters add up to all of the AE's counts |
| DashboardData.RenewalTouches | lib/dashboard-data.ts:412-415 | one entry per AE of the activities, holding how many it has (at least 1) |
| ActionsPanel.Lookup | components/manager-actions-panel.tsx:26-27 | a status exactly for ids in the map |
| ActionsPanel.NextStatus | components/manager-actions-panel.tsx:40-41 | definition: new to in progress, in progress to blocked, anything else, a missing status included, to new |
| ActionsPanel.NextStatusCycle | components/manager-actions-panel.tsx:41 | three clicks restore a status and one click always changes it |
| ActionsPanel.Cycled | components/manager-actions-panel.tsx:42 | the clicked id is added to the keys |
| ActionsPanel.CycledEffect | components/manager-actions-panel.tsx:38-44 | only the clicked id changes, an id without status becomes new |
| ActionsPanel.CycledThrice | components/manager-actions-panel.tsx:38-44 | three clicks on a known id restore the whole map |
| ActionsPanel.StatusMapOf | components/manager-actions-panel.tsx:12-21 | definition: the reduce writing each action's status under its id; characterised by ActionsPanel.StatusMapOfKeys and ActionsPanel.StatusMapOfLastWins |
| ActionsPanel.StatusMapOfKeys | components/manager-actions-panel.tsx:12-21 | the seeded map has exactly the actions' ids |
| ActionsPanel.StatusMapOfLastWins | components/manager-actions-panel.tsx:12-21 | each id holds the status of its last action |
| ActionsPanel.Compare | components/manager-actions-panel.tsx:25-34 | definition: the comparator as written; equivalent to the status key by ActionsPanel.CompareMatchesKey |
| ActionsPanel.CompareMatchesKey | components/manager-actions-panel.tsx:25-34 | the comparator orders as the key: blocked, then new, then the rest |
| ActionsPanel.OrderedSpec | components/manager-actions-panel.tsx:23-36 | the order is a permutation, blocked first, then new, then the rest, stable within a status |
| ActionsPanel.Panel.constructor | components/manager-actions-panel.tsx:12-21 | the status map is the reduce over the actions |
| ActionsPanel.Panel.CycleStatus | components/manager-actions-panel.tsx:38-44 | the map becomes the one-click update |
| ActionsPanel.Panel.OrderedActions | components/manager-actions-panel.tsx:23-36 | sorting a copy in place yields the display order |
| AccountsTable.InArrBand | components/tables/accounts-table.tsx:71-77 | definition: below 50,000, 50,000 up to 150,000, from 150,000; "all" and unknown bands pass every value |
| AccountsTable.InHealthBand | components/tables/accounts-table.tsx:79-85 | definition: below 60, 60 up to 75, from 75; "all" and unknown bands pass every score |
| AccountsTable.ArrBandsPartition | components/tables/accounts-table.tsx:71-77 | exactly one ARR band holds for each value, and unknown bands hold for all |
| AccountsTable.HealthBandsMatchDashboard | components/tables/accounts-table.tsx:79-85 | the health bands are the dashboard's risk, watch and healthy bands |
| AccountsTable.RenewalMonth | components/tables/accounts-table.tsx:96 | characters 5 and 6 of a full date, empty for a short one |
| AccountsTable.Keep | components/tables/accounts-table.tsx:95-104 | definition: the filter callback, the conjunction of the five filters, each "all" or a match |
| AccountsTable.Filtered | components/tables/accounts-table.tsx:94-106 | never more rows than the data |
| AccountsTable.FilteredMembers | components/tables/accounts-table.tsx:94-106 | exactly the rows of the data that the callback keeps |
| AccountsTable.FilteredIsSubsequence | components/tables/accounts-table.tsx:94-106 | filtering only deletes rows, keeping the order |
| AccountsTable.FilteredKeepsAllKept | components/tables/accounts-table.tsx:94-106 | when the callback keeps every row, the data comes back unchanged |
| AccountsTable.AllFiltersKeepAll | components/tables/accounts-table.tsx:88-106 | all filters at "all" keep every row |
| AccountsTable.MonthFilter | components/tables/accounts-table.tsx:96-101 | a month filter keeps exactly the rows renewing in that month |
| StakeholderMatrix.RoleScore | components/accounts/stakeholder-matrix.tsx:8-15 | 2..5, decided by the first keyword found: economic 5, finance or procurement 4, product or technical 3, none 2 |
| StakeholderMatrix.RoleScoreIgnoresCase | components/accounts/stakeholder-matrix.tsx:9-13 | a role and its lower-cased form score alike |
| StakeholderMatrix.EconomicWins | components/accounts/stakeholder-matrix.tsx:9 | an economic buyer scores 5 whatever else the title names |
| StakeholderMatrix.Sorted | components/accounts/stakeholder-matrix.tsx:18 | definition: the stable descending sort of a copy by role score; characterised by StakeholderMatrix.SortedSpec |
| StakeholderMatrix.SortedSpec | components/accounts/stakeholder-matrix.tsx:18 | a permutation in descending score order, stable within a score |
| StakeholderMatrix.Scores | components/accounts/stakeholder-matrix.tsx:19 | each stakeholder's score, in order |
| StakeholderMatrix.AvgInfluence | components/accounts/stakeholder-matrix.tsx:19 | definition: the mean role score of the sorted list, 0 without stakeholders; bounded by StakeholderMatrix.AvgInfluenceBounds |
| StakeholderMatrix.AvgInfluenceBounds | components/accounts/stakeholder-matrix.tsx:19 | 0 without stakeholders, otherwise in [2, 5] |
| Breadcrumbs.SegmentLabel | components/layout/breadcrumbs.tsx:17-25 | a section's label; a long unknown segment shortened to "Account " and 8 characters; otherwise the same length with every dash a space and every other character kept |
| Breadcrumbs.SegmentLabelExamples | components/layout/breadcrumbs.tsx:7-25 | "demo-notes", "q3-review" and a long id label as expected |
| Breadcrumbs.NonEmptyParts | components/layout/breadcrumbs.tsx:29 | filter(Boolean): every kept part is a non-empty input part, and every non-empty input part is kept |
| Breadcrumbs.NonEmptyPartsAppend | components/layout/breadcrumbs.tsx:29 | the filter keeps the order: filtering a concatenation filters each part |
| Breadcrumbs.Segments | components/layout/breadcrumbs.tsx:29 | segments are non-empty and hold no slash |
| Breadcrumbs.SplitOnConcat | components/layout/breadcrumbs.tsx:29 | a slash between two strings splits the pieces of the one from the pieces of the other |
| Breadcrumbs.SegmentsConcat | components/layout/breadcrumbs.tsx:29 | for every path: the segments of x + "/" + y are the segments of x, then those of y |
| Breadcrumbs.SegmentsOfEmpty | components/layout/breadcrumbs.tsx:29 | the empty path has no segments |
| Breadcrumbs.SegmentsOfRoot | components/layout/breadcrumbs.tsx:29 | "/" has no segments |
| Breadcrumbs.SegmentsTrailingSlash | components/layout/breadcrumbs.tsx:29 | a trailing slash adds no segment |
| Breadcrumbs.SegmentsLeadingSlash | components/layout/breadcrumbs.tsx:29 | a leading slash adds no segment |
| Breadcrumbs.SegmentsDoubledSlash | components/layout/breadcrumbs.tsx:29 | a doubled slash counts as one |
| Breadcrumbs.Hrefs | components/layout/breadcrumbs.tsx:36-37 | one link per segment |
| Breadcrumbs.HrefsExtend | components/layout/breadcrumbs.tsx:37 | each link extends the previous one by "/" and the next segment |
| Breadcrumbs.SplitOnNoSeparator | components/layout/breadcrumbs.tsx:29 | a string without a slash splits into itself |
| Breadcrumbs.SplitOnFirst | components/layout/breadcrumbs.tsx:29 | splitting at a first slash gives the part before and the rest's parts |
| Breadcrumbs.SplitJoin | components/layout/breadcrumbs.tsx:29-37 | splitting a join of slash-free parts gives them back |
| Breadcrumbs.NonEmptyPartsKeepsNonEmpty | components/layout/breadcrumbs.tsx:29 | non-empty parts pass the filter unchanged |
| Breadcrumbs.PathSplit | components/layout/breadcrumbs.tsx:29 | "/a/b/c" splits into an empty part and the segments |
| Breadcrumbs.SegmentsOfPath | components/layout/breadcrumbs.tsx:29 | the segments of "/a/b/c" are a, b, c |
| Breadcrumbs.LastHrefIsPath | components/layout/breadcrumbs.tsx:37 | the last crumb links back to the path |

## Left out

- The clock: `new Date()` and date-fns are replaced by inputs. Days to renewal is an integer, and "today" and due dates are day numbers. Quarter start and end dates and `yyyy-MM-dd` formatting are not modelled.
- Database access and `async` code: every query result is an input sequence. The SQL group-bys are rows of (AE, type, count).
- IEEE floating point: numbers are exact reals, so rounding errors of floating-point sums are not modelled.
- `toFixed` and `Intl` text: the coaching flags' `detail` strings are not modelled, and the approval candidate's percentage text is an input string.
- JSON.parse and JSON.stringify: the parser takes the decoded JSON value, and the serializer yields a JSON value, not text.
- TableView.ParseTableView: the source returns the parsed object itself, extra members included; the model keeps the five known members only.
- Text.ToLower: ASCII letters only; Unicode case mapping is not modelled.
- Breadcrumbs.SegmentLabel: the source's `length > 20` and `slice(0, 8)` count UTF-16 code units, the model counts characters, so segments with characters outside the Basic Multilingual Plane are measured and cut differently.
- Breadcrumbs.SegmentLabel: lookups of inherited object keys such as "constructor" are not modelled.
- ManagerActions.ActionCandidate: impact and urgency scores are integers, which the dashboard's candidates always are.
- Map and record insertion order is modelled by an explicit order sequence where the output depends on it (the stage breakdown).
- The health row's other fields (ARR, renewal date text, breakdown, suggested actions) and the sorting and slicing of health rows, top deals and the deal desk are not modelled.
- The deal-desk lookup of an approval by opportunity is an input: `RecommendedCounter` takes the approval's counter-offer, if any.
- Remaining metrics of the loader (NRR, win rate, cycle days, leaderboard averages, QBR cadence counts) are sums and ratios over query results, not modelled beyond `Numbers.Sum`.
- React state, effects, rendering and event handling: the panel's state is the `Panel` class; the rest of the UI is not modelled.
