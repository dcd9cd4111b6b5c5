/** The pure helpers and aggregation steps of the dashboard loader
    (lib/dashboard-data.ts): quarter keys and the prior quarter, period-over-
    period deltas, health bands, discount guardrails, the remaining target, the
    open-opportunity filter, default stage probabilities, scenario overrides,
    action-candidate assembly and the per-AE activity counters. Database
    queries are inputs: each query result is a sequence. */
module DashboardData {
  import opened Numbers
  import opened Text
  import opened Options
  import opened Forecast
  import C = Coaching
  import MA = ManagerActions
  import PS = PipelineScenario
  import opened StableSort

  // ---------------------------------------------------------------------
  // Quarters

  /** The quarter filter's values. */
  datatype Quarter = Q1 | Q2 | Q3 | Q4

  function QuarterNumber(q: Quarter): (n: int)
    ensures 1 <= n <= 4
  {
    match q
    case Q1 => 1
    case Q2 => 2
    case Q3 => 3
    case Q4 => 4
  }

  /** The quarter named `Q${n}`. */
  function QuarterOfNumber(n: int): (q: Quarter)
    requires 1 <= n <= 4
    ensures QuarterNumber(q) == n
  {
    if n == 1 then Q1 else if n == 2 then Q2 else if n == 3 then Q3 else Q4
  }

  /** "Q1" .. "Q4" */
  function QuarterName(q: Quarter): string
  {
    "Q" + [DigitChar(QuarterNumber(q))]
  }

  /** A quarter context without its start and end dates, which come from date-fns. */
  datatype QuarterContext = QuarterContext(quarterNumber: int, year: int, key: string)

  /** quarterContext: the number parsed from the quarter's name and the key `${year}-${quarter}`. */
  function QuarterContextOf(quarter: Quarter, year: int): (ctx: QuarterContext)
    ensures 1 <= ctx.quarterNumber <= 4 && QuarterOfNumber(ctx.quarterNumber) == quarter
  {
    QuarterContext(QuarterNumber(quarter), year, IntToString(year) + "-" + QuarterName(quarter))
  }

  /** Quarters counted from the start of year 0: consecutive quarters differ by one. */
  function QuarterIndex(ctx: QuarterContext): int
  {
    ctx.year * 4 + ctx.quarterNumber - 1
  }

  /** priorQuarter: the context of the quarter immediately before, with its own key. */
  function PriorQuarter(ctx: QuarterContext): (p: QuarterContext)
    requires 1 <= ctx.quarterNumber <= 4
    ensures 1 <= p.quarterNumber <= 4
    ensures QuarterIndex(p) == QuarterIndex(ctx) - 1
    ensures p == QuarterContextOf(QuarterOfNumber(p.quarterNumber), p.year)
  {
    var previousQuarter := if ctx.quarterNumber == 1 then 4 else ctx.quarterNumber - 1;
    var year := if ctx.quarterNumber == 1 then ctx.year - 1 else ctx.year;
    QuarterContextOf(QuarterOfNumber(previousQuarter), year)
  }

  /** Q1 of a year steps back to Q4 of the year before; any other quarter to the one before it. */
  lemma PriorQuarterCases(quarter: Quarter, year: int)
    ensures PriorQuarter(QuarterContextOf(Q1, year)) == QuarterContextOf(Q4, year - 1)
    ensures quarter != Q1 ==> PriorQuarter(QuarterContextOf(quarter, year)).year == year
    ensures PriorQuarter(QuarterContextOf(Q2, year)) == QuarterContextOf(Q1, year)
  {
  }

  /** Four steps back reach the same quarter of the previous year. */
  lemma FourPriorQuarters(quarter: Quarter, year: int)
    ensures PriorQuarter(PriorQuarter(PriorQuarter(PriorQuarter(QuarterContextOf(quarter, year)))))
            == QuarterContextOf(quarter, year - 1)
  {
    var ctx := QuarterContextOf(quarter, year);
    var p1 := PriorQuarter(ctx);
    var p2 := PriorQuarter(p1);
    var p3 := PriorQuarter(p2);
    var p4 := PriorQuarter(p3);
    assert QuarterIndex(p4) == QuarterIndex(ctx) - 4;
    assert p4.quarterNumber == ctx.quarterNumber && p4.year == year - 1;
  }

  /** Different quarters have different keys, so a key names one quarter of one year. */
  lemma QuarterKeyInjective(a: Quarter, y: int, b: Quarter, z: int)
    requires QuarterContextOf(a, y).key == QuarterContextOf(b, z).key
    ensures a == b && y == z
  {
    var k := QuarterContextOf(a, y).key;
    var ya := IntToString(y);
    var zb := IntToString(z);
    assert |ya| == |zb|;
    assert k[|k| - 1] == DigitChar(QuarterNumber(a)) == DigitChar(QuarterNumber(b));
    assert k[..|ya|] == ya;
    assert k[..|zb|] == zb;
    IntToStringInjective(y, z);
  }

  /** The prior quarter's key always differs from the current one. */
  lemma PriorKeyDiffers(quarter: Quarter, year: int)
    ensures PriorQuarter(QuarterContextOf(quarter, year)).key != QuarterContextOf(quarter, year).key
  {
    var p := PriorQuarter(QuarterContextOf(quarter, year));
    if p.key == QuarterContextOf(quarter, year).key {
      QuarterKeyInjective(QuarterOfNumber(p.quarterNumber), p.year, quarter, year);
    }
  }

  // ---------------------------------------------------------------------
  // Period-over-period change

  /** pctDelta: the change from `previous` to `current` in percent of `previous`; from 0 it is
      0 when nothing changed and 100 otherwise. */
  function PctDelta(current: real, previous: real): (r: real)
    ensures previous == 0.0 ==> (r == 0.0 <==> current == 0.0)
    ensures previous == 0.0 && current != 0.0 ==> r == 100.0
    ensures previous != 0.0 ==> previous + previous * r / 100.0 == current
  {
    if previous == 0.0 then (if current == 0.0 then 0.0 else 100.0)
    else (current - previous) / previous * 100.0
  }

  /** From a positive base, the delta has the sign of the change; it is 0 exactly when nothing changed. */
  lemma PctDeltaSign(current: real, previous: real)
    requires previous > 0.0
    ensures PctDelta(current, previous) > 0.0 <==> current > previous
    ensures PctDelta(current, previous) == 0.0 <==> current == previous
    ensures PctDelta(current, previous) < 0.0 <==> current < previous
  {
    var r := PctDelta(current, previous);
    assert previous * r == (current - previous) * 100.0;
    if r > 0.0 {
      assert previous * r > 0.0;
    } else if r < 0.0 {
      assert previous * r < 0.0;
    }
  }

  // ---------------------------------------------------------------------
  // Health bands and deal-desk labels

  datatype HealthBand = Healthy | Watch | Risk

  /** toHealthBand: healthy from 75, watch from 60, otherwise risk. */
  function ToHealthBand(score: real): (b: HealthBand)
    ensures b == Healthy <==> score >= 75.0
    ensures b == Watch <==> 60.0 <= score < 75.0
    ensures b == Risk <==> score < 60.0
  {
    if score >= 75.0 then Healthy else if score >= 60.0 then Watch else Risk
  }

  function BandRank(b: HealthBand): int
  {
    match b
    case Risk => 0
    case Watch => 1
    case Healthy => 2
  }

  /** A higher score never gets a worse band. */
  lemma HealthBandMonotone(x: real, y: real)
    requires x <= y
    ensures BandRank(ToHealthBand(x)) <= BandRank(ToHealthBand(y))
  {
  }

  /** discountGuardrailLabel: who may approve a requested discount. */
  function DiscountGuardrailLabel(discount: real): (g: string)
    ensures g == "Rep Discretion" <==> discount <= 0.1
    ensures g == "Manager Approval" <==> 0.1 < discount <= 0.2
    ensures g == "Director Approval" <==> 0.2 < discount <= 0.3
    ensures g == "VP Exception" <==> discount > 0.3
  {
    if discount <= 0.1 then "Rep Discretion"
    else if discount <= 0.2 then "Manager Approval"
    else if discount <= 0.3 then "Director Approval"
    else "VP Exception"
  }

  /** The deal desk's risk of a requested discount: high above 0.2, medium above 0.1. */
  function DealDeskRisk(discount: real): (r: MA.Level)
    ensures r == MA.High <==> discount > 0.2
    ensures r == MA.Medium <==> 0.1 < discount <= 0.2
    ensures r == MA.Low <==> discount <= 0.1
  {
    if discount > 0.2 then MA.High else if discount > 0.1 then MA.Medium else MA.Low
  }

  /** The deal desk's counter-offer when the approval record has none. */
  function RecommendedCounter(approvalCounter: Option<string>, discount: real): (r: string)
    ensures approvalCounter.Some? ==> r == approvalCounter.value
    ensures approvalCounter.None? && DealDeskRisk(discount) == MA.High ==> r == "Trade 2-year term for discount reduction to 15%."
    ensures approvalCounter.None? && DealDeskRisk(discount) != MA.High ==> r == "Offer enablement package before price concession."
  {
    if approvalCounter.Some? then approvalCounter.value
    else if discount > 0.2 then "Trade 2-year term for discount reduction to 15%."
    else "Offer enablement package before price concession."
  }

  /** The guardrail and the risk level share their cut-offs: low risk is the rep's discretion,
      medium risk needs a manager, high risk a director or the VP. */
  lemma GuardrailMatchesRisk(discount: real)
    ensures DealDeskRisk(discount) == MA.Low <==> DiscountGuardrailLabel(discount) == "Rep Discretion"
    ensures DealDeskRisk(discount) == MA.Medium <==> DiscountGuardrailLabel(discount) == "Manager Approval"
    ensures DealDeskRisk(discount) == MA.High <==>
      DiscountGuardrailLabel(discount) in {"Director Approval", "VP Exception"}
  {
  }

  // ---------------------------------------------------------------------
  // Target and coverage

  /** Math.max((target ?? 1) - totalWon, 1): what is left of the team target, at least 1. */
  function RemainingTarget(teamTarget: Option<real>, totalWon: real): (r: real)
    ensures var t := if teamTarget.Some? then teamTarget.value else 1.0;
      && r >= 1.0 && r >= t - totalWon
      && (r == 1.0 || r == t - totalWon)
  {
    var t := if teamTarget.Some? then teamTarget.value else 1.0;
    if t - totalWon > 1.0 then t - totalWon else 1.0
  }

  /** The coverage of the dashboard is never the zero fallback: it is the pipeline divided by the
      remaining target; without a target and with nothing won that target is 1. */
  lemma CoverageWellDefined(totalPipeline: real, teamTarget: Option<real>, totalWon: real)
    ensures var remaining := RemainingTarget(teamTarget, totalWon);
      PipelineCoverage(totalPipeline, remaining) * remaining == totalPipeline
    ensures teamTarget.None? && totalWon >= 0.0 ==> RemainingTarget(teamTarget, totalWon) == 1.0
  {
  }

  // ---------------------------------------------------------------------
  // Open opportunities and default stage probabilities

  /** An opportunity of the scenario: not closed, and with a probability of at least 0.1. */
  predicate IsOpen(opp: Opportunity)
  {
    opp.stage != ClosedLost && opp.stage != ClosedWon && opp.probability >= 0.1
  }

  /** The open opportunities of the quarter, in query order. */
  function OpenOpps(opps: seq<Opportunity>): (r: seq<Opportunity>)
    ensures |r| <= |opps|
    ensures forall o :: o in r <==> o in opps && IsOpen(o)
  {
    if |opps| == 0 then []
    else OpenOpps(opps[..|opps| - 1]) + (if IsOpen(opps[|opps| - 1]) then [opps[|opps| - 1]] else [])
  }

  /** The filter keeps the order: filtering a concatenation filters each part. */
  lemma {:induction false} OpenOppsAppend(a: seq<Opportunity>, b: seq<Opportunity>)
    ensures OpenOpps(a + b) == OpenOpps(a) + OpenOpps(b)
  {
    if |b| == 0 {
      assert a + b == a;
    } else {
      var init := b[..|b| - 1];
      var x := b[|b| - 1];
      var e := if IsOpen(x) then [x] else [];
      assert (a + b)[..|a + b| - 1] == a + init;
      assert (a + b)[|a + b| - 1] == x;
      OpenOppsAppend(a, init);
      assert OpenOpps(a + b) == OpenOpps(a) + OpenOpps(init) + e;
    }
  }


  /** An open opportunity is bucketed unless its probability lies in one of the two gaps. */
  lemma OpenOppBucketed(opp: Opportunity)
    requires IsOpen(opp)
    ensures BucketOf(opp.probability) == Unbucketed <==>
      (0.39 < opp.probability < 0.4 || 0.69 < opp.probability < 0.7)
  {
  }

  /** The stages whose probability the scenario planner can adjust: every stage that is not closed. */
  const AdjustableStages: seq<Stage> := [Prospect, Discovery, TechEval, Proposal, Negotiation, Legal]

  lemma AdjustableStagesAreOpen(s: Stage)
    ensures s in AdjustableStages <==> s != ClosedWon && s != ClosedLost
  {
  }

  function Probabilities(opps: seq<Opportunity>): (ps: seq<real>)
    ensures |ps| == |opps| && forall i :: 0 <= i < |opps| ==> ps[i] == opps[i].probability
  {
    seq(|opps|, i requires 0 <= i < |opps| => opps[i].probability)
  }

  /** The default percentage of one stage: its opportunities' mean probability in percent, rounded,
      or 0 when the stage has none. */
  function DefaultProbability(openOpps: seq<Opportunity>, s: Stage): int
  {
    var stageOpps := OfStage(openOpps, s);
    if |stageOpps| == 0 then 0 else Round(Sum(Probabilities(stageOpps)) / |stageOpps| as real * 100.0)
  }

  /** The six stages have six different names. */
  lemma AdjustableNamesDistinct(i: int, j: int)
    requires 0 <= i < j < |AdjustableStages|
    ensures StageName(AdjustableStages[i]) != StageName(AdjustableStages[j])
  {
    if StageName(AdjustableStages[i]) == StageName(AdjustableStages[j]) {
      StageNameInjective(AdjustableStages[i], AdjustableStages[j]);
    }
  }

  /** defaultStageProbabilities: a reduce over the six stages writing one entry per stage. */
  method DefaultStageProbabilities(openOpps: seq<Opportunity>) returns (acc: map<string, int>)
    ensures acc.Keys == set s | s in AdjustableStages :: StageName(s)
    ensures forall s :: s in AdjustableStages ==> acc[StageName(s)] == DefaultProbability(openOpps, s)
  {
    acc := map[];
    for i := 0 to |AdjustableStages|
      invariant acc.Keys == set j | 0 <= j < i :: StageName(AdjustableStages[j])
      invariant forall j :: 0 <= j < i ==> acc[StageName(AdjustableStages[j])] == DefaultProbability(openOpps, AdjustableStages[j])
    {
      var stage := AdjustableStages[i];
      var stageOpps := OfStage(openOpps, stage);
      forall j | 0 <= j < i
        ensures StageName(AdjustableStages[j]) != StageName(stage)
      {
        AdjustableNamesDistinct(j, i);
      }
      acc := acc[StageName(stage) := if |stageOpps| > 0 then Round(Sum(Probabilities(stageOpps)) / |stageOpps| as real * 100.0) else 0];
    }
    assert forall s :: s in AdjustableStages <==> exists j :: 0 <= j < |AdjustableStages| && AdjustableStages[j] == s;
  }

  /** With probabilities of at most 1, a stage with open opportunities defaults to between 10 and
      100 percent (each counted one has at least 0.1), and only a stage without any defaults to 0. */
  lemma DefaultProbabilityBounds(opps: seq<Opportunity>, s: Stage)
    requires forall i :: 0 <= i < |opps| ==> opps[i].probability <= 1.0
    ensures var d := DefaultProbability(OpenOpps(opps), s);
      && (|OfStage(OpenOpps(opps), s)| > 0 ==> 10 <= d <= 100)
      && (d == 0 <==> |OfStage(OpenOpps(opps), s)| == 0)
  {
    var stageOpps := OfStage(OpenOpps(opps), s);
    if |stageOpps| > 0 {
      OfStageMembers(OpenOpps(opps), s);
      var ps := Probabilities(stageOpps);
      forall i | 0 <= i < |ps|
        ensures 0.1 <= ps[i] <= 1.0
      {
        assert stageOpps[i] in OpenOpps(opps);
      }
      MeanBounds(ps, 0.1, 1.0);
      var m := Sum(ps) / |ps| as real * 100.0;
      RoundMonotone(10.0, m);
      RoundMonotone(m, 100.0);
      RoundOfInt(10);
      RoundOfInt(100);
    }
  }

  // ---------------------------------------------------------------------
  // Scenario recalculation

  /** The override of one opportunity: its stage's override percent if there is one, otherwise its
      own probability in percent, divided by 100 and clamped to [0, 1]; every other field is kept. */
  function AdjustProbability(opp: Opportunity, overrides: map<string, real>): (r: Opportunity)
    ensures r.amount == opp.amount && r.stage == opp.stage
    ensures 0.0 <= r.probability <= 1.0
    ensures StageName(opp.stage) in overrides ==>
      r.probability == Clamp(overrides[StageName(opp.stage)] / 100.0, 0.0, 1.0)
    ensures StageName(opp.stage) !in overrides ==> r.probability == Clamp(opp.probability, 0.0, 1.0)
    ensures StageName(opp.stage) !in overrides && 0.0 <= opp.probability <= 1.0 ==> r == opp
  {
    var percent := if StageName(opp.stage) in overrides then overrides[StageName(opp.stage)] else opp.probability * 100.0;
    opp.(probability := Clamp(percent / 100.0, 0.0, 1.0))
  }

  function AdjustAll(opps: seq<Opportunity>, overrides: map<string, real>): (r: seq<Opportunity>)
    ensures |r| == |opps| && forall i :: 0 <= i < |opps| ==> r[i] == AdjustProbability(opps[i], overrides)
  {
    seq(|opps|, i requires 0 <= i < |opps| => AdjustProbability(opps[i], overrides))
  }

  /** Adjusting probabilities never changes the pipeline's total amount. */
  lemma {:induction false} AdjustKeepsPipeline(opps: seq<Opportunity>, overrides: map<string, real>)
    ensures AmountOf(AdjustAll(opps, overrides), AllOpps) == AmountOf(opps, AllOpps)
  {
    if |opps| > 0 {
      var init := opps[..|opps| - 1];
      AdjustKeepsPipeline(init, overrides);
      assert AdjustAll(opps, overrides)[..|init|] == AdjustAll(init, overrides);
    }
  }

  /** A scenario preset's values lie in [0, 100], so an overridden stage gets exactly its
      percentage divided by 100: the clamp never cuts. */
  lemma PresetOverrideExact(opp: Opportunity, stageDefaults: map<string, real>, preset: PS.ScenarioPreset)
    requires StageName(opp.stage) in stageDefaults
    ensures var overrides := PS.ApplyScenarioPreset(stageDefaults, preset);
      AdjustProbability(opp, overrides).probability == overrides[StageName(opp.stage)] / 100.0
  {
  }

  datatype ScenarioResult = ScenarioResult(commit: real, bestCase: real, upside: real, byStage: seq<ForecastStageRow>)

  /** The buckets and per-stage rows of the adjusted opportunities. */
  function ScenarioOf(opps: seq<Opportunity>, overrides: map<string, real>): ScenarioResult
  {
    var adjusted := AdjustAll(opps, overrides);
    var buckets := BucketTotals(adjusted);
    ScenarioResult(buckets.commit, buckets.bestCase, buckets.upside, StageRows(adjusted))
  }

  /** recalculatePipelineScenario on the quarter's non-closed opportunities: adjust, then bucket
      and break down by stage. The rows' commit and best-case columns add up to the totals. */
  method RecalculatePipelineScenario(opps: seq<Opportunity>, overrides: map<string, real>) returns (r: ScenarioResult)
    ensures r == ScenarioOf(opps, overrides)
    ensures SumRows(r.byStage, InBucket(Commit)) == r.commit
    ensures SumRows(r.byStage, InBucket(BestCase)) == r.bestCase
  {
    var adjusted := AdjustAll(opps, overrides);
    var buckets := BucketForecast(adjusted);
    var byStage := StageBreakdownByBucket(adjusted);
    r := ScenarioResult(buckets.commit, buckets.bestCase, buckets.upside, byStage);
    StageRowsMatchBuckets(adjusted);
  }

  /** Without overrides and with probabilities already in [0, 1] the scenario is the forecast itself. */
  lemma NoOverridesIsForecast(opps: seq<Opportunity>)
    requires forall i :: 0 <= i < |opps| ==> 0.0 <= opps[i].probability <= 1.0
    ensures var r := ScenarioOf(opps, map[]);
      r.commit == BucketTotals(opps).commit && r.bestCase == BucketTotals(opps).bestCase
      && r.upside == BucketTotals(opps).upside && r.byStage == StageRows(opps)
  {
    assert AdjustAll(opps, map[]) == opps;
  }

  /** With non-negative amounts the scenario's three buckets never hold more than the pipeline. */
  lemma ScenarioWithinPipeline(opps: seq<Opportunity>, overrides: map<string, real>)
    requires forall i :: 0 <= i < |opps| ==> opps[i].amount >= 0.0
    ensures var r := ScenarioOf(opps, overrides);
      r.commit >= 0.0 && r.bestCase >= 0.0 && r.upside >= 0.0
      && r.commit + r.bestCase + r.upside <= AmountOf(opps, AllOpps)
  {
    AdjustKeepsPipeline(opps, overrides);
    BucketsWithinPipeline(AdjustAll(opps, overrides));
  }

  /** When every opportunity's stage is overridden to at least 70 percent, the whole pipeline is commit. */
  lemma AllOverriddenToCommit(opps: seq<Opportunity>, overrides: map<string, real>)
    requires forall i :: 0 <= i < |opps| ==>
      StageName(opps[i].stage) in overrides && overrides[StageName(opps[i].stage)] >= 70.0
    ensures var r := ScenarioOf(opps, overrides);
      r.commit == AmountOf(opps, AllOpps) && r.bestCase == 0.0 && r.upside == 0.0
  {
    var adjusted := AdjustAll(opps, overrides);
    forall i | 0 <= i < |adjusted|
      ensures BucketOf(adjusted[i].probability) == Commit
    {
      var v := overrides[StageName(opps[i].stage)] / 100.0;
      assert v >= 0.7;
      assert adjusted[i].probability == Clamp(v, 0.0, 1.0);
    }
    AllCommit(adjusted);
    AdjustKeepsPipeline(opps, overrides);
  }

  lemma {:induction false} AllCommit(opps: seq<Opportunity>)
    requires forall i :: 0 <= i < |opps| ==> BucketOf(opps[i].probability) == Commit
    ensures AmountOf(opps, InBucket(Commit)) == AmountOf(opps, AllOpps)
    ensures AmountOf(opps, InBucket(BestCase)) == 0.0 && AmountOf(opps, InBucket(Upside)) == 0.0
  {
    if |opps| > 0 {
      AllCommit(opps[..|opps| - 1]);
    }
  }

  // ---------------------------------------------------------------------
  // Health rows and at-risk accounts

  /** The fields of a health row that the dashboard derives from the weighted score: the rounded
      score and the band of the unrounded score. */
  datatype HealthRow = HealthRow(accountId: string, account: string, owner: string, healthScore: int, healthBand: HealthBand)

  function HealthRowOf(accountId: string, account: string, owner: string, weightedScore: real): HealthRow
  {
    HealthRow(accountId, account, owner, Round(weightedScore), ToHealthBand(weightedScore))
  }

  /** The rows whose rounded score is below 60, in order. */
  function AtRisk(rows: seq<HealthRow>): (r: seq<HealthRow>)
    ensures |r| <= |rows|
    ensures forall row :: row in r <==> row in rows && row.healthScore < 60
  {
    if |rows| == 0 then []
    else AtRisk(rows[..|rows| - 1]) + (if rows[|rows| - 1].healthScore < 60 then [rows[|rows| - 1]] else [])
  }

  /** The filter keeps the order: filtering a concatenation filters each part. */
  lemma {:induction false} AtRiskAppend(a: seq<HealthRow>, b: seq<HealthRow>)
    ensures AtRisk(a + b) == AtRisk(a) + AtRisk(b)
  {
    if |b| == 0 {
      assert a + b == a;
    } else {
      var init := b[..|b| - 1];
      var x := b[|b| - 1];
      var e := if x.healthScore < 60 then [x] else [];
      assert (a + b)[..|a + b| - 1] == a + init;
      assert (a + b)[|a + b| - 1] == x;
      AtRiskAppend(a, init);
      assert AtRisk(a + b) == AtRisk(a) + AtRisk(init) + e;
    }
  }


  /** The at-risk list uses the rounded score and the band the unrounded one: an at-risk account is
      always in the risk band, but a risk-band account is left off the list exactly when its
      weighted score lies in [59.5, 60). */
  lemma AtRiskVersusBand(accountId: string, account: string, owner: string, weightedScore: real)
    ensures var row := HealthRowOf(accountId, account, owner, weightedScore);
      && (row.healthScore < 60 <==> weightedScore < 59.5)
      && (row.healthScore < 60 ==> row.healthBand == Risk)
      && (row.healthBand == Risk && row.healthScore >= 60 <==> 59.5 <= weightedScore < 60.0)
  {
  }

  // ---------------------------------------------------------------------
  // Action candidates

  datatype ApprovalStatus = Pending | Approved | Rejected

  /** A discount approval with the names the candidate title needs; the requested discount comes
      as the percentage text it is printed with. */
  datatype Approval = Approval(id: string, accountName: string, ownerName: string, discountPercentText: string, status: ApprovalStatus)

  function PendingApprovals(approvals: seq<Approval>): (r: seq<Approval>)
    ensures |r| <= |approvals|
    ensures forall a :: a in r <==> a in approvals && a.status == Pending
  {
    if |approvals| == 0 then []
    else PendingApprovals(approvals[..|approvals| - 1])
         + (if approvals[|approvals| - 1].status == Pending then [approvals[|approvals| - 1]] else [])
  }

  /** The filter keeps the order: filtering a concatenation filters each part. */
  lemma {:induction false} PendingApprovalsAppend(a: seq<Approval>, b: seq<Approval>)
    ensures PendingApprovals(a + b) == PendingApprovals(a) + PendingApprovals(b)
  {
    if |b| == 0 {
      assert a + b == a;
    } else {
      var init := b[..|b| - 1];
      var x := b[|b| - 1];
      var e := if x.status == Pending then [x] else [];
      assert (a + b)[..|a + b| - 1] == a + init;
      assert (a + b)[|a + b| - 1] == x;
      PendingApprovalsAppend(a, init);
      assert PendingApprovals(a + b) == PendingApprovals(a) + PendingApprovals(init) + e;
    }
  }


  /** The flag's name as coaching flags spell it. */
  function FlagTypeName(k: C.CoachingFlagType): string
  {
    match k
    case LowPipelineCoverage => "LOW_PIPELINE_COVERAGE"
    case SlippingDates => "SLIPPING_DATES"
    case HighDiscount => "HIGH_DISCOUNT"
    case LowMultiThreading => "LOW_MULTI_THREADING"
    case LowRenewalTouch => "LOW_RENEWAL_TOUCH"
  }

  function RiskCandidate(row: HealthRow, index: int): MA.ActionCandidate
  {
    MA.ActionCandidate("risk-" + row.accountId,
      "Stabilize " + row.account + " renewal risk (" + IntToString(row.healthScore) + "/100)",
      row.owner, 9 - index, 8, false)
  }

  function CoachCandidate(flag: C.CoachingFlag, index: int): MA.ActionCandidate
  {
    MA.ActionCandidate("coach-" + flag.aeId + "-" + FlagTypeName(flag.flag),
      "1:1 coaching: " + flag.aeName + " on " + ReplaceChar(ToLower(FlagTypeName(flag.flag)), '_', ' '),
      flag.aeName, 7 - index, if flag.severity == C.High then 8 else 6, false)
  }

  function ApprovalCandidate(approval: Approval, index: int): MA.ActionCandidate
  {
    MA.ActionCandidate("approval-" + approval.id,
      "Review " + approval.accountName + " discount (" + approval.discountPercentText + "%)",
      approval.ownerName, 6 - index, 7, true)
  }

  /** slice(0, n) */
  function Take<T>(s: seq<T>, n: nat): (r: seq<T>)
    ensures |r| == MA.Min(n, |s|) && r == s[..|r|]
  {
    s[..if n < |s| then n else |s|]
  }

  function RiskCandidates(atRisk: seq<HealthRow>): seq<MA.ActionCandidate>
  {
    var top := Take(atRisk, 4);
    seq(|top|, i requires 0 <= i < |top| => RiskCandidate(top[i], i))
  }

  function CoachCandidates(flags: seq<C.CoachingFlag>): seq<MA.ActionCandidate>
  {
    var top := Take(flags, 4);
    seq(|top|, i requires 0 <= i < |top| => CoachCandidate(top[i], i))
  }

  function ApprovalCandidates(approvals: seq<Approval>): seq<MA.ActionCandidate>
  {
    var top := Take(PendingApprovals(approvals), 3);
    seq(|top|, i requires 0 <= i < |top| => ApprovalCandidate(top[i], i))
  }

  /** The candidate list: up to four at-risk accounts, four coaching flags and three pending approvals. */
  function ActionCandidates(atRisk: seq<HealthRow>, flags: seq<C.CoachingFlag>, approvals: seq<Approval>): seq<MA.ActionCandidate>
  {
    RiskCandidates(atRisk) + CoachCandidates(flags) + ApprovalCandidates(approvals)
  }

  /** The three groups in order: the first four at-risk accounts with impact 9 - i and urgency 8,
      the first four coaching flags with impact 7 - i and urgency 8 for a high flag and 6 otherwise,
      the first three pending approvals with impact 6 - i, urgency 7 and blocked; only approvals are
      blocked, and each id carries its group's prefix. */
  lemma ActionCandidatesSpec(atRisk: seq<HealthRow>, flags: seq<C.CoachingFlag>, approvals: seq<Approval>)
    ensures var cands := ActionCandidates(atRisk, flags, approvals);
      var nr := MA.Min(4, |atRisk|);
      var nc := MA.Min(4, |flags|);
      var na := MA.Min(3, |PendingApprovals(approvals)|);
      && |cands| == nr + nc + na
      && (forall i :: 0 <= i < nr ==>
            && cands[i].impactScore == 9 - i && cands[i].urgencyScore == 8 && !cands[i].blocked
            && cands[i].id == "risk-" + atRisk[i].accountId && cands[i].owner == atRisk[i].owner)
      && (forall i :: 0 <= i < nc ==>
            && cands[nr + i].impactScore == 7 - i && !cands[nr + i].blocked
            && (cands[nr + i].urgencyScore == 8 <==> flags[i].severity == C.High)
            && (cands[nr + i].urgencyScore == 6 <==> flags[i].severity != C.High)
            && StartsWith(cands[nr + i].id, "coach-") && cands[nr + i].owner == flags[i].aeName)
      && (forall i :: 0 <= i < na ==>
            && cands[nr + nc + i].impactScore == 6 - i && cands[nr + nc + i].urgencyScore == 7
            && cands[nr + nc + i].blocked
            && cands[nr + nc + i].id == "approval-" + PendingApprovals(approvals)[i].id
            && PendingApprovals(approvals)[i] in approvals && PendingApprovals(approvals)[i].status == Pending)
  {
    var r := RiskCandidates(atRisk);
    var c := CoachCandidates(flags);
    var a := ApprovalCandidates(approvals);
    var cands := r + c + a;
    RiskGroup(atRisk);
    CoachGroup(flags);
    ApprovalGroup(approvals);
    assert forall i :: 0 <= i < |r| ==> cands[i] == r[i];
    assert forall i :: 0 <= i < |c| ==> cands[|r| + i] == c[i];
    assert forall i :: 0 <= i < |a| ==> cands[|r| + |c| + i] == a[i];
  }

  /** The risk group: the first four at-risk accounts, impact 9 - i, urgency 8, not blocked. */
  lemma RiskGroup(atRisk: seq<HealthRow>)
    ensures var r := RiskCandidates(atRisk);
      && |r| == MA.Min(4, |atRisk|)
      && forall i :: 0 <= i < |r| ==>
        && r[i].impactScore == 9 - i && r[i].urgencyScore == 8 && !r[i].blocked
        && r[i].id == "risk-" + atRisk[i].accountId && r[i].owner == atRisk[i].owner
  {
  }

  /** The coaching group: the first four flags, impact 7 - i, urgency from the severity, not blocked,
      with ids starting "coach-". */
  lemma CoachGroup(flags: seq<C.CoachingFlag>)
    ensures var c := CoachCandidates(flags);
      && |c| == MA.Min(4, |flags|)
      && forall i :: 0 <= i < |c| ==>
        && c[i].impactScore == 7 - i && !c[i].blocked
        && (c[i].urgencyScore == 8 <==> flags[i].severity == C.High)
        && (c[i].urgencyScore == 6 <==> flags[i].severity != C.High)
        && StartsWith(c[i].id, "coach-") && c[i].owner == flags[i].aeName
  {
    var c := CoachCandidates(flags);
    forall i | 0 <= i < |c|
      ensures StartsWith(c[i].id, "coach-")
    {
      assert c[i].id[..6] == "coach-";
    }
  }

  /** The approval group: the first three pending approvals, impact 6 - i, urgency 7, blocked. */
  lemma ApprovalGroup(approvals: seq<Approval>)
    ensures var a := ApprovalCandidates(approvals);
      && |a| == MA.Min(3, |PendingApprovals(approvals)|)
      && forall i :: 0 <= i < |a| ==>
        && a[i].impactScore == 6 - i && a[i].urgencyScore == 7 && a[i].blocked
        && a[i].id == "approval-" + PendingApprovals(approvals)[i].id
        && PendingApprovals(approvals)[i] in approvals && PendingApprovals(approvals)[i].status == Pending
  {
    var a := ApprovalCandidates(approvals);
    forall i | 0 <= i < |a|
      ensures PendingApprovals(approvals)[i] in approvals
    {
      assert PendingApprovals(approvals)[i] in PendingApprovals(approvals);
    }
  }

  /** Only the first at-risk account's candidate reaches a total of 17; every other candidate
      totals less. */
  lemma CandidateTotals(atRisk: seq<HealthRow>, flags: seq<C.CoachingFlag>, approvals: seq<Approval>)
    requires |atRisk| > 0
    ensures var cands := ActionCandidates(atRisk, flags, approvals);
      && |cands| > 0 && MA.Total(cands[0]) == 17
      && forall j :: 0 < j < |cands| ==> MA.Total(cands[j]) < 17
  {
    ActionCandidatesSpec(atRisk, flags, approvals);
  }

  /** Ranked, the first at-risk account's stabilisation comes first, as a new high-impact action
      due tomorrow. */
  lemma FirstRiskLeadsRanking(atRisk: seq<HealthRow>, flags: seq<C.CoachingFlag>, approvals: seq<Approval>, today: int)
    requires |atRisk| > 0
    ensures var actions := MA.Rank(ActionCandidates(atRisk, flags, approvals), today);
      && |actions| > 0
      && actions[0].id == "risk-" + atRisk[0].accountId
      && actions[0].impact == MA.High && actions[0].status == MA.New && actions[0].dueDay == today + 1
  {
    var cands := ActionCandidates(atRisk, flags, approvals);
    var sorted := SortDesc(cands, MA.Total);
    CandidateTotals(atRisk, flags, approvals);
    ActionCandidatesSpec(atRisk, flags, approvals);
    SortDescPermutes(cands, MA.Total);
    SortDescSorted(cands, MA.Total);
    assert cands[0] in multiset(sorted);
    var k :| 0 <= k < |sorted| && sorted[k] == cands[0];
    assert MA.Total(sorted[0]) >= 17;
    assert sorted[0] in multiset(cands);
    var j :| 0 <= j < |cands| && cands[j] == sorted[0];
    assert j == 0;
  }

  // ---------------------------------------------------------------------
  // Per-AE activity counters

  datatype ActivityType = Meeting | Email | Call | Qbr

  /** One row of the activity group-by: an account executive, an activity type and its count. */
  datatype ActivityCountRow = ActivityCountRow(aeId: string, activityType: ActivityType, count: int)

  datatype ActivityCounts = ActivityCounts(meetings: int, emails: int, calls: int, qbr: int)

  /** The counts of the rows of account executive `ae` with activity type `t`, added up. */
  function CountOf(rows: seq<ActivityCountRow>, ae: string, t: ActivityType): int
  {
    if |rows| == 0 then 0
    else
      var row := rows[|rows| - 1];
      CountOf(rows[..|rows| - 1], ae, t) + (if row.aeId == ae && row.activityType == t then row.count else 0)
  }

  function CountsFor(rows: seq<ActivityCountRow>, ae: string): ActivityCounts
  {
    ActivityCounts(CountOf(rows, ae, Meeting), CountOf(rows, ae, Email), CountOf(rows, ae, Call), CountOf(rows, ae, Qbr))
  }

  /** The counts of every row of `ae`, whatever its type. */
  function TotalFor(rows: seq<ActivityCountRow>, ae: string): int
  {
    if |rows| == 0 then 0
    else TotalFor(rows[..|rows| - 1], ae) + (if rows[|rows| - 1].aeId == ae then rows[|rows| - 1].count else 0)
  }

  /** The counter record after one more row: the row's count is added to its type's counter. */
  function AddActivity(current: ActivityCounts, row: ActivityCountRow): ActivityCounts
  {
    match row.activityType
    case Meeting => current.(meetings := current.meetings + row.count)
    case Email => current.(emails := current.emails + row.count)
    case Call => current.(calls := current.calls + row.count)
    case Qbr => current.(qbr := current.qbr + row.count)
  }

  /** activityByAE: a map from each account executive of the rows to its four counters, updated in
      place row by row. */
  method ActivityByAE(rows: seq<ActivityCountRow>) returns (activity: map<string, ActivityCounts>)
    ensures activity.Keys == set i | 0 <= i < |rows| :: rows[i].aeId
    ensures forall ae :: ae in activity ==> activity[ae] == CountsFor(rows, ae)
  {
    activity := map[];
    for i := 0 to |rows|
      invariant activity.Keys == set j | 0 <= j < i :: rows[j].aeId
      invariant forall ae :: ae in activity ==> activity[ae] == CountsFor(rows[..i], ae)
      invariant forall ae :: ae !in activity ==> CountsFor(rows[..i], ae) == ActivityCounts(0, 0, 0, 0)
    {
      var row := rows[i];
      assert rows[..i + 1] == rows[..i] + [row];
      CountsForSnoc(rows[..i], row);
      assert (set j | 0 <= j < i + 1 :: rows[j].aeId) == (set j | 0 <= j < i :: rows[j].aeId) + {row.aeId};
      if row.aeId !in activity {
        activity := activity[row.aeId := ActivityCounts(0, 0, 0, 0)];
      }
      var current := AddRow(activity[row.aeId], row);
      activity := activity[row.aeId := current];
    }
    assert rows[..|rows|] == rows;
  }

  /** The loop body's update of one counter record: the row's count goes to its type's counter. */
  method AddRow(before: ActivityCounts, row: ActivityCountRow) returns (current: ActivityCounts)
    ensures current == AddActivity(before, row)
  {
    current := before;
    if row.activityType == Meeting {
      current := current.(meetings := current.meetings + row.count);
    }
    if row.activityType == Email {
      current := current.(emails := current.emails + row.count);
    }
    if row.activityType == Call {
      current := current.(calls := current.calls + row.count);
    }
    if row.activityType == Qbr {
      current := current.(qbr := current.qbr + row.count);
    }
  }

  /** One more row changes only its own account executive's counters, by AddActivity. */
  lemma CountsForSnoc(prefix: seq<ActivityCountRow>, row: ActivityCountRow)
    ensures forall ae :: (CountsFor(prefix + [row], ae) ==
                          if ae == row.aeId then AddActivity(CountsFor(prefix, ae), row) else CountsFor(prefix, ae))
  {
    assert (prefix + [row])[..|prefix|] == prefix;
  }

  /** Each row lands in exactly one counter: the four counters of an account executive add up to
      the counts of all its rows. */
  lemma {:induction false} CountersPartition(rows: seq<ActivityCountRow>, ae: string)
    ensures var c := CountsFor(rows, ae);
      c.meetings + c.emails + c.calls + c.qbr == TotalFor(rows, ae)
  {
    if |rows| > 0 {
      CountersPartition(rows[..|rows| - 1], ae);
    }
  }

  /** renewalTouchesMap: for each account executive of the renewal activities, how many there are. */
  method RenewalTouches(aeIds: seq<string>) returns (touches: map<string, int>)
    ensures touches.Keys == set i | 0 <= i < |aeIds| :: aeIds[i]
    ensures forall ae :: ae in touches ==> touches[ae] == multiset(aeIds)[ae] && touches[ae] >= 1
  {
    touches := map[];
    for i := 0 to |aeIds|
      invariant touches.Keys == set j | 0 <= j < i :: aeIds[j]
      invariant forall ae :: ae in touches ==> touches[ae] == multiset(aeIds[..i])[ae]
      invariant forall ae :: ae !in touches ==> multiset(aeIds[..i])[ae] == 0
    {
      assert aeIds[..i + 1] == aeIds[..i] + [aeIds[i]];
      var previous := if aeIds[i] in touches then touches[aeIds[i]] else 0;
      touches := touches[aeIds[i] := previous + 1];
    }
    assert aeIds[..|aeIds|] == aeIds;
    forall ae | ae in touches
      ensures touches[ae] >= 1
    {
      assert ae in multiset(aeIds);
    }
  }
}
