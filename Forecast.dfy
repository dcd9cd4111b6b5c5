/** Forecast bucketing, coverage, accuracy and the per-stage breakdown
    (lib/metrics/forecast.ts). An opportunity is bucketed by its win
    probability: commit from 0.7, best case on [0.4, 0.69], upside on
    [0.1, 0.39]; every other probability, including the gaps (0.69, 0.7) and
    (0.39, 0.4), counts in no bucket. */
module Forecast {
  import opened Numbers

  datatype Stage = Prospect | Discovery | TechEval | Proposal | Negotiation | Legal | ClosedWon | ClosedLost

  /** The stage's name as the database enum spells it. */
  function StageName(s: Stage): string
  {
    match s
    case Prospect => "PROSPECT"
    case Discovery => "DISCOVERY"
    case TechEval => "TECH_EVAL"
    case Proposal => "PROPOSAL"
    case Negotiation => "NEGOTIATION"
    case Legal => "LEGAL"
    case ClosedWon => "CLOSED_WON"
    case ClosedLost => "CLOSED_LOST"
  }

  lemma StageNameInjective(a: Stage, b: Stage)
    requires StageName(a) == StageName(b)
    ensures a == b
  {
    assert StageName(a)[0] == StageName(b)[0];
    if StageName(a)[0] == 'P' {
      assert StageName(a)[1] == StageName(b)[1];
    } else if StageName(a)[0] == 'C' {
      assert StageName(a)[7] == StageName(b)[7];
    }
  }

  datatype Opportunity = Opportunity(amount: real, probability: real, stage: Stage)

  datatype Bucket = Commit | BestCase | Upside | Unbucketed

  /** The probability bands of bucketForecast, checked from commit down to upside. */
  function BucketOf(p: real): (b: Bucket)
    ensures b == Commit <==> p >= 0.7
    ensures b == BestCase <==> 0.4 <= p <= 0.69
    ensures b == Upside <==> 0.1 <= p <= 0.39
    ensures b == Unbucketed <==> p < 0.1 || 0.39 < p < 0.4 || 0.69 < p < 0.7
  {
    if p >= 0.7 then Commit
    else if p >= 0.4 && p <= 0.69 then BestCase
    else if p >= 0.1 && p <= 0.39 then Upside
    else Unbucketed
  }

  /** The boundary values: 0.7 is commit, 0.4 best case, 0.39 and 0.1 upside; 0.0999 and the
      probabilities strictly inside the two gaps (0.699999, 0.395) count in no bucket. */
  lemma BucketBoundaries()
    ensures BucketOf(0.7) == Commit && BucketOf(0.69) == BestCase && BucketOf(0.4) == BestCase
    ensures BucketOf(0.39) == Upside && BucketOf(0.1) == Upside && BucketOf(0.0999) == Unbucketed
    ensures BucketOf(0.699999) == Unbucketed && BucketOf(0.395) == Unbucketed
  {
  }

  /** Which opportunities an amount total counts: all of them, or those in one bucket. */
  datatype Selector = AllOpps | InBucket(bucket: Bucket)

  predicate Selects(sel: Selector, opp: Opportunity)
  {
    match sel
    case AllOpps => true
    case InBucket(b) => BucketOf(opp.probability) == b
  }

  /** The sum of the amounts of the selected opportunities. */
  function AmountOf(opps: seq<Opportunity>, sel: Selector): real
  {
    if |opps| == 0 then 0.0
    else AmountOf(opps[..|opps| - 1], sel) + (if Selects(sel, opps[|opps| - 1]) then opps[|opps| - 1].amount else 0.0)
  }

  datatype ForecastBucketResult = ForecastBucketResult(commit: real, bestCase: real, upside: real)

  /** The three bucket totals, each the amount of the opportunities in that band. */
  function BucketTotals(opps: seq<Opportunity>): ForecastBucketResult
  {
    ForecastBucketResult(AmountOf(opps, InBucket(Commit)), AmountOf(opps, InBucket(BestCase)),
                         AmountOf(opps, InBucket(Upside)))
  }

  /** bucketForecast: a reduce whose step adds the amount to the one matching accumulator field. */
  method BucketForecast(opps: seq<Opportunity>) returns (acc: ForecastBucketResult)
    ensures acc == BucketTotals(opps)
  {
    acc := ForecastBucketResult(0.0, 0.0, 0.0);
    for i := 0 to |opps|
      invariant acc == BucketTotals(opps[..i])
    {
      var opp := opps[i];
      assert opps[..i + 1][..i] == opps[..i];
      if opp.probability >= 0.7 {
        acc := acc.(commit := acc.commit + opp.amount);
      } else if opp.probability >= 0.4 && opp.probability <= 0.69 {
        acc := acc.(bestCase := acc.bestCase + opp.amount);
      } else if opp.probability >= 0.1 && opp.probability <= 0.39 {
        acc := acc.(upside := acc.upside + opp.amount);
      }
    }
    assert opps[..|opps|] == opps;
  }

  /** The four bands partition every opportunity's amount. */
  lemma {:induction false} BucketsPartition(opps: seq<Opportunity>)
    ensures AmountOf(opps, InBucket(Commit)) + AmountOf(opps, InBucket(BestCase))
            + AmountOf(opps, InBucket(Upside)) + AmountOf(opps, InBucket(Unbucketed))
            == AmountOf(opps, AllOpps)
  {
    if |opps| > 0 {
      BucketsPartition(opps[..|opps| - 1]);
    }
  }

  lemma {:induction false} AmountNonNegative(opps: seq<Opportunity>, sel: Selector)
    requires forall i :: 0 <= i < |opps| ==> opps[i].amount >= 0.0
    ensures AmountOf(opps, sel) >= 0.0
    ensures AmountOf(opps, sel) == 0.0 <==> forall i :: 0 <= i < |opps| && Selects(sel, opps[i]) ==> opps[i].amount == 0.0
  {
    if |opps| > 0 {
      var init := opps[..|opps| - 1];
      assert forall i :: 0 <= i < |init| ==> init[i] == opps[i];
      AmountNonNegative(init, sel);
    }
  }

  /** With non-negative amounts the buckets never hold more than the whole pipeline, and they hold
      all of it exactly when every opportunity with a positive amount falls in some band. */
  lemma BucketsWithinPipeline(opps: seq<Opportunity>)
    requires forall i :: 0 <= i < |opps| ==> opps[i].amount >= 0.0
    ensures var r := BucketTotals(opps);
      && r.commit >= 0.0 && r.bestCase >= 0.0 && r.upside >= 0.0
      && r.commit + r.bestCase + r.upside <= AmountOf(opps, AllOpps)
      && (r.commit + r.bestCase + r.upside == AmountOf(opps, AllOpps)
          <==> forall i :: 0 <= i < |opps| && opps[i].amount > 0.0 ==> BucketOf(opps[i].probability) != Unbucketed)
  {
    BucketsPartition(opps);
    AmountNonNegative(opps, InBucket(Commit));
    AmountNonNegative(opps, InBucket(BestCase));
    AmountNonNegative(opps, InBucket(Upside));
    AmountNonNegative(opps, InBucket(Unbucketed));
  }

  /** The example of the unit tests: 100 at 0.75, 200 at 0.55, 300 at 0.25. */
  lemma BucketExample()
    ensures BucketTotals([Opportunity(100.0, 0.75, Proposal), Opportunity(200.0, 0.55, Negotiation),
                          Opportunity(300.0, 0.25, Discovery)])
            == ForecastBucketResult(100.0, 200.0, 300.0)
  {
    var opps := [Opportunity(100.0, 0.75, Proposal), Opportunity(200.0, 0.55, Negotiation),
                 Opportunity(300.0, 0.25, Discovery)];
    assert opps == [] + [opps[0]] + [opps[1]] + [opps[2]];
    assert AmountOf([], InBucket(Commit)) == 0.0;
    forall sel: Selector
      ensures AmountOf(opps, sel) == AmountOf([], sel)
                + (if Selects(sel, opps[0]) then 100.0 else 0.0)
                + (if Selects(sel, opps[1]) then 200.0 else 0.0)
                + (if Selects(sel, opps[2]) then 300.0 else 0.0)
    {
      AmountOfSnoc([], opps[0], sel);
      AmountOfSnoc([opps[0]], opps[1], sel);
      AmountOfSnoc([opps[0], opps[1]], opps[2], sel);
      assert [opps[0]] + [opps[1]] == [opps[0], opps[1]];
    }
  }

  lemma AmountOfSnoc(opps: seq<Opportunity>, opp: Opportunity, sel: Selector)
    ensures AmountOf(opps + [opp], sel) == AmountOf(opps, sel) + if Selects(sel, opp) then opp.amount else 0.0
  {
    assert (opps + [opp])[..|opps|] == opps;
  }

  /** pipelineCoverage: pipeline over the remaining target, 0 when no target remains. */
  function PipelineCoverage(totalPipeline: real, remainingTarget: real): (r: real)
    ensures remainingTarget <= 0.0 ==> r == 0.0
    ensures remainingTarget > 0.0 ==> r * remainingTarget == totalPipeline
  {
    if remainingTarget <= 0.0 then 0.0 else totalPipeline / remainingTarget
  }

  /** forecastAccuracy: the error as a fraction of the actual, 0 when the actual is 0. */
  function ForecastAccuracy(actual: real, forecastCommit: real): (r: real)
    ensures actual == 0.0 ==> r == 0.0
    ensures actual != 0.0 ==> r * actual == Abs(actual - forecastCommit)
    ensures actual > 0.0 ==> r >= 0.0
  {
    if actual == 0.0 then 0.0 else Abs(actual - forecastCommit) / actual
  }

  function Abs(x: real): real
  {
    if x < 0.0 then -x else x
  }

  lemma RatioExamples()
    ensures PipelineCoverage(1000000.0, 500000.0) == 2.0
    ensures PipelineCoverage(100000.0, 0.0) == 0.0 && PipelineCoverage(100000.0, -50000.0) == 0.0
    ensures ForecastAccuracy(100.0, 90.0) == 0.1 && ForecastAccuracy(0.0, 50.0) == 0.0
  {
  }

  // ---------------------------------------------------------------------
  // Stage breakdown

  datatype ForecastStageRow = ForecastStageRow(stage: Stage, commit: real, bestCase: real, pipeline: real)

  /** The opportunities of one stage, in input order. */
  function OfStage(opps: seq<Opportunity>, s: Stage): seq<Opportunity>
  {
    if |opps| == 0 then []
    else OfStage(opps[..|opps| - 1], s) + (if opps[|opps| - 1].stage == s then [opps[|opps| - 1]] else [])
  }

  /** The distinct stages of `opps` in order of first appearance. */
  function Stages(opps: seq<Opportunity>): seq<Stage>
  {
    if |opps| == 0 then []
    else
      var d := Stages(opps[..|opps| - 1]);
      if opps[|opps| - 1].stage in d then d else d + [opps[|opps| - 1].stage]
  }

  /** The row of one stage: its commit and best-case amounts and its whole pipeline. */
  function RowFor(opps: seq<Opportunity>, s: Stage): ForecastStageRow
  {
    var of := OfStage(opps, s);
    ForecastStageRow(s, AmountOf(of, InBucket(Commit)), AmountOf(of, InBucket(BestCase)), AmountOf(of, AllOpps))
  }

  function RowsFor(opps: seq<Opportunity>, stages: seq<Stage>): seq<ForecastStageRow>
  {
    seq(|stages|, i requires 0 <= i < |stages| => RowFor(opps, stages[i]))
  }

  /** One row per distinct stage, in order of first appearance. */
  function StageRows(opps: seq<Opportunity>): seq<ForecastStageRow>
  {
    RowsFor(opps, Stages(opps))
  }

  /** The row update of the loop body: pipeline always, commit or best case by band. */
  function AddToRow(row: ForecastStageRow, opp: Opportunity): ForecastStageRow
  {
    var row := row.(pipeline := row.pipeline + opp.amount);
    if opp.probability >= 0.7 then row.(commit := row.commit + opp.amount)
    else if opp.probability >= 0.4 && opp.probability <= 0.69 then row.(bestCase := row.bestCase + opp.amount)
    else row
  }

  lemma {:induction false} StagesSpec(opps: seq<Opportunity>)
    ensures forall s :: s in Stages(opps) <==> exists i :: 0 <= i < |opps| && opps[i].stage == s
    ensures forall i, j :: 0 <= i < j < |Stages(opps)| ==> Stages(opps)[i] != Stages(opps)[j]
  {
    if |opps| > 0 {
      var init := opps[..|opps| - 1];
      StagesSpec(init);
      assert forall i :: 0 <= i < |init| ==> init[i] == opps[i];
    }
  }

  lemma {:induction false} OfAbsentStage(opps: seq<Opportunity>, s: Stage)
    requires s !in Stages(opps)
    ensures OfStage(opps, s) == []
  {
    if |opps| > 0 {
      OfAbsentStage(opps[..|opps| - 1], s);
    }
  }

  /** The rows after one more opportunity: only that opportunity's stage changes. */
  lemma RowForSnoc(opps: seq<Opportunity>, opp: Opportunity, s: Stage)
    ensures RowFor(opps + [opp], s) == if s == opp.stage then AddToRow(RowFor(opps, s), opp) else RowFor(opps, s)
  {
    var all := opps + [opp];
    assert all[..|all| - 1] == opps;
    if s == opp.stage {
      var of := OfStage(opps, s);
      var of2 := of + [opp];
      assert OfStage(all, s) == of2;
      AmountOfSnoc(of, opp, AllOpps);
      AmountOfSnoc(of, opp, InBucket(Commit));
      AmountOfSnoc(of, opp, InBucket(BestCase));
      var row := RowFor(opps, s);
      var b := BucketOf(opp.probability);
      if b == Commit {
        assert AddToRow(row, opp) == row.(pipeline := row.pipeline + opp.amount, commit := row.commit + opp.amount);
      } else if b == BestCase {
        assert AddToRow(row, opp) == row.(pipeline := row.pipeline + opp.amount, bestCase := row.bestCase + opp.amount);
      } else {
        assert AddToRow(row, opp) == row.(pipeline := row.pipeline + opp.amount);
      }
      assert RowFor(all, s) == ForecastStageRow(s, AmountOf(of2, InBucket(Commit)), AmountOf(of2, InBucket(BestCase)), AmountOf(of2, AllOpps));
      assert row == ForecastStageRow(s, AmountOf(of, InBucket(Commit)), AmountOf(of, InBucket(BestCase)), AmountOf(of, AllOpps));
    } else {
      assert OfStage(all, s) == OfStage(opps, s);
    }
  }

  /** stageBreakdownByBucket: rows live in a map keyed by stage, created on first sight and
      updated in place; the map's insertion order is kept in `order`. */
  method StageBreakdownByBucket(opps: seq<Opportunity>) returns (rows: seq<ForecastStageRow>)
    ensures rows == StageRows(opps)
  {
    var order: seq<Stage> := [];
    var table: map<Stage, ForecastStageRow> := map[];
    for i := 0 to |opps|
      invariant order == Stages(opps[..i])
      invariant forall s :: s in table <==> s in order
      invariant forall s :: s in table ==> table[s] == RowFor(opps[..i], s)
    {
      var opp := opps[i];
      assert opps[..i + 1] == opps[..i] + [opp];
      if opp.stage !in table {
        OfAbsentStage(opps[..i], opp.stage);
        table := table[opp.stage := ForecastStageRow(opp.stage, 0.0, 0.0, 0.0)];
        order := order + [opp.stage];
      }
      var row := table[opp.stage];
      row := row.(pipeline := row.pipeline + opp.amount);
      if opp.probability >= 0.7 {
        row := row.(commit := row.commit + opp.amount);
      } else if opp.probability >= 0.4 && opp.probability <= 0.69 {
        row := row.(bestCase := row.bestCase + opp.amount);
      }
      table := table[opp.stage := row];
      forall s | s in table
        ensures table[s] == RowFor(opps[..i + 1], s)
      {
        RowForSnoc(opps[..i], opp, s);
      }
    }
    assert opps[..|opps|] == opps;
    rows := seq(|order|, k requires 0 <= k < |order| => table[order[k]]);
  }

  /** Per row, commit plus best case never exceeds the stage's pipeline (non-negative amounts). */
  lemma RowWithinPipeline(opps: seq<Opportunity>, k: nat)
    requires forall i :: 0 <= i < |opps| ==> opps[i].amount >= 0.0
    requires k < |StageRows(opps)|
    ensures var row := StageRows(opps)[k];
      row.commit >= 0.0 && row.bestCase >= 0.0 && row.commit + row.bestCase <= row.pipeline
  {
    var of := OfStage(opps, Stages(opps)[k]);
    OfStageMembers(opps, Stages(opps)[k]);
    BucketsPartition(of);
    AmountNonNegative(of, InBucket(Commit));
    AmountNonNegative(of, InBucket(BestCase));
    AmountNonNegative(of, InBucket(Upside));
    AmountNonNegative(of, InBucket(Unbucketed));
  }

  lemma {:induction false} OfStageMembers(opps: seq<Opportunity>, s: Stage)
    ensures forall i :: 0 <= i < |OfStage(opps, s)| ==> OfStage(opps, s)[i] in opps && OfStage(opps, s)[i].stage == s
  {
    if |opps| > 0 {
      OfStageMembers(opps[..|opps| - 1], s);
    }
  }

  /** The value a row holds for a selector: pipeline for all, commit or best case for those bands. */
  function RowValue(row: ForecastStageRow, sel: Selector): real
  {
    match sel
    case AllOpps => row.pipeline
    case InBucket(b) => if b == Commit then row.commit else if b == BestCase then row.bestCase else 0.0
  }

  predicate RowSelector(sel: Selector)
  {
    sel == AllOpps || sel == InBucket(Commit) || sel == InBucket(BestCase)
  }

  function SumRows(rows: seq<ForecastStageRow>, sel: Selector): real
  {
    if |rows| == 0 then 0.0 else SumRows(rows[..|rows| - 1], sel) + RowValue(rows[|rows| - 1], sel)
  }

  /** Adding one opportunity to the input adds its amount to the sum over a fixed list of
      distinct stages exactly when its stage is listed and the selector picks it. */
  lemma {:induction false} SumRowsSnoc(opps: seq<Opportunity>, opp: Opportunity, stages: seq<Stage>, sel: Selector)
    requires RowSelector(sel)
    requires forall i, j :: 0 <= i < j < |stages| ==> stages[i] != stages[j]
    ensures SumRows(RowsFor(opps + [opp], stages), sel)
         == SumRows(RowsFor(opps, stages), sel) + (if opp.stage in stages && Selects(sel, opp) then opp.amount else 0.0)
  {
    if |stages| > 0 {
      var init := stages[..|stages| - 1];
      var s := stages[|stages| - 1];
      assert RowsFor(opps + [opp], stages)[..|init|] == RowsFor(opps + [opp], init);
      assert RowsFor(opps, stages)[..|init|] == RowsFor(opps, init);
      SumRowsSnoc(opps, opp, init, sel);
      RowForSnoc(opps, opp, s);
      assert opp.stage in stages <==> opp.stage in init || opp.stage == s;
      assert opp.stage == s ==> opp.stage !in init;
    }
  }

  /** Summed over the rows, commit, best case and pipeline equal the global totals. */
  lemma {:induction false} StageRowsSum(opps: seq<Opportunity>, sel: Selector)
    requires RowSelector(sel)
    ensures SumRows(StageRows(opps), sel) == AmountOf(opps, sel)
  {
    if |opps| > 0 {
      var init := opps[..|opps| - 1];
      var opp := opps[|opps| - 1];
      var d := Stages(init);
      StageRowsSum(init, sel);
      StagesSpec(init);
      assert opps == init + [opp];
      SumRowsSnoc(init, opp, d, sel);
      if opp.stage !in d {
        RowsForSnoc(opps, d, opp.stage, sel);
        NewStageRow(init, opp, sel);
      }
    }
  }

  lemma RowsForSnoc(opps: seq<Opportunity>, stages: seq<Stage>, s: Stage, sel: Selector)
    ensures SumRows(RowsFor(opps, stages + [s]), sel) == SumRows(RowsFor(opps, stages), sel) + RowValue(RowFor(opps, s), sel)
  {
    var rows := RowsFor(opps, stages + [s]);
    assert rows[..|rows| - 1] == RowsFor(opps, stages);
  }

  /** The row of a stage seen for the first time holds just the new opportunity. */
  lemma NewStageRow(opps: seq<Opportunity>, opp: Opportunity, sel: Selector)
    requires RowSelector(sel)
    requires opp.stage !in Stages(opps)
    ensures RowValue(RowFor(opps + [opp], opp.stage), sel) == if Selects(sel, opp) then opp.amount else 0.0
  {
    OfAbsentStage(opps, opp.stage);
    RowForSnoc(opps, opp, opp.stage);
  }

  /** The breakdown agrees with bucketForecast: its commit and best-case columns add up to the
      global commit and best-case totals, and its pipeline column to the whole amount. */
  lemma StageRowsMatchBuckets(opps: seq<Opportunity>)
    ensures SumRows(StageRows(opps), InBucket(Commit)) == BucketTotals(opps).commit
    ensures SumRows(StageRows(opps), InBucket(BestCase)) == BucketTotals(opps).bestCase
    ensures SumRows(StageRows(opps), AllOpps) == AmountOf(opps, AllOpps)
  {
    StageRowsSum(opps, InBucket(Commit));
    StageRowsSum(opps, InBucket(BestCase));
    StageRowsSum(opps, AllOpps);
  }

  /** One row per distinct stage, each stage of the input has a row, and each row is that stage's. */
  lemma StageRowsShape(opps: seq<Opportunity>)
    ensures |StageRows(opps)| == |Stages(opps)|
    ensures forall k :: 0 <= k < |StageRows(opps)| ==> StageRows(opps)[k].stage == Stages(opps)[k]
    ensures forall i :: 0 <= i < |opps| ==> opps[i].stage in Stages(opps)
    ensures forall j, k :: 0 <= j < k < |StageRows(opps)| ==> StageRows(opps)[j].stage != StageRows(opps)[k].stage
  {
    StagesSpec(opps);
  }
}
