/** Coaching flags (lib/metrics/coaching.ts): five threshold rules per account
    executive, each raising at most one flag of medium or high severity. */
module Coaching {

  datatype CoachingFlagType = LowPipelineCoverage | SlippingDates | HighDiscount | LowMultiThreading | LowRenewalTouch

  datatype Severity = Low | Medium | High

  datatype AECoachingInput = AECoachingInput(
    aeId: string,
    aeName: string,
    pipelineCoverage: real,
    slippingDeals: real,
    avgDiscount: real,
    stakeholderCountAvg: real,
    renewalTouches30d: real)

  datatype CoachingFlag = CoachingFlag(aeId: string, aeName: string, flag: CoachingFlagType, severity: Severity)

  /** The position of each rule in the order the rules are checked. */
  function RuleIndex(k: CoachingFlagType): (r: nat)
    ensures r < |Rules| && Rules[r] == k
  {
    match k
    case LowPipelineCoverage => 0
    case SlippingDates => 1
    case HighDiscount => 2
    case LowMultiThreading => 3
    case LowRenewalTouch => 4
  }

  /** The rule table: when each flag is raised. */
  predicate Raised(input: AECoachingInput, k: CoachingFlagType)
  {
    match k
    case LowPipelineCoverage => input.pipelineCoverage < 2.5
    case SlippingDates => input.slippingDeals >= 3.0
    case HighDiscount => input.avgDiscount > 0.18
    case LowMultiThreading => input.stakeholderCountAvg < 2.5
    case LowRenewalTouch => input.renewalTouches30d < 2.0
  }

  /** The rule table: when a raised flag is high rather than medium. */
  predicate Severe(input: AECoachingInput, k: CoachingFlagType)
  {
    match k
    case LowPipelineCoverage => input.pipelineCoverage < 1.8
    case SlippingDates => input.slippingDeals >= 5.0
    case HighDiscount => input.avgDiscount > 0.24
    case LowMultiThreading => input.stakeholderCountAvg < 2.0
    case LowRenewalTouch => false
  }

  /** The rules in the order they are checked. */
  const Rules: seq<CoachingFlagType> := [LowPipelineCoverage, SlippingDates, HighDiscount, LowMultiThreading, LowRenewalTouch]

  /** The flag rule `k` raises for `input`. */
  function FlagOf(input: AECoachingInput, k: CoachingFlagType): CoachingFlag
  {
    CoachingFlag(input.aeId, input.aeName, k, if Severe(input, k) then High else Medium)
  }

  /** The flags the rules in `rules` raise, in rule order. */
  function FlagsOver(input: AECoachingInput, rules: seq<CoachingFlagType>): seq<CoachingFlag>
  {
    if |rules| == 0 then []
    else FlagsOver(input, rules[..|rules| - 1]) + Pushed(input, rules[|rules| - 1])
  }

  /** The flags one input contributes, in the order the loop body pushes them. */
  function FlagsFor(input: AECoachingInput): seq<CoachingFlag>
  {
    FlagsOver(input, Rules)
  }

  /** The flags of all inputs, input by input. */
  function CoachingFlags(inputs: seq<AECoachingInput>): seq<CoachingFlag>
  {
    if |inputs| == 0 then [] else CoachingFlags(inputs[..|inputs| - 1]) + FlagsFor(inputs[|inputs| - 1])
  }

  /** buildCoachingFlags: one pass over the inputs, pushing onto one list. */
  method BuildCoachingFlags(inputs: seq<AECoachingInput>) returns (flags: seq<CoachingFlag>)
    ensures flags == CoachingFlags(inputs)
  {
    flags := [];
    for i := 0 to |inputs|
      invariant flags == CoachingFlags(inputs[..i])
    {
      assert inputs[..i + 1][..i] == inputs[..i];
      flags := PushFlagsFor(flags, inputs[i]);
    }
    assert inputs[..|inputs|] == inputs;
  }

  /** The loop body of buildCoachingFlags: the five rule checks, each pushing at most one flag. */
  method PushFlagsFor(before: seq<CoachingFlag>, input: AECoachingInput) returns (flags: seq<CoachingFlag>)
    ensures flags == before + FlagsFor(input)
  {
    flags := before;
    if input.pipelineCoverage < 2.5 {
      flags := flags + [CoachingFlag(input.aeId, input.aeName, LowPipelineCoverage,
                                     if input.pipelineCoverage < 1.8 then High else Medium)];
    }
    ghost var s1 := flags;
    assert s1 == before + Pushed(input, LowPipelineCoverage);
    if input.slippingDeals >= 3.0 {
      flags := flags + [CoachingFlag(input.aeId, input.aeName, SlippingDates,
                                     if input.slippingDeals >= 5.0 then High else Medium)];
    }
    ghost var s2 := flags;
    assert s2 == s1 + Pushed(input, SlippingDates);
    if input.avgDiscount > 0.18 {
      flags := flags + [CoachingFlag(input.aeId, input.aeName, HighDiscount,
                                     if input.avgDiscount > 0.24 then High else Medium)];
    }
    ghost var s3 := flags;
    assert s3 == s2 + Pushed(input, HighDiscount);
    if input.stakeholderCountAvg < 2.5 {
      flags := flags + [CoachingFlag(input.aeId, input.aeName, LowMultiThreading,
                                     if input.stakeholderCountAvg < 2.0 then High else Medium)];
    }
    ghost var s4 := flags;
    assert s4 == s3 + Pushed(input, LowMultiThreading);
    if input.renewalTouches30d < 2.0 {
      flags := flags + [CoachingFlag(input.aeId, input.aeName, LowRenewalTouch, Medium)];
    }
    assert flags == s4 + Pushed(input, LowRenewalTouch);
    FlagsForUnfolded(input);
    AppendFive(before, Pushed(input, LowPipelineCoverage), Pushed(input, SlippingDates), Pushed(input, HighDiscount),
               Pushed(input, LowMultiThreading), Pushed(input, LowRenewalTouch));
  }

  /** What rule `k` pushes for `input`: its flag if raised, nothing otherwise. */
  function Pushed(input: AECoachingInput, k: CoachingFlagType): seq<CoachingFlag>
  {
    if Raised(input, k) then [FlagOf(input, k)] else []
  }

  lemma AppendFive<T>(s: seq<T>, a: seq<T>, b: seq<T>, c: seq<T>, d: seq<T>, e: seq<T>)
    ensures s + a + b + c + d + e == s + (a + b + c + d + e)
  {
  }

  lemma FlagsOverSnoc(input: AECoachingInput, rules: seq<CoachingFlagType>, k: CoachingFlagType)
    ensures FlagsOver(input, rules + [k]) == FlagsOver(input, rules) + Pushed(input, k)
  {
    assert (rules + [k])[..|rules|] == rules;
  }

  /** The rule list unrolled: the five rules' pushes one after the other. */
  lemma FlagsForUnfolded(input: AECoachingInput)
    ensures FlagsFor(input) == Pushed(input, LowPipelineCoverage) + Pushed(input, SlippingDates)
      + Pushed(input, HighDiscount) + Pushed(input, LowMultiThreading) + Pushed(input, LowRenewalTouch)
  {
    var p1 := [LowPipelineCoverage];
    var p2 := p1 + [SlippingDates];
    var p3 := p2 + [HighDiscount];
    var p4 := p3 + [LowMultiThreading];
    assert p4 + [LowRenewalTouch] == Rules;
    FlagsOverSnoc(input, [], LowPipelineCoverage);
    assert [] + [LowPipelineCoverage] == p1;
    FlagsOverSnoc(input, p1, SlippingDates);
    FlagsOverSnoc(input, p2, HighDiscount);
    FlagsOverSnoc(input, p3, LowMultiThreading);
    FlagsOverSnoc(input, p4, LowRenewalTouch);
  }

  /** Every flag over `rules` is about `input`, comes from a raised rule of `rules`, and is high
      exactly when that rule's stricter threshold is crossed (never low). */
  lemma {:induction false} FlagsOverFields(input: AECoachingInput, rules: seq<CoachingFlagType>)
    ensures |FlagsOver(input, rules)| <= |rules|
    ensures forall f :: f in FlagsOver(input, rules) ==>
      && f.aeId == input.aeId && f.aeName == input.aeName && f.flag in rules && Raised(input, f.flag)
      && (f.severity == High <==> Severe(input, f.flag)) && f.severity != Low
  {
    if |rules| > 0 {
      var init := rules[..|rules| - 1];
      FlagsOverFields(input, init);
      assert forall k :: k in init ==> k in rules;
    }
  }

  /** Over rules listed in increasing rule order, the flags come in increasing rule order. */
  lemma {:induction false} FlagsOverOrdered(input: AECoachingInput, rules: seq<CoachingFlagType>)
    requires forall i, j :: 0 <= i < j < |rules| ==> RuleIndex(rules[i]) < RuleIndex(rules[j])
    ensures forall i, j :: 0 <= i < j < |FlagsOver(input, rules)| ==>
      RuleIndex(FlagsOver(input, rules)[i].flag) < RuleIndex(FlagsOver(input, rules)[j].flag)
  {
    if |rules| > 0 {
      var init := rules[..|rules| - 1];
      var last := rules[|rules| - 1];
      FlagsOverOrdered(input, init);
      FlagsOverFields(input, init);
      var prev := FlagsOver(input, init);
      forall i | 0 <= i < |prev|
        ensures RuleIndex(prev[i].flag) < RuleIndex(last)
      {
        assert prev[i] in prev;
        var j :| 0 <= j < |init| && init[j] == prev[i].flag;
        assert rules[j] == init[j];
      }
    }
  }

  /** A rule of `rules` has a flag exactly when it is raised. */
  lemma {:induction false} FlagsOverComplete(input: AECoachingInput, rules: seq<CoachingFlagType>, k: CoachingFlagType)
    ensures k in rules && Raised(input, k) <==> exists i :: 0 <= i < |FlagsOver(input, rules)| && FlagsOver(input, rules)[i].flag == k
  {
    var r := FlagsOver(input, rules);
    if |rules| > 0 {
      var init := rules[..|rules| - 1];
      var last := rules[|rules| - 1];
      FlagsOverComplete(input, init, k);
      FlagsOverFields(input, rules);
      var prev := FlagsOver(input, init);
      assert k in rules <==> k in init || k == last;
      if k in rules && Raised(input, k) {
        if k in init {
          var i :| 0 <= i < |prev| && prev[i].flag == k;
          assert r[i].flag == k;
        } else {
          assert r[|prev|].flag == k;
        }
      }
      if exists i :: 0 <= i < |r| && r[i].flag == k {
        var i :| 0 <= i < |r| && r[i].flag == k;
        assert r[i] in r;
      }
    }
  }

  /** One input's flags: at most five, all about that executive, none of low severity, one per
      raised rule in rule order, each high exactly when the rule's stricter threshold is crossed. */
  lemma FlagsForSpec(input: AECoachingInput)
    ensures |FlagsFor(input)| <= 5
    ensures forall i :: 0 <= i < |FlagsFor(input)| ==>
      && FlagsFor(input)[i].aeId == input.aeId && FlagsFor(input)[i].aeName == input.aeName
      && Raised(input, FlagsFor(input)[i].flag)
      && (FlagsFor(input)[i].severity == High <==> Severe(input, FlagsFor(input)[i].flag))
      && FlagsFor(input)[i].severity != Low
    ensures forall i, j :: 0 <= i < j < |FlagsFor(input)| ==> RuleIndex(FlagsFor(input)[i].flag) < RuleIndex(FlagsFor(input)[j].flag)
    ensures forall k :: Raised(input, k) <==> exists i :: 0 <= i < |FlagsFor(input)| && FlagsFor(input)[i].flag == k
  {
    FlagsOverFields(input, Rules);
    FlagsOverOrdered(input, Rules);
    forall k
      ensures Raised(input, k) <==> exists i :: 0 <= i < |FlagsFor(input)| && FlagsFor(input)[i].flag == k
    {
      var r := FlagsOver(input, Rules);
      assert r == FlagsFor(input);
      assert Rules[RuleIndex(k)] == k;
      assert k in Rules;
      FlagsOverComplete(input, Rules, k);
      assert Raised(input, k) <==> exists i :: 0 <= i < |r| && r[i].flag == k;
    }
    forall i | 0 <= i < |FlagsFor(input)|
      ensures FlagsFor(input)[i] in FlagsFor(input)
    {
    }
  }

  /** An executive who is doing no better on any metric gets every flag the first one gets, at a
      severity at least as high. */
  lemma WorseMetricsMoreFlags(a: AECoachingInput, b: AECoachingInput, k: CoachingFlagType)
    requires b.pipelineCoverage <= a.pipelineCoverage && b.slippingDeals >= a.slippingDeals
    requires b.avgDiscount >= a.avgDiscount && b.stakeholderCountAvg <= a.stakeholderCountAvg
    requires b.renewalTouches30d <= a.renewalTouches30d
    ensures Raised(a, k) ==> Raised(b, k)
    ensures Severe(a, k) ==> Severe(b, k)
  {
  }

  /** The flags of a concatenation are the concatenation of the flags. */
  lemma {:induction false} CoachingFlagsAppend(a: seq<AECoachingInput>, b: seq<AECoachingInput>)
    ensures CoachingFlags(a + b) == CoachingFlags(a) + CoachingFlags(b)
    decreases |b|
  {
    if |b| == 0 {
      assert a + b == a;
    } else {
      assert (a + b)[..|a + b| - 1] == a + b[..|b| - 1];
      CoachingFlagsAppend(a, b[..|b| - 1]);
    }
  }

  /** Every flag is one of some input's flags, and there are at most five per input. */
  lemma {:induction false} CoachingFlagsOrigin(inputs: seq<AECoachingInput>)
    ensures |CoachingFlags(inputs)| <= 5 * |inputs|
    ensures forall f :: f in CoachingFlags(inputs) ==> exists i :: 0 <= i < |inputs| && f in FlagsFor(inputs[i])
  {
    if |inputs| > 0 {
      var init := inputs[..|inputs| - 1];
      CoachingFlagsOrigin(init);
      FlagsForSpec(inputs[|inputs| - 1]);
      forall f | f in CoachingFlags(inputs)
        ensures exists i :: 0 <= i < |inputs| && f in FlagsFor(inputs[i])
      {
        if f in CoachingFlags(init) {
          var i :| 0 <= i < |init| && f in FlagsFor(init[i]);
          assert inputs[i] == init[i];
        } else {
          assert f in FlagsFor(inputs[|inputs| - 1]);
        }
      }
    }
  }

  /** An executive below every threshold gets all five flags, four of them high. */
  lemma AllFlagsExample()
    ensures var r := FlagsFor(AECoachingInput("ae-1", "Avery", 1.5, 6.0, 0.25, 1.5, 0.0));
      |r| == 5 && r[0].severity == High && r[1].severity == High && r[2].severity == High
      && r[3].severity == High && r[4] == CoachingFlag("ae-1", "Avery", LowRenewalTouch, Medium)
  {
    FlagsForUnfolded(AECoachingInput("ae-1", "Avery", 1.5, 6.0, 0.25, 1.5, 0.0));
  }
}
