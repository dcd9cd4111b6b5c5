/** Account health scoring (lib/metrics/health.ts): five component scores,
    each clamped to [0, 100], and their weighted sum under fixed weights.
    The calendar-day difference between the renewal date and "now"
    (date-fns' differenceInCalendarDays) is an integer input. */
module Health {
  import opened Numbers

  datatype PaymentStatus = Good | Watch | Overdue

  /** HEALTH_WEIGHTS */
  const UsageTrendWeight: real := 0.3
  const SupportWeight: real := 0.2
  const EngagementWeight: real := 0.2
  const RenewalWeight: real := 0.15
  const PaymentWeight: real := 0.15

  datatype HealthInputs = HealthInputs(
    usageTrendPct: real,
    openTicketsWeighted: real,
    meetingsLast45Days: real,
    qbrCompleted: bool,
    activeStakeholders: real,
    daysToRenewal: int,
    paymentStatus: PaymentStatus)

  datatype HealthScoreBreakdown = HealthScoreBreakdown(
    usageTrendScore: real,
    supportScore: real,
    engagementScore: real,
    renewalScore: real,
    paymentScore: real,
    weightedScore: real)

  /** The weights are a convex combination. */
  lemma WeightsSumToOne()
    ensures UsageTrendWeight + SupportWeight + EngagementWeight + RenewalWeight + PaymentWeight == 1.0
    ensures UsageTrendWeight > 0.0 && SupportWeight > 0.0 && EngagementWeight > 0.0
    ensures RenewalWeight > 0.0 && PaymentWeight > 0.0
  {
  }

  /** 50 at a flat trend, two points per percentage point, saturating at +/-25%. */
  function UsageTrendScore(usageTrendPct: real): (r: real)
    ensures 0.0 <= r <= 100.0
    ensures usageTrendPct == 0.0 ==> r == 50.0
    ensures usageTrendPct >= 25.0 ==> r == 100.0
    ensures usageTrendPct <= -25.0 ==> r == 0.0
    ensures -25.0 <= usageTrendPct <= 25.0 ==> r == 50.0 + 2.0 * usageTrendPct
  {
    Clamp(50.0 + usageTrendPct * 2.0, 0.0, 100.0)
  }

  /** Each weighted ticket unit costs 12 points. */
  function SupportScore(openTicketsWeighted: real): (r: real)
    ensures 0.0 <= r <= 100.0
    ensures openTicketsWeighted <= 0.0 ==> r == 100.0
    ensures openTicketsWeighted >= 9.0 ==> r == 0.0
    ensures r > 0.0 <==> openTicketsWeighted < 100.0 / 12.0
  {
    Clamp(100.0 - openTicketsWeighted * 12.0, 0.0, 100.0)
  }

  /** Meetings in the last 45 days, 12 points each, capped at 60. */
  function MeetingScore(meetings: real): (r: real)
    ensures 0.0 <= r <= 60.0
    ensures meetings >= 5.0 ==> r == 60.0
  {
    Clamp(meetings * 12.0, 0.0, 60.0)
  }

  /** Active stakeholders, 8 points each, capped at 24. */
  function StakeholderScore(stakeholders: real): (r: real)
    ensures 0.0 <= r <= 24.0
    ensures stakeholders >= 3.0 ==> r == 24.0
  {
    Clamp(stakeholders * 8.0, 0.0, 24.0)
  }

  /** A completed QBR adds a fixed 16 points. */
  function QbrScore(qbrCompleted: bool): (r: real)
    ensures r == 16.0 || r == 0.0
    ensures r == 16.0 <==> qbrCompleted
  {
    if qbrCompleted then 16.0 else 0.0
  }

  /** The capped sub-scores never exceed 100 together, so the outer clamp is inactive. */
  function EngagementScore(meetings: real, stakeholders: real, qbrCompleted: bool): (r: real)
    ensures 0.0 <= r <= 100.0
    ensures r == MeetingScore(meetings) + StakeholderScore(stakeholders) + QbrScore(qbrCompleted)
    ensures !qbrCompleted ==> r <= 84.0
    ensures qbrCompleted ==> r >= 16.0
  {
    Clamp(MeetingScore(meetings) + StakeholderScore(stakeholders) + QbrScore(qbrCompleted), 0.0, 100.0)
  }

  /** Linear ramp from 0 (renewal today or past) to 100 (180 days or more away). */
  function RenewalScore(daysToRenewal: int): (r: real)
    ensures 0.0 <= r <= 100.0
    ensures daysToRenewal <= 0 ==> r == 0.0
    ensures daysToRenewal >= 180 ==> r == 100.0
    ensures 0 <= daysToRenewal <= 180 ==> r == daysToRenewal as real * 100.0 / 180.0
  {
    Clamp((daysToRenewal as real / 180.0) * 100.0, 0.0, 100.0)
  }

  function PaymentScore(status: PaymentStatus): (r: real)
    ensures status == Good ==> r == 100.0
    ensures status == Watch ==> r == 60.0
    ensures status == Overdue ==> r == 25.0
  {
    if status == Good then 100.0 else if status == Watch then 60.0 else 25.0
  }

  /** The weighted sum of five component scores in [0, 100] lies in [0, 100]. */
  lemma WeightedSumBounds(u: real, s: real, e: real, n: real, p: real)
    requires 0.0 <= u <= 100.0 && 0.0 <= s <= 100.0 && 0.0 <= e <= 100.0
    requires 0.0 <= n <= 100.0 && 0.0 <= p <= 100.0
    ensures 0.0 <= u * UsageTrendWeight + s * SupportWeight + e * EngagementWeight
                   + n * RenewalWeight + p * PaymentWeight <= 100.0
  {
  }

  /** computeHealthScore */
  function ComputeHealthScore(inputs: HealthInputs): (r: HealthScoreBreakdown)
    ensures 0.0 <= r.usageTrendScore <= 100.0 && 0.0 <= r.supportScore <= 100.0
    ensures 0.0 <= r.engagementScore <= 100.0 && 0.0 <= r.renewalScore <= 100.0
    ensures 0.0 <= r.paymentScore <= 100.0 && 0.0 <= r.weightedScore <= 100.0
    ensures r.weightedScore == r.usageTrendScore * UsageTrendWeight + r.supportScore * SupportWeight
                               + r.engagementScore * EngagementWeight + r.renewalScore * RenewalWeight
                               + r.paymentScore * PaymentWeight
  {
    var u := UsageTrendScore(inputs.usageTrendPct);
    var s := SupportScore(inputs.openTicketsWeighted);
    var e := EngagementScore(inputs.meetingsLast45Days, inputs.activeStakeholders, inputs.qbrCompleted);
    var n := RenewalScore(inputs.daysToRenewal);
    var p := PaymentScore(inputs.paymentStatus);
    WeightedSumBounds(u, s, e, n, p);
    HealthScoreBreakdown(u, s, e, n, p,
      Clamp(u * UsageTrendWeight + s * SupportWeight + e * EngagementWeight
            + n * RenewalWeight + p * PaymentWeight, 0.0, 100.0))
  }

  function PaymentRank(status: PaymentStatus): int
  {
    match status
    case Good => 2
    case Watch => 1
    case Overdue => 0
  }

  /** `a` is at least as healthy as `b` on every signal. */
  predicate AtLeastAsHealthy(a: HealthInputs, b: HealthInputs)
  {
    && a.usageTrendPct >= b.usageTrendPct
    && a.openTicketsWeighted <= b.openTicketsWeighted
    && a.meetingsLast45Days >= b.meetingsLast45Days
    && (b.qbrCompleted ==> a.qbrCompleted)
    && a.activeStakeholders >= b.activeStakeholders
    && a.daysToRenewal >= b.daysToRenewal
    && PaymentRank(a.paymentStatus) >= PaymentRank(b.paymentStatus)
  }

  /** Better signals never give a lower health score: every component and the weighted score are monotone. */
  lemma HealthMonotone(a: HealthInputs, b: HealthInputs)
    requires AtLeastAsHealthy(a, b)
    ensures ComputeHealthScore(a).usageTrendScore >= ComputeHealthScore(b).usageTrendScore
    ensures ComputeHealthScore(a).supportScore >= ComputeHealthScore(b).supportScore
    ensures ComputeHealthScore(a).engagementScore >= ComputeHealthScore(b).engagementScore
    ensures ComputeHealthScore(a).renewalScore >= ComputeHealthScore(b).renewalScore
    ensures ComputeHealthScore(a).paymentScore >= ComputeHealthScore(b).paymentScore
    ensures ComputeHealthScore(a).weightedScore >= ComputeHealthScore(b).weightedScore
  {
    ClampMonotone(50.0 + b.usageTrendPct * 2.0, 50.0 + a.usageTrendPct * 2.0, 0.0, 100.0);
    ClampMonotone(100.0 - b.openTicketsWeighted * 12.0, 100.0 - a.openTicketsWeighted * 12.0, 0.0, 100.0);
    ClampMonotone(b.meetingsLast45Days * 12.0, a.meetingsLast45Days * 12.0, 0.0, 60.0);
    ClampMonotone(b.activeStakeholders * 8.0, a.activeStakeholders * 8.0, 0.0, 24.0);
    ClampMonotone(b.daysToRenewal as real / 180.0 * 100.0, a.daysToRenewal as real / 180.0 * 100.0, 0.0, 100.0);
  }

  /** More weighted tickets never raise the health score. They strictly lower it exactly when the
      support score has not yet reached 0 (fewer than 100/12 weighted tickets) and the new count is
      above 0 (below 0 the support score is pinned at 100). */
  lemma TicketsLowerScore(inputs: HealthInputs, more: real)
    requires more > inputs.openTicketsWeighted
    ensures var worse := inputs.(openTicketsWeighted := more);
      && ComputeHealthScore(worse).weightedScore <= ComputeHealthScore(inputs).weightedScore
      && (inputs.openTicketsWeighted < 100.0 / 12.0 && more > 0.0
          <==> ComputeHealthScore(worse).weightedScore < ComputeHealthScore(inputs).weightedScore)
  {
    var worse := inputs.(openTicketsWeighted := more);
    HealthMonotone(inputs, worse);
    var t := inputs.openTicketsWeighted;
    if t < 100.0 / 12.0 && more > 0.0 {
      assert SupportScore(more) < SupportScore(t) by {
        if more < 100.0 / 12.0 {
          assert SupportScore(more) == 100.0 - more * 12.0;
        }
      }
    }
  }

  /** The two example accounts of the unit tests: the weak-signal one scores below the strong-signal one. */
  lemma WeakBelowStrong()
    ensures var weak := ComputeHealthScore(HealthInputs(-30.0, 8.0, 0.0, false, 1.0, 8, Overdue));
      var strong := ComputeHealthScore(HealthInputs(18.0, 0.0, 8.0, true, 5.0, 180, Good));
      weak.weightedScore < strong.weightedScore
  {
    var weak := ComputeHealthScore(HealthInputs(-30.0, 8.0, 0.0, false, 1.0, 8, Overdue));
    var strong := ComputeHealthScore(HealthInputs(18.0, 0.0, 8.0, true, 5.0, 180, Good));
    assert weak.usageTrendScore == 0.0 && weak.supportScore == 4.0 && weak.engagementScore == 8.0;
    assert strong.usageTrendScore == 86.0 && strong.supportScore == 100.0 && strong.engagementScore == 100.0;
  }
}
