/** Status classifiers for the manager question strip
    (lib/metrics/manager-questions.ts): pipeline coverage and commit against
    target, each mapped to on track, watch or risk. */
module ManagerQuestions {

  datatype ManagerQuestionStatus = OnTrack | Watch | Risk

  /** Higher is better: risk 0, watch 1, on track 2. */
  function StatusRank(s: ManagerQuestionStatus): int
  {
    match s
    case Risk => 0
    case Watch => 1
    case OnTrack => 2
  }

  /** statusFromCoverage */
  function StatusFromCoverage(coverage: real): (r: ManagerQuestionStatus)
    ensures r == OnTrack <==> coverage >= 2.5
    ensures r == Watch <==> 2.0 <= coverage < 2.5
    ensures r == Risk <==> coverage < 2.0
  {
    if coverage >= 2.5 then OnTrack
    else if coverage >= 2.0 then Watch
    else Risk
  }

  /** statusFromForecast: watch whenever there is no positive target, otherwise by the share of
      the target that is in commit. */
  function StatusFromForecast(commit: real, target: real): (r: ManagerQuestionStatus)
    ensures target <= 0.0 ==> r == Watch
    ensures target > 0.0 ==> (r == OnTrack <==> commit >= 0.92 * target)
    ensures target > 0.0 ==> (r == Watch <==> 0.75 * target <= commit < 0.92 * target)
    ensures target > 0.0 ==> (r == Risk <==> commit < 0.75 * target)
  {
    if target <= 0.0 then Watch
    else
      var ratio := commit / target;
      RatioThreshold(commit, target, 0.92);
      RatioThreshold(commit, target, 0.75);
      if ratio >= 0.92 then OnTrack
      else if ratio >= 0.75 then Watch
      else Risk
  }

  /** For a positive target, commit / target >= k exactly when commit >= k * target. */
  lemma RatioThreshold(commit: real, target: real, k: real)
    requires target > 0.0
    ensures commit / target >= k <==> commit >= k * target
  {
    var ratio := commit / target;
    assert ratio * target == commit;
    if ratio >= k {
      assert (ratio - k) * target >= 0.0;
    } else {
      assert (k - ratio) * target > 0.0;
    }
  }

  /** More coverage never gives a worse status. */
  lemma CoverageMonotone(a: real, b: real)
    requires a <= b
    ensures StatusRank(StatusFromCoverage(a)) <= StatusRank(StatusFromCoverage(b))
  {
  }

  /** Against a fixed target, more commit never gives a worse status. */
  lemma ForecastMonotone(commit1: real, commit2: real, target: real)
    requires commit1 <= commit2
    ensures StatusRank(StatusFromForecast(commit1, target)) <= StatusRank(StatusFromForecast(commit2, target))
  {
  }

  /** The examples of the unit tests. */
  lemma StatusExamples()
    ensures StatusFromCoverage(2.6) == OnTrack && StatusFromCoverage(2.2) == Watch && StatusFromCoverage(1.7) == Risk
    ensures StatusFromForecast(920000.0, 1000000.0) == OnTrack
    ensures StatusFromForecast(820000.0, 1000000.0) == Watch
    ensures StatusFromForecast(620000.0, 1000000.0) == Risk
  {
  }
}
