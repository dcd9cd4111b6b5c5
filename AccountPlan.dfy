/** Account-plan completeness (lib/metrics/account-plan.ts): the share of
    seven required plan fields that hold something, as a rounded percentage.
    A plan is a record from field name to value; a key that is absent reads as
    undefined. A string counts when it has content after trimming; a Date
    always counts; null and undefined never do. */
module AccountPlan {
  import opened Numbers
  import opened Text
  import opened Options

  /** A plan field's value: null or undefined, a string, or a Date. */
  datatype FieldValue = Absent | Str(s: string) | DateValue

  type PlanRecord = map<string, FieldValue>

  /** REQUIRED_ACCOUNT_PLAN_FIELDS */
  const RequiredFields: seq<string> := ["businessGoals", "successMetrics", "stakeholderMap", "riskLog",
                                        "expansionHypothesis", "execAlignmentDate", "nextQbrDate"]

  /** The filter callback: does `field` of `plan` count as filled in? */
  predicate FieldComplete(plan: PlanRecord, field: string)
  {
    field in plan &&
    match plan[field]
    case Absent => false
    case Str(s) => |Trim(s)| > 0
    case DateValue => true
  }

  /** A string field counts exactly when it has a non-whitespace character; a Date always
      counts; a missing, null or undefined field never does. */
  lemma FieldCompleteIff(plan: PlanRecord, field: string)
    ensures field !in plan ==> !FieldComplete(plan, field)
    ensures field in plan && plan[field] == Absent ==> !FieldComplete(plan, field)
    ensures field in plan && plan[field].Str? ==> (FieldComplete(plan, field) <==> HasContent(plan[field].s))
    ensures field in plan && plan[field] == DateValue ==> FieldComplete(plan, field)
  {
    if field in plan && plan[field].Str? {
      TrimNonEmptyIff(plan[field].s);
    }
  }

  /** The number of fields of `fields` that `plan` has filled in. */
  function CountComplete(plan: PlanRecord, fields: seq<string>): (n: nat)
    ensures n <= |fields|
  {
    if |fields| == 0 then 0
    else CountComplete(plan, fields[..|fields| - 1]) + (if FieldComplete(plan, fields[|fields| - 1]) then 1 else 0)
  }

  /** Math.round(completed / 7 * 100). */
  function CompletionPercent(completed: nat): (r: int)
    requires completed <= |RequiredFields|
    ensures 0 <= r <= 100
    ensures r as real - 0.5 <= completed as real / 7.0 * 100.0 < r as real + 0.5
    ensures r == 0 <==> completed == 0
    ensures r == 100 <==> completed == 7
  {
    Round(completed as real / 7.0 * 100.0)
  }

  /** The eight possible results. */
  lemma CompletionPercentTable()
    ensures CompletionPercent(0) == 0 && CompletionPercent(1) == 14 && CompletionPercent(2) == 29
    ensures CompletionPercent(3) == 43 && CompletionPercent(4) == 57 && CompletionPercent(5) == 71
    ensures CompletionPercent(6) == 86 && CompletionPercent(7) == 100
  {
  }

  /** accountPlanCompleteness: 0 for a null or undefined plan. */
  function AccountPlanCompleteness(plan: Option<PlanRecord>): (r: int)
    ensures 0 <= r <= 100
    ensures plan.None? ==> r == 0
    ensures plan.Some? ==> r == CompletionPercent(CountComplete(plan.value, RequiredFields))
  {
    match plan
    case None => 0
    case Some(p) => CompletionPercent(CountComplete(p, RequiredFields))
  }

  /** Two plans that agree on whether each of `fields` is filled in count the same. */
  lemma {:induction false} CountAgrees(p: PlanRecord, q: PlanRecord, fields: seq<string>)
    requires forall i :: 0 <= i < |fields| ==> (FieldComplete(p, fields[i]) <==> FieldComplete(q, fields[i]))
    ensures CountComplete(p, fields) == CountComplete(q, fields)
  {
    if |fields| > 0 {
      CountAgrees(p, q, fields[..|fields| - 1]);
    }
  }

  /** Only the seven required fields matter: any other key may hold anything. */
  lemma OnlyRequiredFieldsMatter(p: PlanRecord, q: PlanRecord)
    requires forall f :: f in RequiredFields ==> (f in p <==> f in q) && (f in p ==> p[f] == q[f])
    ensures AccountPlanCompleteness(Some(p)) == AccountPlanCompleteness(Some(q))
  {
    CountAgrees(p, q, RequiredFields);
  }

  /** Filling one field with a counting value never lowers the count. */
  lemma {:induction false} CountFillMonotone(p: PlanRecord, field: string, v: FieldValue, fields: seq<string>)
    requires FieldComplete(p[field := v], field)
    ensures CountComplete(p[field := v], fields) >= CountComplete(p, fields)
  {
    if |fields| > 0 {
      CountFillMonotone(p, field, v, fields[..|fields| - 1]);
    }
  }

  /** Filling in an empty field never lowers the completeness. */
  lemma FillingNeverLowers(p: PlanRecord, field: string, v: FieldValue)
    requires FieldComplete(p[field := v], field)
    ensures AccountPlanCompleteness(Some(p[field := v])) >= AccountPlanCompleteness(Some(p))
  {
    CountFillMonotone(p, field, v, RequiredFields);
    RoundMonotone(CountComplete(p, RequiredFields) as real / 7.0 * 100.0,
                  CountComplete(p[field := v], RequiredFields) as real / 7.0 * 100.0);
  }

  /** The plan of the unit test (six strings or dates filled in, next QBR null) scores 86. */
  lemma SixOfSevenExample()
    ensures AccountPlanCompleteness(Some(map["businessGoals" := Str("goal"), "successMetrics" := Str("metric"),
      "stakeholderMap" := Str("stakeholder"), "riskLog" := Str("risk"), "expansionHypothesis" := Str("expand"),
      "execAlignmentDate" := Str("2026-04-02"), "nextQbrDate" := Absent])) == 86
  {
    var p := map["businessGoals" := Str("goal"), "successMetrics" := Str("metric"),
      "stakeholderMap" := Str("stakeholder"), "riskLog" := Str("risk"), "expansionHypothesis" := Str("expand"),
      "execAlignmentDate" := Str("2026-04-02"), "nextQbrDate" := Absent];
    StrCounts(p, RequiredFields[0], "goal");
    StrCounts(p, RequiredFields[1], "metric");
    StrCounts(p, RequiredFields[2], "stakeholder");
    StrCounts(p, RequiredFields[3], "risk");
    StrCounts(p, RequiredFields[4], "expand");
    StrCounts(p, RequiredFields[5], "2026-04-02");
    assert p[RequiredFields[6]] == Absent;
    CountAllButLast(p);
    CompletionPercentTable();
  }

  lemma StrCounts(p: PlanRecord, field: string, s: string)
    requires field in p && p[field] == Str(s)
    requires |s| > 0 && !IsWhitespace(s[0])
    ensures FieldComplete(p, field)
  {
    FieldCompleteIff(p, field);
  }

  lemma CountAllButLast(p: PlanRecord)
    requires forall i :: 0 <= i < 6 ==> FieldComplete(p, RequiredFields[i])
    requires !FieldComplete(p, RequiredFields[6])
    ensures CountComplete(p, RequiredFields) == 6
  {
    var f := RequiredFields;
    assert f[..6][..5] == f[..5] && f[..5][..4] == f[..4] && f[..4][..3] == f[..3];
    assert f[..3][..2] == f[..2] && f[..2][..1] == f[..1] && f[..1][..0] == [];
    assert f[..7] == f;
    assert CountComplete(p, f[..1]) == 1;
    assert CountComplete(p, f[..2]) == 2;
    assert CountComplete(p, f[..3]) == 3;
    assert CountComplete(p, f[..4]) == 4;
    assert CountComplete(p, f[..5]) == 5;
    assert CountComplete(p, f[..6]) == 6;
  }

  /** The score is 100 exactly when all seven fields are filled in, and 0 exactly when none is. */
  lemma FullAndEmpty(p: PlanRecord)
    ensures AccountPlanCompleteness(Some(p)) == 100 <==> forall i :: 0 <= i < 7 ==> FieldComplete(p, RequiredFields[i])
    ensures AccountPlanCompleteness(Some(p)) == 0 <==> forall i :: 0 <= i < 7 ==> !FieldComplete(p, RequiredFields[i])
  {
    CountExtremes(p, RequiredFields);
  }

  lemma {:induction false} CountExtremes(p: PlanRecord, fields: seq<string>)
    ensures CountComplete(p, fields) == |fields| <==> forall i :: 0 <= i < |fields| ==> FieldComplete(p, fields[i])
    ensures CountComplete(p, fields) == 0 <==> forall i :: 0 <= i < |fields| ==> !FieldComplete(p, fields[i])
  {
    if |fields| > 0 {
      var init := fields[..|fields| - 1];
      CountExtremes(p, init);
      assert forall i :: 0 <= i < |init| ==> init[i] == fields[i];
    }
  }
}
