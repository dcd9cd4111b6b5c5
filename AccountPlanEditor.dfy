/** The account-plan editor's own completeness score
    (components/account-plan-editor.tsx): five text fields and two optional
    dates, where a null date reads as the empty string, scored like
    accountPlanCompleteness. */
module AccountPlanEditor {
  import opened Numbers
  import opened Text
  import opened Options
  import AccountPlan

  datatype EditorPlan = EditorPlan(
    businessGoals: string,
    successMetrics: string,
    stakeholderMap: string,
    riskLog: string,
    expansionHypothesis: string,
    execAlignmentDate: Option<string>,
    nextQbrDate: Option<string>)

  /** The plan the editor starts from when there is none: every field empty. */
  const DefaultPlan: EditorPlan := EditorPlan("", "", "", "", "", None, None)

  /** `value ?? ""` */
  function OrEmpty(value: Option<string>): string
  {
    if value.Some? then value.value else ""
  }

  /** The seven field strings, in the editor's order. */
  function Fields(plan: EditorPlan): (fields: seq<string>)
    ensures |fields| == 7
  {
    [plan.businessGoals, plan.successMetrics, plan.stakeholderMap, plan.riskLog,
     plan.expansionHypothesis, OrEmpty(plan.execAlignmentDate), OrEmpty(plan.nextQbrDate)]
  }

  /** `s.trim().length > 0` */
  predicate Filled(s: string)
  {
    |Trim(s)| > 0
  }

  /** The number of strings whose trimmed form is non-empty. */
  function CountNonBlank(fields: seq<string>): (n: nat)
    ensures n <= |fields|
  {
    if |fields| == 0 then 0
    else CountNonBlank(fields[..|fields| - 1]) + (if Filled(fields[|fields| - 1]) then 1 else 0)
  }

  /** completenessScore: the rounded percentage of non-blank fields. */
  function CompletenessScore(plan: EditorPlan): (r: int)
    ensures 0 <= r <= 100
    ensures r as real - 0.5 <= CountNonBlank(Fields(plan)) as real / 7.0 * 100.0 < r as real + 0.5
  {
    PercentNonBlank(Fields(plan))
  }

  /** Math.round(complete / fields.length * 100) over the seven field strings. */
  function PercentNonBlank(fields: seq<string>): (r: int)
    requires |fields| == 7
    ensures 0 <= r <= 100
    ensures r as real - 0.5 <= CountNonBlank(fields) as real / 7.0 * 100.0 < r as real + 0.5
  {
    AccountPlan.CompletionPercent(CountNonBlank(fields))
  }

  /** The editor's view of its plan as the record accountPlanCompleteness reads: text as strings,
      a null date as null. */
  function AsPlanRecord(plan: EditorPlan): AccountPlan.PlanRecord
  {
    map[
      "businessGoals" := AccountPlan.Str(plan.businessGoals),
      "successMetrics" := AccountPlan.Str(plan.successMetrics),
      "stakeholderMap" := AccountPlan.Str(plan.stakeholderMap),
      "riskLog" := AccountPlan.Str(plan.riskLog),
      "expansionHypothesis" := AccountPlan.Str(plan.expansionHypothesis),
      "execAlignmentDate" := AsValue(plan.execAlignmentDate),
      "nextQbrDate" := AsValue(plan.nextQbrDate)]
  }

  function AsValue(date: Option<string>): AccountPlan.FieldValue
  {
    if date.Some? then AccountPlan.Str(date.value) else AccountPlan.Absent
  }

  /** Field by field, the editor counts a field exactly when accountPlanCompleteness does. */
  lemma FieldAgrees(plan: EditorPlan, i: nat)
    requires i < 7
    ensures Filled(Fields(plan)[i]) <==> AccountPlan.FieldComplete(AsPlanRecord(plan), AccountPlan.RequiredFields[i])
  {
    var rec := AsPlanRecord(plan);
    var f := AccountPlan.RequiredFields;
    assert rec[f[0]] == AccountPlan.Str(plan.businessGoals);
    assert rec[f[1]] == AccountPlan.Str(plan.successMetrics);
    assert rec[f[2]] == AccountPlan.Str(plan.stakeholderMap);
    assert rec[f[3]] == AccountPlan.Str(plan.riskLog);
    assert rec[f[4]] == AccountPlan.Str(plan.expansionHypothesis);
    assert rec[f[5]] == AsValue(plan.execAlignmentDate);
    assert rec[f[6]] == AsValue(plan.nextQbrDate);
  }

  /** Two counts over lists that agree position by position are equal. */
  lemma {:induction false} CountsAgree(fields: seq<string>, rec: AccountPlan.PlanRecord, names: seq<string>)
    requires |fields| == |names|
    requires forall i :: 0 <= i < |fields| ==> (Filled(fields[i]) <==> AccountPlan.FieldComplete(rec, names[i]))
    ensures CountNonBlank(fields) == AccountPlan.CountComplete(rec, names)
  {
    if |fields| > 0 {
      CountsAgree(fields[..|fields| - 1], rec, names[..|names| - 1]);
    }
  }

  /** On plans of strings and null dates the editor agrees with accountPlanCompleteness. */
  lemma AgreesWithAccountPlan(plan: EditorPlan)
    ensures CompletenessScore(plan) == AccountPlan.AccountPlanCompleteness(Some(AsPlanRecord(plan)))
  {
    forall i | 0 <= i < 7
      ensures Filled(Fields(plan)[i]) <==> AccountPlan.FieldComplete(AsPlanRecord(plan), AccountPlan.RequiredFields[i])
    {
      FieldAgrees(plan, i);
    }
    CountsAgree(Fields(plan), AsPlanRecord(plan), AccountPlan.RequiredFields);
  }

  /** A null date scores exactly like an empty date string. */
  lemma NullDateIsEmpty(plan: EditorPlan, date: Option<string>)
    requires date == None || date == Some("")
    ensures CompletenessScore(plan.(execAlignmentDate := date)) == CompletenessScore(plan.(execAlignmentDate := Some("")))
    ensures CompletenessScore(plan.(nextQbrDate := date)) == CompletenessScore(plan.(nextQbrDate := Some("")))
  {
    assert Fields(plan.(execAlignmentDate := date)) == Fields(plan.(execAlignmentDate := Some("")));
    assert Fields(plan.(nextQbrDate := date)) == Fields(plan.(nextQbrDate := Some("")));
  }

  /** No field counts exactly when every field is blank. */
  lemma {:induction false} CountNonBlankZero(fields: seq<string>)
    ensures CountNonBlank(fields) == 0 <==> forall i :: 0 <= i < |fields| ==> !Filled(fields[i])
  {
    if |fields| > 0 {
      var init := fields[..|fields| - 1];
      CountNonBlankZero(init);
      assert forall i :: 0 <= i < |init| ==> init[i] == fields[i];
    }
  }

  /** A blank field keeps the count below the number of fields. */
  lemma {:induction false} BlankFieldMissing(fields: seq<string>, i: nat)
    requires i < |fields| && !Filled(fields[i])
    ensures CountNonBlank(fields) < |fields|
  {
    var init := fields[..|fields| - 1];
    if i < |init| {
      assert init[i] == fields[i];
      BlankFieldMissing(init, i);
    }
  }

  /** With every field filled, every field counts. */
  lemma {:induction false} AllFilledCount(fields: seq<string>)
    requires forall i :: 0 <= i < |fields| ==> Filled(fields[i])
    ensures CountNonBlank(fields) == |fields|
  {
    if |fields| > 0 {
      var init := fields[..|fields| - 1];
      assert forall i :: 0 <= i < |init| ==> init[i] == fields[i];
      AllFilledCount(init);
    }
  }

  /** Every field counts exactly when every field has a non-whitespace character. */
  lemma CountNonBlankFull(fields: seq<string>)
    ensures CountNonBlank(fields) == |fields| <==> forall i :: 0 <= i < |fields| ==> Filled(fields[i])
  {
    if forall i :: 0 <= i < |fields| ==> Filled(fields[i]) {
      AllFilledCount(fields);
    } else {
      var i :| 0 <= i < |fields| && !Filled(fields[i]);
      BlankFieldMissing(fields, i);
    }
  }

  /** The score is 0 exactly when every field is blank or a null date, and 100 exactly when every
      field has content. */
  lemma ScoreExtremes(plan: EditorPlan)
    ensures CompletenessScore(plan) == 0 <==> forall i :: 0 <= i < 7 ==> !HasContent(Fields(plan)[i])
    ensures CompletenessScore(plan) == 100 <==> forall i :: 0 <= i < 7 ==> HasContent(Fields(plan)[i])
  {
    var fields := Fields(plan);
    forall i | 0 <= i < 7
      ensures Filled(fields[i]) <==> HasContent(fields[i])
    {
      TrimNonEmptyIff(fields[i]);
    }
    CountNonBlankZero(fields);
    CountNonBlankFull(fields);
    assert CompletenessScore(plan) == AccountPlan.CompletionPercent(CountNonBlank(fields));
  }

  /** The editor's default plan scores 0. */
  lemma DefaultPlanScoresZero()
    ensures CompletenessScore(DefaultPlan) == 0
  {
    var fields := Fields(DefaultPlan);
    assert forall i :: 0 <= i < 7 ==> fields[i] == "";
    CountNonBlankZero(fields);
    assert CompletenessScore(DefaultPlan) == AccountPlan.CompletionPercent(CountNonBlank(fields));
  }
}
