/** The stakeholder matrix of an account (components/accounts/stakeholder-matrix.tsx):
    an influence score per role from keywords in the role's title, the
    stakeholders in descending order of that score (a stable sort of a copy),
    and the average score. */
module StakeholderMatrix {
  import opened Numbers
  import opened Text
  import opened StableSort

  datatype Stakeholder = Stakeholder(id: string, name: string, role: string, seniority: string)

  /** roleScore: the first keyword found in the lower-cased role decides; no keyword scores 2. */
  function RoleScore(role: string): (r: int)
    ensures 2 <= r <= 5
    ensures r == 5 <==> Contains(ToLower(role), "economic")
    ensures r == 4 <==> !Contains(ToLower(role), "economic")
                        && (Contains(ToLower(role), "finance") || Contains(ToLower(role), "procurement"))
    ensures r == 3 <==> !Contains(ToLower(role), "economic") && !Contains(ToLower(role), "finance")
                        && !Contains(ToLower(role), "procurement")
                        && (Contains(ToLower(role), "product") || Contains(ToLower(role), "technical"))
    ensures r == 2 <==> !Contains(ToLower(role), "economic") && !Contains(ToLower(role), "finance")
                        && !Contains(ToLower(role), "procurement") && !Contains(ToLower(role), "product")
                        && !Contains(ToLower(role), "technical")
  {
    var lower := ToLower(role);
    if Contains(lower, "economic") then 5
    else if Contains(lower, "finance") then 4
    else if Contains(lower, "procurement") then 4
    else if Contains(lower, "product") then 3
    else if Contains(lower, "technical") then 3
    else 2
  }

  /** The keyword test ignores case: a role and its lower-cased form score alike. */
  lemma RoleScoreIgnoresCase(role: string)
    ensures RoleScore(ToLower(role)) == RoleScore(role)
  {
    assert ToLower(ToLower(role)) == ToLower(role);
  }

  /** An economic buyer scores 5 whatever else its title names. */
  lemma EconomicWins()
    ensures RoleScore("Economic Buyer") == 5
    ensures RoleScore("Economic buyer, Finance") == 5
  {
    assert ToLower("Economic Buyer")[..8] == "economic";
    assert ToLower("Economic buyer, Finance")[..8] == "economic";
  }

  function Influence(s: Stakeholder): int
  {
    RoleScore(s.role)
  }

  /** The matrix order: a copy of the stakeholders, stably sorted by descending role score. */
  function Sorted(stakeholders: seq<Stakeholder>): seq<Stakeholder>
  {
    SortDesc(stakeholders, Influence)
  }

  /** The order holds the same stakeholders, never puts a lower score before a higher one, and keeps
      the incoming order among equal scores. */
  lemma SortedSpec(stakeholders: seq<Stakeholder>)
    ensures multiset(Sorted(stakeholders)) == multiset(stakeholders)
    ensures forall i, j :: 0 <= i < j < |Sorted(stakeholders)| ==>
      RoleScore(Sorted(stakeholders)[i].role) >= RoleScore(Sorted(stakeholders)[j].role)
    ensures forall k :: WithKey(Sorted(stakeholders), Influence, k) == WithKey(stakeholders, Influence, k)
  {
    SortDescPermutes(stakeholders, Influence);
    SortDescSorted(stakeholders, Influence);
    forall k
      ensures WithKey(Sorted(stakeholders), Influence, k) == WithKey(stakeholders, Influence, k)
    {
      SortDescStable(stakeholders, Influence, k);
    }
  }

  function Scores(stakeholders: seq<Stakeholder>): (r: seq<real>)
    ensures |r| == |stakeholders|
    ensures forall i :: 0 <= i < |r| ==> r[i] == RoleScore(stakeholders[i].role) as real
  {
    seq(|stakeholders|, i requires 0 <= i < |stakeholders| => RoleScore(stakeholders[i].role) as real)
  }

  /** avgInfluence: the mean role score of the sorted list, 0 without stakeholders. */
  function AvgInfluence(stakeholders: seq<Stakeholder>): real
  {
    var sorted := Sorted(stakeholders);
    if |sorted| > 0 then Sum(Scores(sorted)) / |sorted| as real else 0.0
  }

  /** The average is 0 exactly when there are no stakeholders, and otherwise lies in [2, 5]. */
  lemma AvgInfluenceBounds(stakeholders: seq<Stakeholder>)
    ensures |stakeholders| == 0 ==> AvgInfluence(stakeholders) == 0.0
    ensures |stakeholders| > 0 ==> 2.0 <= AvgInfluence(stakeholders) <= 5.0
  {
    SortDescPermutes(stakeholders, Influence);
    if |stakeholders| > 0 {
      MeanBounds(Scores(Sorted(stakeholders)), 2.0, 5.0);
    }
  }
}
