/** Ranking of manager action candidates (lib/metrics/manager-actions.ts):
    the candidates are sorted in place by impact plus urgency, highest first
    (a stable sort), the first six become actions due on consecutive days
    after today, with an impact level from the total and a status from the
    blocked flag and the position. Dates are day numbers; "today" is an input. */
module ManagerActions {
  import opened StableSort

  datatype Level = Low | Medium | High

  datatype ActionStatus = New | InProgress | Blocked

  datatype ActionCandidate = ActionCandidate(
    id: string,
    title: string,
    owner: string,
    impactScore: int,
    urgencyScore: int,
    blocked: bool)

  datatype ManagerAction = ManagerAction(
    id: string,
    title: string,
    owner: string,
    dueDay: int,
    impact: Level,
    status: ActionStatus)

  /** At most this many actions are returned. */
  const MaxActions: nat := 6

  /** The sort key: impact plus urgency. */
  function Total(c: ActionCandidate): int
  {
    c.impactScore + c.urgencyScore
  }

  function LevelRank(l: Level): int
  {
    match l
    case Low => 0
    case Medium => 1
    case High => 2
  }

  /** The impact level of a total: high from 15, medium from 10. */
  function ImpactOf(total: int): (r: Level)
    ensures r == High <==> total >= 15
    ensures r == Medium <==> 10 <= total < 15
    ensures r == Low <==> total < 10
  {
    if total >= 15 then High else if total >= 10 then Medium else Low
  }

  /** A larger total never gets a lower impact level. */
  lemma ImpactMonotone(a: int, b: int)
    requires a <= b
    ensures LevelRank(ImpactOf(a)) <= LevelRank(ImpactOf(b))
  {
  }

  /** Blocked candidates are blocked; otherwise the first three are new and the rest in progress. */
  function StatusAt(blocked: bool, idx: nat): (r: ActionStatus)
    ensures r == Blocked <==> blocked
    ensures r == New <==> !blocked && idx < 3
    ensures r == InProgress <==> !blocked && idx >= 3
  {
    if blocked then Blocked else if idx < 3 then New else InProgress
  }

  /** The action made of the candidate at position `idx` of the ranking. */
  function ToAction(c: ActionCandidate, idx: nat, today: int): ManagerAction
  {
    ManagerAction(c.id, c.title, c.owner, today + idx + 1, ImpactOf(Total(c)), StatusAt(c.blocked, idx))
  }

  function Min(a: int, b: int): int
  {
    if a < b then a else b
  }

  /** The actions of an already ranked list: its first six, in order. */
  function ActionsOf(ranked: seq<ActionCandidate>, today: int): seq<ManagerAction>
  {
    var top := ranked[..Min(MaxActions, |ranked|)];
    seq(|top|, idx requires 0 <= idx < |top| => ToAction(top[idx], idx, today))
  }

  /** The result of ranking `candidates` on day `today`. */
  function Rank(candidates: seq<ActionCandidate>, today: int): seq<ManagerAction>
  {
    ActionsOf(SortDesc(candidates, Total), today)
  }

  /** rankManagerActions: sorts the caller's array in place, then maps the first six. */
  method RankManagerActions(candidates: array<ActionCandidate>, today: int) returns (actions: seq<ManagerAction>)
    modifies candidates
    ensures candidates[..] == SortDesc(old(candidates[..]), Total)
    ensures actions == Rank(old(candidates[..]), today)
  {
    SortInPlace(candidates, Total);
    var top := candidates[..Min(MaxActions, candidates.Length)];
    actions := seq(|top|, idx requires 0 <= idx < |top| => ToAction(top[idx], idx, today));
  }

  /** The ranking: at most six actions, one per candidate of the descending stable order, which is
      a permutation of the input; every candidate left out has a total no larger than any chosen one;
      identity fields are copied; due days run today+1, today+2, ...; impact and status follow the
      total, the blocked flag and the position. */
  lemma RankSpec(candidates: seq<ActionCandidate>, today: int)
    ensures var sorted := SortDesc(candidates, Total);
      && multiset(sorted) == multiset(candidates)
      && |Rank(candidates, today)| == Min(MaxActions, |candidates|)
      && (forall i :: 0 <= i < |Rank(candidates, today)| ==>
            var a := Rank(candidates, today)[i];
            && a.id == sorted[i].id && a.title == sorted[i].title && a.owner == sorted[i].owner
            && a.dueDay == today + i + 1
            && a.impact == ImpactOf(Total(sorted[i]))
            && (a.status == Blocked <==> sorted[i].blocked)
            && (a.status == New <==> !sorted[i].blocked && i < 3))
      && (forall i, j :: 0 <= i < |Rank(candidates, today)| <= j < |sorted| ==> Total(sorted[i]) >= Total(sorted[j]))
  {
    SortDescPermutes(candidates, Total);
    SortDescSorted(candidates, Total);
  }

  /** Impact levels never rise and due days strictly increase along the ranking. */
  lemma RankOrdered(candidates: seq<ActionCandidate>, today: int, i: nat, j: nat)
    requires i < j < |Rank(candidates, today)|
    ensures LevelRank(Rank(candidates, today)[i].impact) >= LevelRank(Rank(candidates, today)[j].impact)
    ensures Rank(candidates, today)[i].dueDay < Rank(candidates, today)[j].dueDay
  {
    var sorted := SortDesc(candidates, Total);
    SortDescPermutes(candidates, Total);
    SortDescSorted(candidates, Total);
    ImpactMonotone(Total(sorted[j]), Total(sorted[i]));
  }
}
