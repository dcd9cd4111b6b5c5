/** The manager-actions panel (components/manager-actions-panel.tsx): a map
    from action id to status, seeded from the incoming actions, that each click
    advances through new, in progress and blocked; and the display order, a
    stable sort of a copy of the actions that puts blocked actions first, then
    new ones, then the rest. */
module ActionsPanel {
  import opened Options
  import opened StableSort
  import MA = ManagerActions

  /** Record lookup: the status of `id`, if the map has one. */
  function Lookup(m: map<string, MA.ActionStatus>, id: string): (r: Option<MA.ActionStatus>)
    ensures r.Some? <==> id in m
    ensures r.Some? ==> r.value == m[id]
  {
    if id in m then Some(m[id]) else None
  }

  /** The click transition: new to in progress, in progress to blocked, anything else to new. */
  function NextStatus(now: Option<MA.ActionStatus>): MA.ActionStatus
  {
    if now == Some(MA.New) then MA.InProgress
    else if now == Some(MA.InProgress) then MA.Blocked
    else MA.New
  }

  /** Three clicks bring every status back to where it started. */
  lemma NextStatusCycle(s: MA.ActionStatus)
    ensures NextStatus(Some(NextStatus(Some(NextStatus(Some(s)))))) == s
    ensures NextStatus(Some(s)) != s
  {
  }

  /** The map after one click on `id`. */
  function Cycled(m: map<string, MA.ActionStatus>, id: string): (r: map<string, MA.ActionStatus>)
    ensures r.Keys == m.Keys + {id}
  {
    m[id := NextStatus(Lookup(m, id))]
  }

  /** A click changes the clicked id and no other; an id without a status becomes new. */
  lemma CycledEffect(m: map<string, MA.ActionStatus>, id: string, other: string)
    ensures Lookup(Cycled(m, id), id) == Some(NextStatus(Lookup(m, id)))
    ensures Lookup(Cycled(m, id), id) != Lookup(m, id)
    ensures id !in m ==> Cycled(m, id)[id] == MA.New
    ensures other != id ==> Lookup(Cycled(m, id), other) == Lookup(m, other)
  {
  }

  /** Three clicks on the same id restore the whole map, as long as the id had a status. */
  lemma CycledThrice(m: map<string, MA.ActionStatus>, id: string)
    requires id in m
    ensures Cycled(Cycled(Cycled(m, id), id), id) == m
  {
    NextStatusCycle(m[id]);
  }

  /** The reduce that seeds the map: each action writes its status under its id, so for a repeated
      id the last action wins. */
  function StatusMapOf(actions: seq<MA.ManagerAction>): map<string, MA.ActionStatus>
  {
    if |actions| == 0 then map[]
    else StatusMapOf(actions[..|actions| - 1])[actions[|actions| - 1].id := actions[|actions| - 1].status]
  }

  /** The seeded map has exactly the actions' ids. */
  lemma {:induction false} StatusMapOfKeys(actions: seq<MA.ManagerAction>)
    ensures StatusMapOf(actions).Keys == set i | 0 <= i < |actions| :: actions[i].id
  {
    if |actions| > 0 {
      var init := actions[..|actions| - 1];
      StatusMapOfKeys(init);
      assert forall i :: 0 <= i < |init| ==> init[i] == actions[i];
      assert (set i | 0 <= i < |actions| :: actions[i].id) == (set i | 0 <= i < |init| :: init[i].id) + {actions[|actions| - 1].id};
    }
  }

  /** Each id gets the status of the last action carrying it; with distinct ids, every action its own. */
  lemma {:induction false} StatusMapOfLastWins(actions: seq<MA.ManagerAction>, i: nat)
    requires i < |actions|
    requires forall j :: i < j < |actions| ==> actions[j].id != actions[i].id
    ensures actions[i].id in StatusMapOf(actions)
    ensures StatusMapOf(actions)[actions[i].id] == actions[i].status
  {
    if i < |actions| - 1 {
      var init := actions[..|actions| - 1];
      assert init[i] == actions[i];
      StatusMapOfLastWins(init, i);
    }
  }

  /** The comparator of the display order, as written: 0 for equal statuses, blocked before
      anything, then new before anything. */
  function Compare(m: map<string, MA.ActionStatus>, left: MA.ManagerAction, right: MA.ManagerAction): int
  {
    var leftStatus := Lookup(m, left.id);
    var rightStatus := Lookup(m, right.id);
    if leftStatus == rightStatus then 0
    else if leftStatus == Some(MA.Blocked) then -1
    else if rightStatus == Some(MA.Blocked) then 1
    else if leftStatus == Some(MA.New) then -1
    else if rightStatus == Some(MA.New) then 1
    else 0
  }

  /** The sort key the comparator induces: blocked highest, then new, then everything else. */
  function StatusKey(m: map<string, MA.ActionStatus>, a: MA.ManagerAction): int
  {
    var status := Lookup(m, a.id);
    if status == Some(MA.Blocked) then 0 else if status == Some(MA.New) then -1 else -2
  }

  function KeyFor(m: map<string, MA.ActionStatus>): MA.ManagerAction -> int
  {
    a => StatusKey(m, a)
  }

  /** The comparator orders two actions exactly as their keys do, so a stable sort by the
      comparator is the stable descending sort by the key. */
  lemma CompareMatchesKey(m: map<string, MA.ActionStatus>, left: MA.ManagerAction, right: MA.ManagerAction)
    ensures Compare(m, left, right) < 0 <==> StatusKey(m, left) > StatusKey(m, right)
    ensures Compare(m, left, right) == 0 <==> StatusKey(m, left) == StatusKey(m, right)
    ensures Compare(m, left, right) > 0 <==> StatusKey(m, left) < StatusKey(m, right)
  {
  }

  /** The display order of `actions` under the statuses `m`. */
  function Ordered(actions: seq<MA.ManagerAction>, m: map<string, MA.ActionStatus>): seq<MA.ManagerAction>
  {
    SortDesc(actions, KeyFor(m))
  }

  /** The display order is a permutation of the actions, blocked first, then new, then the rest,
      and within one status the actions keep their incoming order. */
  lemma OrderedSpec(actions: seq<MA.ManagerAction>, m: map<string, MA.ActionStatus>)
    ensures multiset(Ordered(actions, m)) == multiset(actions)
    ensures forall i, j :: 0 <= i < j < |Ordered(actions, m)| ==>
      StatusKey(m, Ordered(actions, m)[i]) >= StatusKey(m, Ordered(actions, m)[j])
    ensures forall k :: WithKey(Ordered(actions, m), KeyFor(m), k) == WithKey(actions, KeyFor(m), k)
  {
    SortDescPermutes(actions, KeyFor(m));
    SortDescSorted(actions, KeyFor(m));
    forall k
      ensures WithKey(Ordered(actions, m), KeyFor(m), k) == WithKey(actions, KeyFor(m), k)
    {
      SortDescStable(actions, KeyFor(m), k);
    }
  }

  /** The panel's state: the incoming actions, which it never re-orders, and the status map. */
  class Panel {
    const actions: seq<MA.ManagerAction>
    var statusById: map<string, MA.ActionStatus>

    /** The initial state: the reduce over the actions, one write per action. */
    constructor (actions: seq<MA.ManagerAction>)
      ensures this.actions == actions
      ensures statusById == StatusMapOf(actions)
    {
      var acc: map<string, MA.ActionStatus> := map[];
      for i := 0 to |actions|
        invariant acc == StatusMapOf(actions[..i])
      {
        assert actions[..i + 1][..i] == actions[..i];
        acc := acc[actions[i].id := actions[i].status];
      }
      assert actions[..|actions|] == actions;
      this.actions := actions;
      statusById := acc;
    }

    /** cycleStatus: replace the map by one in which `id` has moved one step on. */
    method CycleStatus(id: string)
      modifies this
      ensures statusById == Cycled(old(statusById), id)
    {
      var now := Lookup(statusById, id);
      var next := if now == Some(MA.New) then MA.InProgress else if now == Some(MA.InProgress) then MA.Blocked else MA.New;
      statusById := statusById[id := next];
    }

    /** orderedActions: sort a fresh copy of the actions in place by the comparator's key. */
    method OrderedActions() returns (ordered: seq<MA.ManagerAction>)
      ensures ordered == Ordered(actions, statusById)
    {
      var source := actions;
      var copy := new MA.ManagerAction[|source|](i requires 0 <= i < |source| => source[i]);
      assert copy[..] == source;
      SortInPlace(copy, KeyFor(statusById));
      ordered := copy[..];
    }
  }
}
