/** A stable sort in descending order of an integer key. JavaScript's
    Array.prototype.sort is stable, and every sort in the dashboard compares
    by one numeric key, so the three sorts of the model are this one:
    `SortDesc` is its definition as a function (insertion from the back, as an
    insertion sort does it), `SortInPlace` the in-place algorithm on an array. */
module StableSort {

  /** Keys never increase from left to right. */
  ghost predicate SortedDesc<T>(s: seq<T>, key: T -> int)
  {
    forall i, j :: 0 <= i < j < |s| ==> key(s[i]) >= key(s[j])
  }

  /** The elements of `s` whose key is `k`, in their order in `s`. */
  function WithKey<T>(s: seq<T>, key: T -> int, k: int): seq<T>
  {
    if |s| == 0 then []
    else WithKey(s[..|s| - 1], key, k) + (if key(s[|s| - 1]) == k then [s[|s| - 1]] else [])
  }

  /** Insert `x` into `s` behind every element whose key is at least x's. */
  function InsertBack<T>(s: seq<T>, x: T, key: T -> int): seq<T>
  {
    if |s| == 0 || key(s[|s| - 1]) >= key(x) then s + [x]
    else InsertBack(s[..|s| - 1], x, key) + [s[|s| - 1]]
  }

  /** Stable insertion sort, descending by `key`. */
  function SortDesc<T>(s: seq<T>, key: T -> int): seq<T>
  {
    if |s| == 0 then [] else InsertBack(SortDesc(s[..|s| - 1], key), s[|s| - 1], key)
  }

  lemma {:induction false} InsertBackPermutes<T>(s: seq<T>, x: T, key: T -> int)
    ensures |InsertBack(s, x, key)| == |s| + 1
    ensures multiset(InsertBack(s, x, key)) == multiset(s) + multiset{x}
  {
    if |s| > 0 && key(s[|s| - 1]) < key(x) {
      var init := s[..|s| - 1];
      InsertBackPermutes(init, x, key);
      assert s == init + [s[|s| - 1]];
    }
  }

  /** The sorted sequence is a permutation of the input. */
  lemma {:induction false} SortDescPermutes<T>(s: seq<T>, key: T -> int)
    ensures |SortDesc(s, key)| == |s|
    ensures multiset(SortDesc(s, key)) == multiset(s)
  {
    if |s| > 0 {
      var init := s[..|s| - 1];
      SortDescPermutes(init, key);
      InsertBackPermutes(SortDesc(init, key), s[|s| - 1], key);
      assert s == init + [s[|s| - 1]];
    }
  }

  lemma {:induction false} InsertBackSorted<T>(s: seq<T>, x: T, key: T -> int)
    requires SortedDesc(s, key)
    ensures SortedDesc(InsertBack(s, x, key), key)
  {
    if |s| > 0 && key(s[|s| - 1]) < key(x) {
      var init := s[..|s| - 1];
      var last := s[|s| - 1];
      var r := InsertBack(init, x, key);
      InsertBackSorted(init, x, key);
      InsertBackPermutes(init, x, key);
      forall i | 0 <= i < |r|
        ensures key(r[i]) >= key(last)
      {
        assert r[i] in multiset(r);
        assert r[i] in multiset(init) || r[i] == x;
        if r[i] != x {
          var j :| 0 <= j < |init| && init[j] == r[i];
          assert key(s[j]) >= key(s[|s| - 1]);
        }
      }
    }
  }

  /** The sorted sequence is in descending key order. */
  lemma {:induction false} SortDescSorted<T>(s: seq<T>, key: T -> int)
    ensures SortedDesc(SortDesc(s, key), key)
  {
    if |s| > 0 {
      SortDescSorted(s[..|s| - 1], key);
      InsertBackSorted(SortDesc(s[..|s| - 1], key), s[|s| - 1], key);
    }
  }

  lemma {:induction false} WithKeyAppend<T>(a: seq<T>, b: seq<T>, key: T -> int, k: int)
    ensures WithKey(a + b, key, k) == WithKey(a, key, k) + WithKey(b, key, k)
    decreases |b|
  {
    if |b| == 0 {
      assert a + b == a;
    } else {
      assert (a + b)[..|a + b| - 1] == a + b[..|b| - 1];
      WithKeyAppend(a, b[..|b| - 1], key, k);
    }
  }

  lemma {:induction false} InsertBackStable<T>(s: seq<T>, x: T, key: T -> int, k: int)
    ensures WithKey(InsertBack(s, x, key), key, k)
         == WithKey(s, key, k) + (if key(x) == k then [x] else [])
  {
    if |s| == 0 || key(s[|s| - 1]) >= key(x) {
      WithKeyAppend(s, [x], key, k);
      assert WithKey([x], key, k) == WithKey([], key, k) + (if key(x) == k then [x] else []);
    } else {
      var init := s[..|s| - 1];
      var last := s[|s| - 1];
      InsertBackStable(init, x, key, k);
      WithKeyAppend(InsertBack(init, x, key), [last], key, k);
      assert WithKey([last], key, k) == WithKey([], key, k) + (if key(last) == k then [last] else []);
    }
  }

  /** Stability: the elements sharing a key keep their input order. */
  lemma {:induction false} SortDescStable<T>(s: seq<T>, key: T -> int, k: int)
    ensures WithKey(SortDesc(s, key), key, k) == WithKey(s, key, k)
  {
    if |s| > 0 {
      SortDescStable(s[..|s| - 1], key, k);
      InsertBackStable(SortDesc(s[..|s| - 1], key), s[|s| - 1], key, k);
    }
  }

  /** Insertion sort on the array itself, stable and descending by `key`. */
  method SortInPlace<T>(a: array<T>, key: T -> int)
    modifies a
    ensures a[..] == SortDesc(old(a[..]), key)
  {
    ghost var input := a[..];
    var i := 0;
    while i < a.Length
      invariant 0 <= i <= a.Length
      invariant a[..i] == SortDesc(input[..i], key)
      invariant a[i..] == input[i..]
    {
      assert input[..i + 1][..i] == input[..i];
      InsertLast(a, i, key);
      i := i + 1;
    }
    assert input[..a.Length] == input;
  }

  /** One step of the insertion sort: a[i] moves left past every element of the
      sorted prefix a[..i] whose key is smaller than its own. */
  method InsertLast<T>(a: array<T>, i: nat, key: T -> int)
    requires i < a.Length
    modifies a
    ensures a[..i + 1] == InsertBack(old(a[..i]), old(a[i]), key)
    ensures a[i + 1..] == old(a[i + 1..])
  {
    ghost var done := a[..i];
    ghost var rest := a[i + 1..];
    var x := a[i];
    var j := i;
    assert done[..j] == done && done[j..] == [];
    assert a[..] == done[..j] + [a[j]] + done[j..] + rest;
    while j > 0 && key(a[j - 1]) < key(x)
      invariant 0 <= j <= i
      invariant a[..] == done[..j] + [a[j]] + done[j..] + rest
      invariant InsertBack(done, x, key) == InsertBack(done[..j], x, key) + done[j..]
    {
      InsertBackStep(done, x, key, j);
      ShiftStep(done, rest, j, a[j]);
      a[j] := a[j - 1];
      j := j - 1;
    }
    InsertBackStop(done, x, key, j);
    PlaceStep(done, rest, j, a[j], x);
    a[j] := x;
  }

  /** The array during insertion: copying the element before the hole into the hole moves the hole
      one place to the left. */
  lemma ShiftStep<T>(done: seq<T>, rest: seq<T>, j: nat, w: T)
    requires 0 < j <= |done|
    ensures (done[..j] + [w] + done[j..] + rest)[j := done[j - 1]]
            == done[..j - 1] + [done[j - 1]] + done[j - 1..] + rest
  {
    assert done[..j] == done[..j - 1] + [done[j - 1]];
    assert done[j - 1..] == [done[j - 1]] + done[j..];
  }

  /** Filling the hole with `x` gives the inserted prefix followed by the untouched rest. */
  lemma PlaceStep<T>(done: seq<T>, rest: seq<T>, j: nat, w: T, x: T)
    requires j <= |done|
    ensures var b := (done[..j] + [w] + done[j..] + rest)[j := x];
      b[..|done| + 1] == done[..j] + [x] + done[j..] && b[|done| + 1..] == rest
  {
  }

  /** Moving past an element with a smaller key: that element joins the part behind `x`. */
  lemma InsertBackStep<T>(done: seq<T>, x: T, key: T -> int, j: nat)
    requires 0 < j <= |done| && key(done[j - 1]) < key(x)
    ensures InsertBack(done[..j], x, key) + done[j..] == InsertBack(done[..j - 1], x, key) + done[j - 1..]
  {
    assert done[..j][..j - 1] == done[..j - 1];
    assert done[j - 1..] == [done[j - 1]] + done[j..];
  }

  /** Insertion stops at the front or behind an element whose key is at least x's. */
  lemma InsertBackStop<T>(done: seq<T>, x: T, key: T -> int, j: nat)
    requires j <= |done| && (j == 0 || key(done[j - 1]) >= key(x))
    ensures InsertBack(done[..j], x, key) == done[..j] + [x]
  {
  }
}
