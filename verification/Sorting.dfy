/**
The stable sort the detectors and the resampler rely on (`sorted` with a key), and binary search
for a position in a sorted list (`bisect_left`, `bisect_right`).
*/
module Sorting {

  predicate SortedBy<T>(xs: seq<T>, key: T -> real) {
    forall i, j :: 0 <= i < j < |xs| ==> key(xs[i]) <= key(xs[j])
  }

  function Inserted<T>(xs: seq<T>, x: T, key: T -> real): seq<T> {
    if xs == [] || key(xs[|xs| - 1]) <= key(x) then xs + [x]
    else
      var n := |xs| - 1;
      Inserted(xs[..n], x, key) + [xs[n]]
  }

  function Sort<T>(xs: seq<T>, key: T -> real): seq<T> {
    if xs == [] then []
    else
      var n := |xs| - 1;
      Inserted(Sort(xs[..n], key), xs[n], key)
  }

  lemma {:induction false} InsertedSorted<T>(xs: seq<T>, x: T, key: T -> real)
    requires SortedBy(xs, key)
    ensures SortedBy(Inserted(xs, x, key), key) && |Inserted(xs, x, key)| == |xs| + 1
    ensures var last := Inserted(xs, x, key)[|xs|];
            last == x || (xs != [] && last == xs[|xs| - 1])
  {
    if xs != [] && key(xs[|xs| - 1]) > key(x) {
      InsertedSorted(xs[..|xs| - 1], x, key);
    }
  }

  lemma {:induction false} InsertedKeepsAll<T>(xs: seq<T>, x: T, key: T -> real)
    ensures multiset(Inserted(xs, x, key)) == multiset(xs) + multiset{x}
  {
    if xs != [] && key(xs[|xs| - 1]) > key(x) {
      var n := |xs| - 1;
      InsertedKeepsAll(xs[..n], x, key);
      assert xs == xs[..n] + [xs[n]];
    }
  }

  /** The sort orders any list, loses and invents nothing, and leaves an ordered list as it is. */
  lemma {:induction false} SortSorts<T>(xs: seq<T>, key: T -> real)
    ensures SortedBy(Sort(xs, key), key)
    ensures multiset(Sort(xs, key)) == multiset(xs)
    ensures SortedBy(xs, key) ==> Sort(xs, key) == xs
  {
    if xs != [] {
      var n := |xs| - 1;
      assert xs == xs[..n] + [xs[n]];
      SortSorts(xs[..n], key);
      InsertedSorted(Sort(xs[..n], key), xs[n], key);
      InsertedKeepsAll(Sort(xs[..n], key), xs[n], key);
    }
  }

  // ------------------------------------------------------------------- sorting distinct keys

  predicate Ascends(keys: seq<int>) {
    forall i, j :: 0 <= i < j < |keys| ==> keys[i] < keys[j]
  }

  predicate Distinct(keys: seq<int>) {
    forall i, j :: 0 <= i < j < |keys| ==> keys[i] != keys[j]
  }

  const KEY: int -> real := (k: int) => k as real

  lemma {:induction false} DistinctCounts(keys: seq<int>)
    ensures Distinct(keys) <==> forall k :: multiset(keys)[k] <= 1
  {
    if keys != [] {
      var n := |keys| - 1;
      DistinctCounts(keys[..n]);
      assert keys == keys[..n] + [keys[n]];
      if Distinct(keys) {
        assert keys[n] !in keys[..n];
        assert multiset(keys[..n])[keys[n]] == 0;
      } else if !Distinct(keys[..n]) {
        var k :| multiset(keys[..n])[k] > 1;
        assert multiset(keys)[k] > 1;
      } else {
        assert keys[n] in keys[..n];
        assert multiset(keys)[keys[n]] > 1;
      }
    }
  }

  lemma SortedKeys(keys: seq<int>)
    requires Distinct(keys)
    ensures Ascends(Sort(keys, KEY))
    ensures forall k :: k in Sort(keys, KEY) <==> k in keys
  {
    var sorted := Sort(keys, KEY);
    SortSorts(keys, KEY);
    DistinctCounts(keys);
    DistinctCounts(sorted);
    forall i, j | 0 <= i < j < |sorted| ensures sorted[i] < sorted[j] {
      assert KEY(sorted[i]) <= KEY(sorted[j]);
    }
    forall k ensures k in sorted <==> k in keys {
      assert k in sorted <==> k in multiset(sorted);
      assert k in keys <==> k in multiset(keys);
    }
  }

  lemma FrontOfAscending(a: seq<int>)
    requires a != [] && Ascends(a)
    ensures forall k :: k in a[..|a| - 1] <==> k in a && k != a[|a| - 1]
  {
    assert a == a[..|a| - 1] + [a[|a| - 1]];
  }

  lemma NonEmptyCarries(a: seq<int>, b: seq<int>)
    requires a != [] && forall k :: k in a ==> k in b
    ensures b != []
  {
    var k := a[0];
    assert k in a;
    assert k in b;
  }

  /** An ascending list is determined by its elements. */
  lemma {:induction false} AscendingIsUnique(a: seq<int>, b: seq<int>)
    requires Ascends(a) && Ascends(b) && forall k :: k in a <==> k in b
    ensures a == b
  {
    if b != [] {
      NonEmptyCarries(b, a);
    }
    if a != [] {
      NonEmptyCarries(a, b);
      var n, m := |a| - 1, |b| - 1;
      assert a[n] in b && b[m] in a;
      assert a[n] == b[m];
      FrontOfAscending(a);
      FrontOfAscending(b);
      forall k ensures k in a[..n] <==> k in b[..m] {
        assert k in a[..n] <==> k in a && k != a[n];
        assert k in b[..m] <==> k in b && k != b[m];
      }
      AscendingIsUnique(a[..n], b[..m]);
      assert a == a[..n] + [a[n]] && b == b[..m] + [b[m]];
    }
  }

  lemma HasElement(ts: set<int>)
    requires ts != {}
    ensures exists t :: t in ts
  {
    assert (forall t :: t !in ts) ==> ts == {};
  }

  /** The greatest element of a set. */
  lemma {:induction false} GreatestExists(ts: set<int>)
    requires ts != {}
    ensures exists m :: m in ts && forall t :: t in ts ==> t <= m
    decreases |ts|
  {
    HasElement(ts);
    var t :| t in ts;
    if ts != {t} {
      assert ts - {t} != {} by {
        assert ts == (ts - {t}) + {t};
      }
      GreatestExists(ts - {t});
      var m :| m in ts - {t} && forall u :: u in ts - {t} ==> u <= m;
      var greatest := if m < t then t else m;
      assert forall u :: u in ts ==> u <= greatest;
    }
  }

  /** A set, in ascending order. */
  ghost function InOrder(ts: set<int>): (times: seq<int>)
    ensures Ascends(times) && forall t :: t in times <==> t in ts
  {
    if ts == {} then []
    else
      GreatestExists(ts);
      var m :| m in ts && forall t :: t in ts ==> t <= m;
      InOrder(ts - {m}) + [m]
  }

  /** `sorted` of a set: its elements in whatever order they come, sorted. */
  method SortedSet(ts: set<int>) returns (times: seq<int>)
    ensures times == InOrder(ts)
  {
    var todo, listed: seq<int> := ts, [];
    while todo != {}
      invariant todo <= ts
      invariant Distinct(listed)
      invariant forall t :: t in listed <==> t in ts - todo
      decreases |todo|
    {
      HasElement(todo);
      var t :| t in todo;
      assert t !in listed;
      listed := listed + [t];
      todo := todo - {t};
    }
    times := Sort(listed, KEY);
    SortedKeys(listed);
    AscendingIsUnique(times, InOrder(ts));
  }

  // ------------------------------------------------------------------------------ bisection

  predicate Ascending(xs: seq<real>) {
    forall i, j :: 0 <= i < j < |xs| ==> xs[i] <= xs[j]
  }

  /** `bisect_left`: everything before is below `x`, everything from there on is not. */
  method BisectLeft(xs: seq<real>, x: real) returns (at: nat)
    requires Ascending(xs)
    ensures at <= |xs|
    ensures forall i :: 0 <= i < |xs| ==> (i < at <==> xs[i] < x)
  {
    var lo, hi := 0, |xs|;
    while lo < hi
      invariant 0 <= lo <= hi <= |xs|
      invariant forall i :: 0 <= i < lo ==> xs[i] < x
      invariant forall i :: hi <= i < |xs| ==> xs[i] >= x
    {
      var mid := (lo + hi) / 2;
      if xs[mid] < x {
        lo := mid + 1;
      } else {
        hi := mid;
      }
    }
    at := lo;
  }

  /** `bisect_right`: everything before is at most `x`, everything from there on is above it. */
  method BisectRight(xs: seq<real>, x: real) returns (at: nat)
    requires Ascending(xs)
    ensures at <= |xs|
    ensures forall i :: 0 <= i < |xs| ==> (i < at <==> xs[i] <= x)
  {
    var lo, hi := 0, |xs|;
    while lo < hi
      invariant 0 <= lo <= hi <= |xs|
      invariant forall i :: 0 <= i < lo ==> xs[i] <= x
      invariant forall i :: hi <= i < |xs| ==> xs[i] > x
    {
      var mid := (lo + hi) / 2;
      if x < xs[mid] {
        hi := mid;
      } else {
        lo := mid + 1;
      }
    }
    at := lo;
  }
}
