/**
Correlation of return series and the netted exposure built on it (`pearson_correlation`,
`_paired_returns`, `correlated_exposure`, `signed_notionals_excluding`), with the relation
between the netted and the gross exposure limits.

The square root is a parameter; nothing is used of it but that it squares back.
*/
module Correlation {
  import opened Common
  import R = Risk
  import Sorting

  // -------------------------------------------------------------------- Cauchy-Schwarz

  function Dot(a: seq<real>, b: seq<real>): real
    requires |a| == |b|
  {
    if a == [] then 0.0 else a[0] * b[0] + Dot(a[1..], b[1..])
  }

  /** A sum of squares of t*a[i] - u*b[i], expanded, is not negative. */
  lemma {:induction false} QuadraticFormIsNonNegative(a: seq<real>, b: seq<real>, t: real, u: real)
    requires |a| == |b|
    ensures t * t * Dot(a, a) - 2.0 * t * u * Dot(a, b) + u * u * Dot(b, b) >= 0.0
  {
    if a != [] {
      QuadraticFormIsNonNegative(a[1..], b[1..], t, u);
      var x, y := a[0], b[0];
      SquareExpands(t, x, u, y);
      Distribute(t * t, x * x, Dot(a[1..], a[1..]));
      Distribute(2.0 * t * u, x * y, Dot(a[1..], b[1..]));
      Distribute(u * u, y * y, Dot(b[1..], b[1..]));
    }
  }

  lemma SquareExpands(t: real, x: real, u: real, y: real)
    ensures t * t * (x * x) - 2.0 * t * u * (x * y) + u * u * (y * y) >= 0.0
  {
    assert (t * x - u * y) * (t * x - u * y) == t * t * (x * x) - 2.0 * t * u * (x * y) + u * u * (y * y);
  }

  lemma Distribute(k: real, x: real, y: real)
    ensures k * (x + y) == k * x + k * y
  {}

  lemma {:induction false} SumOfSquares(a: seq<real>)
    ensures Dot(a, a) >= 0.0
  {
    if a != [] {
      SumOfSquares(a[1..]);
    }
  }

  lemma ProductOfPositives(x: real, y: real)
    requires x > 0.0 && y > 0.0
    ensures x * y > 0.0
  {}

  lemma SquareSign(x: real)
    ensures x * x >= 0.0
    ensures x != 0.0 ==> x * x > 0.0
  {
    if x > 0.0 {
      ProductOfPositives(x, x);
    } else if x < 0.0 {
      ProductOfPositives(-x, -x);
    }
  }

  lemma ZeroTimes(x: real, y: real)
    ensures x == 0.0 ==> x * y == 0.0
  {}

  lemma {:induction false} ZeroSquaresZeroProducts(a: seq<real>, b: seq<real>)
    requires |a| == |b| && Dot(a, a) == 0.0
    ensures Dot(a, b) == 0.0
  {
    if a != [] {
      SumOfSquares(a[1..]);
      SquareSign(a[0]);
      assert Dot(a, a) == a[0] * a[0] + Dot(a[1..], a[1..]);
      ZeroTimes(a[0], b[0]);
      ZeroSquaresZeroProducts(a[1..], b[1..]);
    }
  }

  /** The square of a sum of products is at most the product of the sums of squares. */
  lemma CauchySchwarz(a: seq<real>, b: seq<real>)
    requires |a| == |b|
    ensures Dot(a, b) * Dot(a, b) <= Dot(a, a) * Dot(b, b)
  {
    hide Dot;
    var aa, ab, bb := Dot(a, a), Dot(a, b), Dot(b, b);
    SumOfSquares(a);
    if aa == 0.0 {
      ZeroSquaresZeroProducts(a, b);
    } else {
      QuadraticFormIsNonNegative(a, b, ab, aa);
      FromQuadratic(aa, ab, bb);
    }
  }

  lemma FromQuadratic(aa: real, ab: real, bb: real)
    requires aa > 0.0
    requires ab * ab * aa - 2.0 * ab * aa * ab + aa * aa * bb >= 0.0
    ensures ab * ab <= aa * bb
  {
    assert ab * ab * aa - 2.0 * ab * aa * ab + aa * aa * bb == aa * (aa * bb - ab * ab);
  }

  // ---------------------------------------------------------------------------- Pearson

  function Mean(a: seq<real>): real
    requires a != []
  {
    Sum(a) / |a| as real
  }

  function Deviations(a: seq<real>, mean: real): (d: seq<real>)
    ensures |d| == |a|
  {
    seq(|a|, i requires 0 <= i < |a| => a[i] - mean)
  }

  /** A function that takes square roots. */
  ghost predicate SquareRoot(root: real -> real) {
    forall x :: x >= 0.0 ==> root(x) >= 0.0 && root(x) * root(x) == x
  }

  /** The sum of squared deviations from the mean. */
  function Spread(a: seq<real>): real
    requires a != []
  {
    var d := Deviations(a, Mean(a));
    Dot(d, d)
  }

  /** The sum of products of deviations. */
  function Covariation(a: seq<real>, b: seq<real>): real
    requires |a| == |b| && a != []
  {
    Dot(Deviations(a, Mean(a)), Deviations(b, Mean(b)))
  }

  lemma SpreadRoot(a: seq<real>, b: seq<real>, root: real -> real)
    requires a != [] && b != [] && SquareRoot(root)
    ensures Spread(a) >= 0.0 && Spread(b) >= 0.0
    ensures var r := root(Spread(a) * Spread(b)); r >= 0.0 && r * r == Spread(a) * Spread(b)
    ensures Spread(a) != 0.0 && Spread(b) != 0.0 ==> root(Spread(a) * Spread(b)) > 0.0
  {
    SumOfSquares(Deviations(a, Mean(a)));
    SumOfSquares(Deviations(b, Mean(b)));
    var product := Spread(a) * Spread(b);
    if Spread(a) != 0.0 && Spread(b) != 0.0 {
      ProductOfPositives(Spread(a), Spread(b));
    }
    assert root(product) >= 0.0 && root(product) * root(product) == product;
  }

  /** `pearson_correlation` of two series of one length. */
  function PearsonAligned(a: seq<real>, b: seq<real>, root: real -> real): Option<real>
    requires |a| == |b| && SquareRoot(root)
  {
    if |a| < 2 || Spread(a) == 0.0 || Spread(b) == 0.0 then None
    else
      SpreadRoot(a, b, root);
      Some(Covariation(a, b) / root(Spread(a) * Spread(b)))
  }

  /** `pearson_correlation`: series of different lengths keep their tails. */
  function Pearson(a: seq<real>, b: seq<real>, root: real -> real): Option<real>
    requires SquareRoot(root)
  {
    var n := if |a| <= |b| then |a| else |b|;
    PearsonAligned(a[|a| - n..], b[|b| - n..], root)
  }

  lemma SquareOrder(x: real, r: real)
    requires r > 0.0 && x * x <= r * r
    ensures -r <= x <= r
  {
    assert r * r - x * x == (r - x) * (r + x);
    if x > r {
      ProductOfPositives(x - r, r + x);
    } else if x < -r {
      ProductOfPositives(r - x, -r - x);
    }
  }

  /** A correlation always lies in [-1, 1], and the two series play equal parts in it. */
  lemma PearsonBounds(a: seq<real>, b: seq<real>, root: real -> real)
    requires |a| == |b| && SquareRoot(root)
    ensures PearsonAligned(a, b, root).Some? ==> -1.0 <= PearsonAligned(a, b, root).value <= 1.0
    ensures PearsonAligned(b, a, root) == PearsonAligned(a, b, root)
  {
    if PearsonAligned(a, b, root).Some? {
      var da, db := Deviations(a, Mean(a)), Deviations(b, Mean(b));
      var cov, r := Covariation(a, b), root(Spread(a) * Spread(b));
      CauchySchwarz(da, db);
      SpreadRoot(a, b, root);
      SquareOrder(cov, r);
      DivOrder(cov, r, 1.0);
      DivOrder(cov, r, -1.0);
      DotSymmetric(da, db);
      assert Spread(b) * Spread(a) == Spread(a) * Spread(b);
    }
  }

  lemma {:induction false} DotSymmetric(a: seq<real>, b: seq<real>)
    requires |a| == |b|
    ensures Dot(a, b) == Dot(b, a)
  {
    if a != [] {
      DotSymmetric(a[1..], b[1..]);
    }
  }

  // --------------------------------------------------------------------- paired returns

  /** The return over the interval that ends at bar i. */
  function ReturnAt(closes: seq<real>, i: nat): real
    requires 0 < i < |closes| && closes[i - 1] != 0.0
  {
    (closes[i] - closes[i - 1]) / closes[i - 1]
  }

  /** The intervals kept: those neither series starts at a zero close. */
  function KeptIntervals(a: seq<real>, b: seq<real>, upTo: nat): (kept: seq<nat>)
    requires |a| == |b| && upTo <= |a|
    ensures |kept| <= if upTo == 0 then 0 else upTo - 1
    ensures forall j :: 0 <= j < |kept| ==> 0 < kept[j] < upTo && a[kept[j] - 1] != 0.0 && b[kept[j] - 1] != 0.0
  {
    if upTo <= 1 then []
    else
      KeptIntervals(a, b, upTo - 1) +
      if a[upTo - 2] == 0.0 || b[upTo - 2] == 0.0 then [] else [upTo - 1]
  }

  /** The returns of one series over chosen intervals. */
  function Returns(closes: seq<real>, kept: seq<nat>): (r: seq<real>)
    requires forall j :: 0 <= j < |kept| ==> 0 < kept[j] < |closes| && closes[kept[j] - 1] != 0.0
    ensures |r| == |kept|
  {
    seq(|kept|, j requires 0 <= j < |kept| => ReturnAt(closes, kept[j]))
  }

  /** One more interval is kept unless one of the series starts it at zero. */
  lemma KeptOneMore(a: seq<real>, b: seq<real>, closes: seq<real>, i: nat)
    requires 1 <= i < |a| == |b| && (closes == a || closes == b)
    ensures Returns(closes, KeptIntervals(a, b, i + 1))
            == Returns(closes, KeptIntervals(a, b, i))
               + if a[i - 1] != 0.0 && b[i - 1] != 0.0 then [ReturnAt(closes, i)] else []
  {
    hide ReturnAt;
  }

  /** `_paired_returns` over the closes of the bars two instruments share: the two lists have
      one length, and position by position they cover the same interval of time. */
  method PairedReturns(a: seq<real>, b: seq<real>) returns (ra: seq<real>, rb: seq<real>)
    requires |a| == |b|
    ensures var kept := KeptIntervals(a, b, |a|); ra == Returns(a, kept) && rb == Returns(b, kept)
  {
    ra, rb := [], [];
    var i := 1;
    while i < |a|
      invariant 1 <= i && (i <= |a| || i == 1)
      invariant var kept := KeptIntervals(a, b, if i <= |a| then i else |a|);
                ra == Returns(a, kept) && rb == Returns(b, kept)
    {
      KeptOneMore(a, b, a, i);
      KeptOneMore(a, b, b, i);
      hide Returns, KeptIntervals, ReturnAt;
      if a[i - 1] != 0.0 && b[i - 1] != 0.0 {
        ra := ra + [ReturnAt(a, i)];
        rb := rb + [ReturnAt(b, i)];
      }
      i := i + 1;
    }
  }

  // ----------------------------------------------------------------- netted exposure

  /** An unordered pair of symbols. */
  type Matrix = map<set<string>, real>

  ghost predicate Bounded(matrix: Matrix) {
    forall pair :: pair in matrix ==> -1.0 <= matrix[pair] <= 1.0
  }

  function ClosesAt(closes: map<int, real>, shared: seq<int>): (c: seq<real>)
    requires forall i :: 0 <= i < |shared| ==> shared[i] in closes
    ensures |c| == |shared|
  {
    seq(|shared|, i requires 0 <= i < |shared| => closes[shared[i]])
  }

  /** The correlation of two instruments: that of their returns over the same intervals,
      between bars they share. */
  function PairValue(a: map<int, real>, b: map<int, real>, shared: seq<int>, root: real -> real): Option<real>
    requires SquareRoot(root)
    requires forall i :: 0 <= i < |shared| ==> shared[i] in a && shared[i] in b
  {
    var x, y := ClosesAt(a, shared), ClosesAt(b, shared);
    var kept := KeptIntervals(x, y, |x|);
    PearsonAligned(Returns(x, kept), Returns(y, kept), root)
  }

  lemma {:induction false} KeptSymmetric(a: seq<real>, b: seq<real>, upTo: nat)
    requires |a| == |b| && upTo <= |a|
    ensures KeptIntervals(a, b, upTo) == KeptIntervals(b, a, upTo)
  {
    if upTo > 1 {
      KeptSymmetric(a, b, upTo - 1);
    }
  }

  /** It lies in [-1, 1], needs three shared bars, and does not depend on which instrument
      comes first, so an unordered pair can key it. */
  lemma PairValueBounds(a: map<int, real>, b: map<int, real>, shared: seq<int>, root: real -> real)
    requires SquareRoot(root)
    requires forall i :: 0 <= i < |shared| ==> shared[i] in a && shared[i] in b
    ensures PairValue(a, b, shared, root) == PairValue(b, a, shared, root)
    ensures PairValue(a, b, shared, root).Some? ==>
              |shared| >= 3 && -1.0 <= PairValue(a, b, shared, root).value <= 1.0
  {
    var x, y := ClosesAt(a, shared), ClosesAt(b, shared);
    KeptSymmetric(x, y, |x|);
    var kept := KeptIntervals(x, y, |x|);
    PearsonBounds(Returns(x, kept), Returns(y, kept), root);
  }

  /** One entry of the matrix, from the bars two instruments share, oldest first. */
  method PairCorrelation(a: map<int, real>, b: map<int, real>, shared: seq<int>, root: real -> real)
    returns (r: Option<real>)
    requires SquareRoot(root)
    requires forall i :: 0 <= i < |shared| ==> shared[i] in a && shared[i] in b
    ensures r == PairValue(a, b, shared, root)
  {
    if |shared| < 3 {
      PairValueBounds(a, b, shared, root);
      return None;
    }
    var ra, rb := PairedReturns(ClosesAt(a, shared), ClosesAt(b, shared));
    assert ra[0..] == ra && rb[0..] == rb;
    r := Pearson(ra, rb, root);
  }

  /** The histories are a dictionary's items, so no symbol comes twice. */
  ghost predicate Distinct(closes: seq<(string, map<int, real>)>) {
    forall i, j :: 0 <= i < j < |closes| ==> closes[i].0 != closes[j].0
  }

  /** The bars two instruments share, oldest first. */
  ghost function Shared(a: map<int, real>, b: map<int, real>): (shared: seq<int>)
    ensures forall i :: 0 <= i < |shared| ==> shared[i] in a && shared[i] in b
  {
    var shared := Sorting.InOrder(a.Keys * b.Keys);
    assert forall i :: 0 <= i < |shared| ==> shared[i] in shared;
    shared
  }

  ghost predicate IsPair(closes: seq<(string, map<int, real>)>, pair: set<string>, i: nat, j: nat) {
    i < j < |closes| && pair == {closes[i].0, closes[j].0}
  }

  lemma PairIsUnique(closes: seq<(string, map<int, real>)>, pair: set<string>, i: nat, j: nat, k: nat, l: nat)
    requires Distinct(closes) && IsPair(closes, pair, i, j) && IsPair(closes, pair, k, l)
    ensures i == k && j == l
  {
    var a, b, c, d := closes[i].0, closes[j].0, closes[k].0, closes[l].0;
    assert a in pair && b in pair && c in pair && d in pair;
    assert (a == c || a == d) && (b == c || b == d) && (c == a || c == b) && (d == a || d == b);
  }

  /** The matrix says of the pair (i, j) exactly what their shared bars say: an entry if and
      only if there is a coefficient, and then that coefficient. */
  ghost predicate EntryIs(matrix: Matrix, closes: seq<(string, map<int, real>)>, i: nat, j: nat, root: real -> real)
    requires SquareRoot(root) && i < j < |closes|
  {
    var shared := Shared(closes[i].1, closes[j].1);
    var value := PairValue(closes[i].1, closes[j].1, shared, root);
    var pair := {closes[i].0, closes[j].0};
    && (pair in matrix <==> value.Some?)
    && (pair in matrix ==> matrix[pair] == value.value && -1.0 <= value.value <= 1.0)
  }

  /** (i, j) comes before (p, q) in the double loop. */
  predicate Before(i: nat, j: nat, p: nat, q: nat) {
    i < p || (i == p && j < q)
  }

  /** After visiting the pairs before (p, q): they have their entries, and no others. */
  ghost predicate FilledBefore(matrix: Matrix, closes: seq<(string, map<int, real>)>, p: nat, q: nat,
                               root: real -> real)
    requires SquareRoot(root)
  {
    && (forall i: nat, j: nat :: i < j < |closes| && Before(i, j, p, q) ==> EntryIs(matrix, closes, i, j, root))
    && (forall pair :: pair in matrix ==> exists i: nat, j: nat :: IsPair(closes, pair, i, j) && Before(i, j, p, q))
  }

  /** Writing one pair's entry leaves every other pair's alone. */
  lemma EntryKept(before: Matrix, closes: seq<(string, map<int, real>)>, i: nat, j: nat, p: nat, q: nat, value: real,
                  root: real -> real)
    requires SquareRoot(root) && Distinct(closes) && p < q < |closes| && i < j < |closes|
    requires (i, j) != (p, q) && EntryIs(before, closes, i, j, root)
    ensures EntryIs(before[{closes[p].0, closes[q].0} := value], closes, i, j, root)
  {
    hide PairValue, Distinct;
    var here, there := {closes[p].0, closes[q].0}, {closes[i].0, closes[j].0};
    if there == here {
      assert IsPair(closes, here, p, q) && IsPair(closes, here, i, j);
      PairIsUnique(closes, here, i, j, p, q);
      assert false;
    }
  }

  lemma NotYetThere(before: Matrix, closes: seq<(string, map<int, real>)>, p: nat, q: nat, root: real -> real)
    requires SquareRoot(root) && Distinct(closes) && p < q < |closes|
    requires FilledBefore(before, closes, p, q, root)
    ensures {closes[p].0, closes[q].0} !in before
  {
    hide EntryIs, Distinct;
    var here := {closes[p].0, closes[q].0};
    if here in before {
      var i: nat, j: nat :| IsPair(closes, here, i, j) && Before(i, j, p, q);
      PairIsUnique(closes, here, i, j, p, q);
      assert false;
    }
  }

  lemma FillOne(before: Matrix, matrix: Matrix, closes: seq<(string, map<int, real>)>, p: nat, q: nat,
                value: Option<real>, root: real -> real)
    requires SquareRoot(root) && Distinct(closes) && p < q < |closes|
    requires FilledBefore(before, closes, p, q, root)
    requires value == PairValue(closes[p].1, closes[q].1, Shared(closes[p].1, closes[q].1), root)
    requires matrix == if value.Some? then before[{closes[p].0, closes[q].0} := value.value] else before
    ensures FilledBefore(matrix, closes, p, q + 1, root)
  {
    hide PairValue, Distinct;
    NotYetThere(before, closes, p, q, root);
    PairValueBounds(closes[p].1, closes[q].1, Shared(closes[p].1, closes[q].1), root);
    assert EntryIs(matrix, closes, p, q, root);
    hide EntryIs;
    forall i: nat, j: nat | i < j < |closes| && Before(i, j, p, q + 1)
      ensures EntryIs(matrix, closes, i, j, root)
    {
      if (i, j) != (p, q) {
        assert Before(i, j, p, q) && EntryIs(before, closes, i, j, root);
        if value.Some? {
          EntryKept(before, closes, i, j, p, q, value.value, root);
        }
      }
    }
    forall pair | pair in matrix
      ensures exists i: nat, j: nat :: IsPair(closes, pair, i, j) && Before(i, j, p, q + 1)
    {
      if pair in before {
        var i: nat, j: nat :| IsPair(closes, pair, i, j) && Before(i, j, p, q);
        assert Before(i, j, p, q + 1);
      } else {
        assert IsPair(closes, pair, p, q) && Before(p, q, p, q + 1);
      }
    }
  }

  lemma NextRow(matrix: Matrix, closes: seq<(string, map<int, real>)>, p: nat, root: real -> real)
    requires SquareRoot(root)
    requires FilledBefore(matrix, closes, p, |closes|, root)
    ensures FilledBefore(matrix, closes, p + 1, p + 2, root)
  {
    hide EntryIs;
    forall pair | pair in matrix
      ensures exists i: nat, j: nat :: IsPair(closes, pair, i, j) && Before(i, j, p + 1, p + 2)
    {
      var i: nat, j: nat :| IsPair(closes, pair, i, j) && Before(i, j, p, |closes|);
      assert Before(i, j, p + 1, p + 2);
    }
  }

  /** `build_correlation_matrix`: it has an entry for every pair of symbols whose shared bars
      have a coefficient, that entry is the coefficient, and it has no other entry. */
  method BuildCorrelationMatrix(closes: seq<(string, map<int, real>)>, root: real -> real)
    returns (matrix: Matrix)
    requires SquareRoot(root) && Distinct(closes)
    ensures forall i: nat, j: nat :: i < j < |closes| ==> EntryIs(matrix, closes, i, j, root)
    ensures forall pair :: pair in matrix ==> exists i: nat, j: nat :: IsPair(closes, pair, i, j)
    ensures Bounded(matrix)
  {
    hide EntryIs, PairValue;
    matrix := map[];
    for i := 0 to |closes|
      invariant FilledBefore(matrix, closes, i, i + 1, root)
    {
      for j := i + 1 to |closes|
        invariant FilledBefore(matrix, closes, i, j, root)
      {
        var shared := Sorting.SortedSet(closes[i].1.Keys * closes[j].1.Keys);
        assert shared == Shared(closes[i].1, closes[j].1);
        var r := PairCorrelation(closes[i].1, closes[j].1, shared, root);
        ghost var before := matrix;
        if r.Some? {
          matrix := matrix[{closes[i].0, closes[j].0} := r.value];
        }
        FillOne(before, matrix, closes, i, j, r, root);
      }
      NextRow(matrix, closes, i, root);
    }
    AllFilled(matrix, closes, root);
  }

  lemma AllFilled(matrix: Matrix, closes: seq<(string, map<int, real>)>, root: real -> real)
    requires SquareRoot(root)
    requires FilledBefore(matrix, closes, |closes|, |closes| + 1, root)
    ensures forall i: nat, j: nat :: i < j < |closes| ==> EntryIs(matrix, closes, i, j, root)
    ensures forall pair :: pair in matrix ==> exists i: nat, j: nat :: IsPair(closes, pair, i, j)
    ensures Bounded(matrix)
  {
    forall i: nat, j: nat | i < j < |closes|
      ensures EntryIs(matrix, closes, i, j, root)
    {
      assert Before(i, j, |closes|, |closes| + 1);
    }
    forall pair | pair in matrix
      ensures -1.0 <= matrix[pair] <= 1.0
    {
      var i: nat, j: nat :| IsPair(closes, pair, i, j);
      assert EntryIs(matrix, closes, i, j, root);
    }
  }

  /** What one open position contributes to exposure "to the target moving up". */
  function Contribution(target: string, symbol: string, notional: real, matrix: Matrix, threshold: real): real {
    if symbol == target || {target, symbol} !in matrix then 0.0
    else
      var corr := matrix[{target, symbol}];
      if Abs(corr) < threshold then 0.0 else if corr > 0.0 then notional else -notional
  }

  ghost function Contributions(target: string, notionals: map<string, real>, matrix: Matrix,
                               threshold: real): map<string, real> {
    map s | s in notionals :: Contribution(target, s, notionals[s], matrix, threshold)
  }

  /** `correlated_exposure`; the dictionary may be visited in any order. */
  method CorrelatedExposure(target: string, targetNotional: real, notionals: map<string, real>, matrix: Matrix,
                            threshold: real)
    returns (total: real)
    ensures total == targetNotional + Total(Contributions(target, notionals, matrix, threshold))
  {
    total := targetNotional;
    var todo := notionals;
    ghost var all := Contributions(target, notionals, matrix, threshold);
    while |todo| > 0
      invariant forall s :: s in todo ==> s in notionals && todo[s] == notionals[s]
      invariant total + Total(Contributions(target, todo, matrix, threshold)) == targetNotional + Total(all)
    {
      var s :| s in todo;
      ghost var left := Contributions(target, todo, matrix, threshold);
      TotalRemove(left, s);
      total := total + Contribution(target, s, todo[s], matrix, threshold);
      todo := todo - {s};
      assert Contributions(target, todo, matrix, threshold) == left - {s};
    }
    assert todo == map[];
    assert Contributions(target, todo, matrix, threshold) == map[];
  }

  ghost function Magnitudes<K>(m: map<K, real>): map<K, real> {
    map k | k in m :: Abs(m[k])
  }

  /** Gross exposure: the sum of absolute notionals. */
  ghost function Gross<K>(m: map<K, real>): real {
    Total(Magnitudes(m))
  }

  lemma {:induction false} TotalWithinGross(part: map<string, real>, whole: map<string, real>)
    requires forall s :: s in part ==> s in whole && Abs(part[s]) <= Abs(whole[s])
    ensures Abs(Total(part)) <= Gross(whole)
    decreases |whole|
  {
    if whole == map[] {
      assert part == map[];
      assert Magnitudes(whole) == map[];
    } else {
      var s :| s in whole;
      TotalWithinGross(part - {s}, whole - {s});
      TotalRemove(Magnitudes(whole), s);
      assert Magnitudes(whole) - {s} == Magnitudes(whole - {s});
      if s in part {
        TotalRemove(part, s);
      } else {
        assert part - {s} == part;
      }
    }
  }

  /** `signed_notionals_excluding`, merged by addition with the other engine's book. */
  function Merged(own: map<string, real>, elsewhere: map<string, real>, exclude: string): map<string, real> {
    map s | s in own.Keys + elsewhere.Keys && s != exclude ::
      (if s in own then own[s] else 0.0) + (if s in elsewhere then elsewhere[s] else 0.0)
  }

  lemma MergedWithout(own: map<string, real>, elsewhere: map<string, real>, exclude: string, s: string)
    ensures Merged(own - {s}, elsewhere - {s}, exclude) == Merged(own, elsewhere, exclude) - {s}
  {}

  function Size(m: map<string, real>, s: string): real {
    if s in m then Abs(m[s]) else 0.0
  }

  lemma MergedEntry(own: map<string, real>, elsewhere: map<string, real>, exclude: string, s: string)
    ensures Size(Merged(own, elsewhere, exclude), s) <= Size(own, s) + Size(elsewhere, s)
  {}

  lemma DropOne(m: map<string, real>, s: string)
    ensures Gross(m) == Gross(m - {s}) + Size(m, s)
  {
    assert Magnitudes(m - {s}) == Magnitudes(m) - {s};
    if s in m {
      TotalRemove(Magnitudes(m), s);
    } else {
      assert Magnitudes(m) - {s} == Magnitudes(m);
    }
  }

  /** Merging nets symbol by symbol, so it never shows more than the two books' gross sizes. */
  lemma {:induction false} MergedWithinGross(own: map<string, real>, elsewhere: map<string, real>, exclude: string,
                                             symbols: set<string>)
    requires own.Keys <= symbols && elsewhere.Keys <= symbols
    ensures Gross(Merged(own, elsewhere, exclude)) <= Gross(own) + Gross(elsewhere)
    decreases symbols
  {
    if symbols == {} {
      assert Magnitudes(Merged(own, elsewhere, exclude)) == map[];
    } else {
      var s :| s in symbols;
      MergedStep(own, elsewhere, exclude, s);
      MergedWithinGross(own - {s}, elsewhere - {s}, exclude, symbols - {s});
    }
  }

  lemma MergedStep(own: map<string, real>, elsewhere: map<string, real>, exclude: string, s: string)
    ensures Gross(Merged(own, elsewhere, exclude)) - Gross(own) - Gross(elsewhere)
         <= Gross(Merged(own - {s}, elsewhere - {s}, exclude)) - Gross(own - {s}) - Gross(elsewhere - {s})
  {
    MergedWithout(own, elsewhere, exclude, s);
    MergedEntry(own, elsewhere, exclude, s);
    DropOne(Merged(own, elsewhere, exclude), s);
    DropOne(own, s);
    DropOne(elsewhere, s);
  }

  /** For every own book, every merged other-engine book, every matrix (bounded or not) and
      every threshold: the netted exposure handed to the gate never exceeds the gross one. */
  lemma NettedWithinGross(own: map<string, real>, elsewhere: map<string, real>, target: string, matrix: Matrix,
                          threshold: real)
    ensures Abs(Total(Contributions(target, Merged(own, elsewhere, target), matrix, threshold)))
            <= Gross(own) + Gross(elsewhere)
  {
    var merged := Merged(own, elsewhere, target);
    TotalWithinGross(Contributions(target, merged, matrix, threshold), merged);
    MergedWithinGross(own, elsewhere, target, own.Keys + elsewhere.Keys);
  }

  lemma PctMonotone(x: real, y: real, balance: real)
    requires balance > 0.0 && x <= y
    ensures R.PctOf(x, balance) <= R.PctOf(y, balance)
  {
    DivOrder(x, balance, y / balance);
    DivMul(y, balance);
  }

  /** A proposal as the order path builds it: gross exposure over both books, correlated exposure
      netted over their merger, and a size that is not negative. */
  ghost predicate Built(limits: R.Limits, p: R.Proposal, own: map<string, real>, elsewhere: map<string, real>,
                        target: string, matrix: Matrix, threshold: real) {
    && p.currentExposure == Gross(own) + Gross(elsewhere)
    && p.correlatedExposure == Total(Contributions(target, Merged(own, elsewhere, target), matrix, threshold))
    && R.Notional(limits, p) >= 0.0
  }

  /** With the correlated limit no tighter than the gross limit, the gross check decides first: no
      proposal built this way passes `exposure_limit` and fails `correlated_exposure_limit`. */
  lemma GrossGateDecidesFirst(limits: R.Limits, p: R.Proposal, own: map<string, real>, elsewhere: map<string, real>,
                              target: string, matrix: Matrix, threshold: real)
    requires Built(limits, p, own, elsewhere, target, matrix, threshold)
    requires limits.maxCorrelatedExposurePct >= limits.maxExposurePct && R.ExposurePasses(limits, p)
    ensures R.CorrelatedPasses(limits, p)
  {
    NettedWithinGross(own, elsewhere, target, matrix, threshold);
    PctMonotone(Abs(p.correlatedExposure + R.SignedNotional(limits, p)),
                p.currentExposure + R.Notional(limits, p), p.accountBalance);
  }

  lemma {:induction false} GrossIsNotNegative(m: map<string, real>)
    ensures Gross(m) >= 0.0
    decreases |m|
  {
    if m == map[] {
      assert Magnitudes(m) == map[];
    } else {
      var s :| s in m;
      assert (m - {s}).Keys == m.Keys - {s};
      DropOne(m, s);
      GrossIsNotNegative(m - {s});
    }
  }

  /** Under a negative gross limit no proposal passes at all. */
  lemma NegativeLimitPassesNothing(limits: R.Limits, p: R.Proposal,
                                   own: map<string, real>, elsewhere: map<string, real>,
                                   target: string, matrix: Matrix, threshold: real)
    requires Built(limits, p, own, elsewhere, target, matrix, threshold) && limits.maxExposurePct < 0.0
    ensures !R.ExposurePasses(limits, p)
  {
    GrossIsNotNegative(own);
    GrossIsNotNegative(elsewhere);
    if p.accountBalance > 0.0 {
      PctMonotone(0.0, p.currentExposure + R.Notional(limits, p), p.accountBalance);
    }
  }

  /** One unit of price, a size equal to the gross limit, on a balance of 100 and empty books. */
  function AtTheGrossLimit(limits: R.Limits): R.Proposal {
    R.Proposal(1.0, 0.5, 100.0, 0, 0, 0.0, 0.0, 0.0, 0.0, 0.0, Some(0.0), true, 0, 0.0, 0.0, None,
               Some(limits.maxExposurePct), false)
  }

  lemma TighterCorrelatedLimitBites(limits: R.Limits, target: string, matrix: Matrix, threshold: real)
    requires 0.0 <= limits.maxExposurePct && limits.maxCorrelatedExposurePct < limits.maxExposurePct
    ensures var p := AtTheGrossLimit(limits);
            Built(limits, p, map[], map[], target, matrix, threshold) && R.ExposurePasses(limits, p) &&
              !R.CorrelatedPasses(limits, p)
  {
    var nothing: map<string, real> := map[];
    assert Magnitudes(nothing) == map[];
    assert Contributions(target, Merged(nothing, nothing, target), matrix, threshold) == map[];
  }

  /** Passing the gross check implies passing the correlated one, for every proposal over every pair
      of books, matrix and threshold. */
  ghost predicate GrossDecides(limits: R.Limits) {
    forall p: R.Proposal, own, elsewhere, target, matrix, threshold ::
      Built(limits, p, own, elsewhere, target, matrix, threshold) && R.ExposurePasses(limits, p) ==>
        R.CorrelatedPasses(limits, p)
  }

  /** That is so if and only if the correlated limit is at least the gross one, or the gross limit is
      negative and lets nothing through. */
  lemma GrossDecidesIff(limits: R.Limits)
    ensures GrossDecides(limits) <==>
              limits.maxCorrelatedExposurePct >= limits.maxExposurePct || limits.maxExposurePct < 0.0
  {
    if limits.maxCorrelatedExposurePct >= limits.maxExposurePct || limits.maxExposurePct < 0.0 {
      forall p: R.Proposal, own, elsewhere, target, matrix, threshold |
        Built(limits, p, own, elsewhere, target, matrix, threshold) && R.ExposurePasses(limits, p)
        ensures R.CorrelatedPasses(limits, p)
      {
        if limits.maxExposurePct < 0.0 {
          NegativeLimitPassesNothing(limits, p, own, elsewhere, target, matrix, threshold);
        } else {
          GrossGateDecidesFirst(limits, p, own, elsewhere, target, matrix, threshold);
        }
      }
    } else {
      TighterCorrelatedLimitBites(limits, "", map[], 0.0);
    }
  }
}
