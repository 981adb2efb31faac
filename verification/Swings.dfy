/**
Swing detection and labelling (`detect_swings`, `_label_swings`, `visible_swings`), and the
first no-look-ahead theorem: the swings of a truncated history are exactly the swings of the
longer one that were confirmed by then.
*/
module Swings {
  import opened Common
  import opened Market
  import Sorting

  datatype SwingType = HIGH | LOW

  datatype Label = HH | HL | LH | LL | NONE

  datatype Swing = Swing(index: nat, confirmedIndex: nat, timestamp: int, price: real, kind: SwingType,
                         swingLabel: Label)

  // ------------------------------------------------------------------------- what a swing is

  function Price(c: Candle, kind: SwingType): real {
    if kind.HIGH? then c.high else c.low
  }

  /** Whether `a` is further out than `b`: above it for highs, below it for lows. */
  predicate Beyond(kind: SwingType, a: real, b: real) {
    if kind.HIGH? then a > b else a < b
  }

  /** The candle stands strictly out of the `length` candles on each side. */
  predicate IsPivot(candles: seq<Candle>, i: nat, length: nat, kind: SwingType) {
    && length <= i && i + length < |candles|
    && forall j :: i - length <= j <= i + length && j != i ==>
         Beyond(kind, Price(candles[i], kind), Price(candles[j], kind))
  }

  function SwingAt(candles: seq<Candle>, i: nat, length: nat, kind: SwingType): Swing
    requires i < |candles|
  {
    Swing(i, i + length, candles[i].timestamp, Price(candles[i], kind), kind, NONE)
  }

  function PivotsAt(candles: seq<Candle>, i: nat, length: nat): seq<Swing>
    requires i < |candles|
  {
    (if IsPivot(candles, i, length, HIGH) then [SwingAt(candles, i, length, HIGH)] else []) +
    (if IsPivot(candles, i, length, LOW) then [SwingAt(candles, i, length, LOW)] else [])
  }

  /** The unlabelled swings at indices below `upTo`, in order. */
  function Pivots(candles: seq<Candle>, length: nat, upTo: nat): seq<Swing>
    requires upTo <= |candles|
  {
    if upTo == 0 then [] else Pivots(candles, length, upTo - 1) + PivotsAt(candles, upTo - 1, length)
  }

  /** The price of the last swing of a kind. */
  function LastPrice(swings: seq<Swing>, kind: SwingType): Option<real> {
    if swings == [] then None
    else
      var last := swings[|swings| - 1];
      if last.kind == kind then Some(last.price) else LastPrice(swings[..|swings| - 1], kind)
  }

  function LabelAfter(before: seq<Swing>, s: Swing): Label {
    match LastPrice(before, s.kind)
    case None => NONE
    case Some(price) =>
      if s.kind.HIGH? then (if s.price > price then HH else LH) else if s.price > price then HL else LL
  }

  function Labelled(swings: seq<Swing>): (r: seq<Swing>)
    ensures |r| == |swings|
  {
    if swings == [] then []
    else
      var n := |swings| - 1;
      Labelled(swings[..n]) + [swings[n].(swingLabel := LabelAfter(swings[..n], swings[n]))]
  }

  /** `detect_swings` for a positive length. */
  function Detected(candles: seq<Candle>, length: nat): seq<Swing> {
    Labelled(Pivots(candles, length, |candles|))
  }

  /** `visible_swings`. */
  function Visible(swings: seq<Swing>, asOf: int): seq<Swing> {
    if swings == [] then []
    else
      var n := |swings| - 1;
      Visible(swings[..n], asOf) + if swings[n].confirmedIndex <= asOf then [swings[n]] else []
  }

  // ---------------------------------------------------------------------------- the code

  function Count(w: seq<real>, x: real): nat {
    if w == [] then 0 else Count(w[..|w| - 1], x) + if w[|w| - 1] == x then 1 else 0
  }

  lemma {:induction false} CountZero(w: seq<real>, x: real)
    ensures Count(w, x) == 0 <==> forall j :: 0 <= j < |w| ==> w[j] != x
  {
    if w != [] {
      CountZero(w[..|w| - 1], x);
    }
  }

  /** A value occurring at `k` occurs once exactly when no other position holds it. */
  lemma {:induction false} CountOne(w: seq<real>, k: nat)
    requires k < |w|
    ensures Count(w, w[k]) == 1 <==> forall j :: 0 <= j < |w| && j != k ==> w[j] != w[k]
  {
    var n := |w| - 1;
    if k == n {
      CountZero(w[..n], w[n]);
    } else {
      CountOne(w[..n], k);
      if Count(w[..n], w[k]) == 0 {
        CountZero(w[..n], w[k]);
      }
      CountZero(w[..n], w[k]);
    }
  }

  /** "Equal to the window's maximum, and occurring once" is "strictly above every other". */
  lemma HighestOnceIsStrict(w: seq<real>, k: nat)
    requires k < |w|
    ensures w[k] == MaxOf(w) && Count(w, w[k]) == 1 <==> forall j :: 0 <= j < |w| && j != k ==> w[k] > w[j]
  {
    MaxIsUpper(w);
    CountOne(w, k);
    if forall j :: 0 <= j < |w| && j != k ==> w[k] > w[j] {
      var m :| 0 <= m < |w| && w[m] == MaxOf(w);
    }
  }

  lemma LowestOnceIsStrict(w: seq<real>, k: nat)
    requires k < |w|
    ensures w[k] == MinOf(w) && Count(w, w[k]) == 1 <==> forall j :: 0 <= j < |w| && j != k ==> w[k] < w[j]
  {
    MinIsLower(w);
    CountOne(w, k);
    if forall j :: 0 <= j < |w| && j != k ==> w[k] < w[j] {
      var m :| 0 <= m < |w| && w[m] == MinOf(w);
    }
  }

  function Window(candles: seq<Candle>, i: nat, length: nat, kind: SwingType): (w: seq<real>)
    requires length <= i && i + length < |candles|
    ensures |w| == 2 * length + 1
  {
    seq(2 * length + 1, j requires 0 <= j < 2 * length + 1 => Price(candles[i - length + j], kind))
  }

  /** The test the loop makes on each side decides exactly whether the candle is a pivot. */
  lemma WindowTest(candles: seq<Candle>, i: nat, length: nat, kind: SwingType)
    requires length <= i && i + length < |candles|
    ensures var w := Window(candles, i, length, kind);
            var x := Price(candles[i], kind);
            (if kind.HIGH? then x == MaxOf(w) else x == MinOf(w)) && Count(w, x) == 1 <==>
              IsPivot(candles, i, length, kind)
  {
    var w := Window(candles, i, length, kind);
    HighestOnceIsStrict(w, length);
    LowestOnceIsStrict(w, length);
    assert w[length] == Price(candles[i], kind);
    assert forall j :: i - length <= j <= i + length ==> Price(candles[j], kind) == w[j - (i - length)];
    assert forall j :: 0 <= j < |w| ==> w[j] == Price(candles[i - length + j], kind);
  }

  method LabelSwings(unlabelled: seq<Swing>) returns (swings: seq<Swing>)
    ensures swings == Labelled(unlabelled)
  {
    swings := unlabelled;
    var lastHigh: Option<real>, lastLow: Option<real> := None, None;
    for i := 0 to |swings|
      invariant |swings| == |unlabelled|
      invariant swings[..i] == Labelled(unlabelled[..i])
      invariant swings[i..] == unlabelled[i..]
      invariant lastHigh == LastPrice(unlabelled[..i], HIGH) && lastLow == LastPrice(unlabelled[..i], LOW)
    {
      var s := swings[i];
      assert s == swings[i..][0] == unlabelled[i];
      assert unlabelled[..i + 1][..i] == unlabelled[..i];
      ghost var done := swings[..i];
      var swingLabel: Label;
      if s.kind.HIGH? {
        swingLabel := if lastHigh.None? then NONE else if s.price > lastHigh.value then HH else LH;
        lastHigh := Some(s.price);
      } else {
        swingLabel := if lastLow.None? then NONE else if s.price > lastLow.value then HL else LL;
        lastLow := Some(s.price);
      }
      assert swingLabel == LabelAfter(unlabelled[..i], s);
      swings := swings[i := s.(swingLabel := swingLabel)];
      assert swings[..i + 1] == done + [s.(swingLabel := swingLabel)];
    }
    assert unlabelled[..|unlabelled|] == unlabelled;
  }

  datatype SwingError = LengthTooShort

  /** The body of the detection loop. */
  method PivotsHere(candles: seq<Candle>, i: nat, length: nat) returns (found: seq<Swing>)
    requires length <= i && i + length < |candles|
    ensures found == PivotsAt(candles, i, length)
  {
    found := [];
    var highs, lows := Window(candles, i, length, HIGH), Window(candles, i, length, LOW);
    WindowTest(candles, i, length, HIGH);
    WindowTest(candles, i, length, LOW);
    if candles[i].high == MaxOf(highs) && Count(highs, candles[i].high) == 1 {
      found := found + [SwingAt(candles, i, length, HIGH)];
    }
    if candles[i].low == MinOf(lows) && Count(lows, candles[i].low) == 1 {
      found := found + [SwingAt(candles, i, length, LOW)];
    }
  }

  method FindPivots(candles: seq<Candle>, length: nat) returns (swings: seq<Swing>)
    ensures swings == Pivots(candles, length, |candles|)
  {
    swings := [];
    var n := |candles|;
    NoEarlyPivots(candles, length, if length <= n then length else n);
    if n <= length {
      return;
    }
    var i := length;
    while i < n - length
      invariant length <= i <= n && (i <= n - length || i == length)
      invariant swings == Pivots(candles, length, i)
    {
      var found := PivotsHere(candles, i, length);
      swings := swings + found;
      i := i + 1;
    }
    NoLatePivots(candles, length, i);
  }

  function ByIndex(swings: seq<Swing>): seq<Swing> {
    Sorting.Sort(swings, (s: Swing) => s.index as real)
  }

  /** The sort by index leaves the list as the loop built it: candle by candle. */
  lemma ByIndexKeepsPivots(candles: seq<Candle>, length: nat)
    ensures ByIndex(Pivots(candles, length, |candles|)) == Pivots(candles, length, |candles|)
  {
    var pivots, key := Pivots(candles, length, |candles|), (s: Swing) => s.index as real;
    PivotsOrdered(candles, length, |candles|);
    forall i, j | 0 <= i < j < |pivots| ensures key(pivots[i]) <= key(pivots[j]) {
      assert pivots[i] in pivots && pivots[j] in pivots;
    }
    Sorting.SortSorts(pivots, key);
  }

  /** `detect_swings`. */
  method DetectSwings(candles: seq<Candle>, length: int) returns (r: Result<seq<Swing>, SwingError>)
    ensures length < 1 ==> r == Err(LengthTooShort)
    ensures length >= 1 ==> r == Ok(Detected(candles, length))
  {
    if length < 1 {
      return Err(LengthTooShort);
    }
    var swings := FindPivots(candles, length);
    ByIndexKeepsPivots(candles, length);
    var labelled := LabelSwings(ByIndex(swings));
    r := Ok(labelled);
  }

  lemma {:induction false} NoEarlyPivots(candles: seq<Candle>, length: nat, upTo: nat)
    requires upTo <= |candles| && upTo <= length
    ensures Pivots(candles, length, upTo) == []
  {
    if upTo > 0 {
      NoEarlyPivots(candles, length, upTo - 1);
    }
  }

  lemma {:induction false} NoLatePivots(candles: seq<Candle>, length: nat, from: nat)
    requires from <= |candles| && from + length >= |candles|
    ensures Pivots(candles, length, |candles|) == Pivots(candles, length, from)
    decreases |candles| - from
  {
    if from < |candles| {
      NoLatePivots(candles, length, from + 1);
    }
  }

  // -------------------------------------------------------------------- no look-ahead

  lemma PivotsAtVisible(candles: seq<Candle>, i: nat, length: nat, asOf: int)
    requires i < |candles|
    ensures Visible(PivotsAt(candles, i, length), asOf)
            == if i + length <= asOf then PivotsAt(candles, i, length) else []
  {
    AllOrNothing(PivotsAt(candles, i, length), i + length, asOf);
  }

  lemma PivotOfPrefix(candles: seq<Candle>, i: nat, length: nat, k: nat, kind: SwingType)
    requires i < k <= |candles|
    ensures IsPivot(candles[..k], i, length, kind) <==> IsPivot(candles, i, length, kind) && i + length < k
  {}

  /** At one index, the cut history sees the pivots the whole history sees, or not yet. */
  lemma PivotsAtOfPrefix(candles: seq<Candle>, i: nat, length: nat, k: nat)
    requires i < k <= |candles|
    ensures PivotsAt(candles[..k], i, length) == Visible(PivotsAt(candles, i, length), k - 1)
  {
    PivotOfPrefix(candles, i, length, k, HIGH);
    PivotOfPrefix(candles, i, length, k, LOW);
    PivotsAtVisible(candles, i, length, k - 1);
  }

  lemma {:induction false} PivotsOfPrefix(candles: seq<Candle>, length: nat, k: nat, upTo: nat)
    requires upTo <= k <= |candles|
    ensures Pivots(candles[..k], length, upTo) == Visible(Pivots(candles, length, upTo), k - 1)
  {
    if upTo > 0 {
      var i := upTo - 1;
      PivotsOfPrefix(candles, length, k, i);
      PivotsAtOfPrefix(candles, i, length, k);
      VisibleAppends(Pivots(candles, length, i), PivotsAt(candles, i, length), k - 1);
    }
  }

  lemma {:induction false} VisibleAppends(a: seq<Swing>, b: seq<Swing>, asOf: int)
    ensures Visible(a + b, asOf) == Visible(a, asOf) + Visible(b, asOf)
  {
    if b == [] {
      assert a + b == a;
    } else {
      var n := |b| - 1;
      assert (a + b)[..|a + b| - 1] == a + b[..n];
      VisibleAppends(a, b[..n], asOf);
    }
  }

  lemma {:induction false} AllOrNothing(swings: seq<Swing>, confirmed: nat, asOf: int)
    requires forall i :: 0 <= i < |swings| ==> swings[i].confirmedIndex == confirmed
    ensures Visible(swings, asOf) == if confirmed <= asOf then swings else []
  {
    if swings != [] {
      AllOrNothing(swings[..|swings| - 1], confirmed, asOf);
    }
  }

  /** Swings come out ordered by confirmation, so what is visible is a leading part. */
  predicate Ordered(swings: seq<Swing>) {
    forall i, j :: 0 <= i < j < |swings| ==> swings[i].confirmedIndex <= swings[j].confirmedIndex
  }

  lemma {:induction false} PivotsOrdered(candles: seq<Candle>, length: nat, upTo: nat)
    requires upTo <= |candles|
    ensures Ordered(Pivots(candles, length, upTo))
    ensures forall s :: s in Pivots(candles, length, upTo) ==> s.confirmedIndex == s.index + length && s.index < upTo
  {
    hide IsPivot;
    if upTo > 0 {
      PivotsOrdered(candles, length, upTo - 1);
      OrderedAppend(Pivots(candles, length, upTo - 1), PivotsAt(candles, upTo - 1, length), upTo - 1 + length);
    }
  }

  /** What is confirmed at one candle may follow what was confirmed up to it. */
  lemma OrderedAppend(before: seq<Swing>, at: seq<Swing>, confirmed: nat)
    requires Ordered(before) && forall s :: s in before ==> s.confirmedIndex <= confirmed
    requires forall i :: 0 <= i < |at| ==> at[i].confirmedIndex == confirmed
    ensures Ordered(before + at)
  {
    forall i | 0 <= i < |before| ensures before[i].confirmedIndex <= confirmed {
      assert before[i] in before;
    }
  }

  lemma {:induction false} VisibleIsLeading(swings: seq<Swing>, asOf: int)
    requires Ordered(swings)
    ensures Visible(swings, asOf) <= swings
    ensures forall i :: |Visible(swings, asOf)| <= i < |swings| ==> swings[i].confirmedIndex > asOf
    ensures forall i :: 0 <= i < |Visible(swings, asOf)| ==> swings[i].confirmedIndex <= asOf
  {
    if swings != [] {
      VisibleIsLeading(swings[..|swings| - 1], asOf);
    }
  }

  lemma {:induction false} LabelledKeeps(swings: seq<Swing>)
    ensures forall i :: 0 <= i < |swings| ==>
              Labelled(swings)[i] == swings[i].(swingLabel := Labelled(swings)[i].swingLabel)
  {
    if swings != [] {
      LabelledKeeps(swings[..|swings| - 1]);
    }
  }

  /** Labels look back only: labelling a leading part is taking that part of the labelled list. */
  lemma {:induction false} LabelledOfLeading(swings: seq<Swing>, n: nat)
    requires n <= |swings|
    ensures Labelled(swings[..n]) == Labelled(swings)[..n]
  {
    if n == |swings| {
      assert swings[..n] == swings;
    } else {
      var m := |swings| - 1;
      assert swings[..m][..n] == swings[..n];
      LabelledOfLeading(swings[..m], n);
    }
  }

  lemma DetectedOrdered(candles: seq<Candle>, length: nat)
    ensures Ordered(Detected(candles, length))
    ensures forall i :: 0 <= i < |Detected(candles, length)| ==>
              Detected(candles, length)[i].confirmedIndex
              == Detected(candles, length)[i].index + length < |candles| + length
  {
    var raw := Pivots(candles, length, |candles|);
    PivotsOrdered(candles, length, |candles|);
    LabelledKeeps(raw);
    forall i | 0 <= i < |raw| ensures raw[i] in raw {}
  }

  /** For every history and every cut, the swings (labels included) of the truncated history are
      those of the whole history confirmed before the cut. */
  lemma SwingsDoNotLookAhead(candles: seq<Candle>, length: nat, k: nat)
    requires k <= |candles|
    ensures Detected(candles[..k], length) == Visible(Detected(candles, length), k - 1)
  {
    var raw := Pivots(candles, length, |candles|);
    PivotsOfPrefix(candles, length, k, k);
    LaterPivotsHidden(candles, length, k, |candles|);
    PivotsOrdered(candles, length, |candles|);
    LabelledOfVisible(raw, k - 1);
  }

  /** Labelling and hiding what is not yet confirmed can be done in either order. */
  lemma LabelledOfVisible(raw: seq<Swing>, asOf: int)
    requires Ordered(raw)
    ensures Labelled(Visible(raw, asOf)) == Visible(Labelled(raw), asOf)
  {
    hide Labelled, Visible;
    var n := |Visible(raw, asOf)|;
    VisibleIsLeading(raw, asOf);
    assert Visible(raw, asOf) == raw[..n];
    LabelledOfLeading(raw, n);
    LabelledKeeps(raw);
    var labelled := Labelled(raw);
    assert forall i :: 0 <= i < |raw| ==> labelled[i].confirmedIndex == raw[i].confirmedIndex;
    VisibleIsLeading(labelled, asOf);
    var m := |Visible(labelled, asOf)|;
    assert n < |raw| ==> (labelled[n].confirmedIndex <= asOf <==> n < m);
    assert m < |raw| ==> (raw[m].confirmedIndex <= asOf <==> m < n);
  }

  /** Pivots at or after the cut are confirmed after it. */
  lemma {:induction false} LaterPivotsHidden(candles: seq<Candle>, length: nat, k: nat, upTo: nat)
    requires k <= upTo <= |candles|
    ensures Visible(Pivots(candles, length, upTo), k - 1) == Visible(Pivots(candles, length, k), k - 1)
    decreases upTo
  {
    hide IsPivot, PivotsAt, Visible;
    if upTo > k {
      LaterPivotsHidden(candles, length, k, upTo - 1);
      VisibleAppends(Pivots(candles, length, upTo - 1), PivotsAt(candles, upTo - 1, length), k - 1);
      PivotsAtVisible(candles, upTo - 1, length, k - 1);
    }
  }
}
