/**
Fair value gaps and order blocks: how they are found, and how later candles fill them
(`detect_fvgs`, `detect_order_blocks`, the two `update_mitigation`). The mitigation loops stop
as soon as an outcome is settled; here they are proved equal to scanning every later candle.
A block's strength is taken before it is rounded to four decimals.
*/
module Zones {
  import opened Common
  import opened Market
  import opened Structure
  import S = Swings

  datatype Zone = Zone(side: Side, top: real, bottom: real, createdIndex: nat, createdAt: int)

  // --------------------------------------------------------- what one candle does to a zone

  function Size(z: Zone): real {
    Max(z.top - z.bottom, 0.0)
  }

  predicate Overlaps(z: Zone, c: Candle) {
    Min(c.high, z.top) > Max(c.low, z.bottom)
  }

  /** How far into the zone the candle trades, from the side price comes from. */
  function Depth(z: Zone, c: Candle): real {
    if !Overlaps(z, c) then 0.0
    else if z.side.BULLISH? then z.top - Max(c.low, z.bottom)
    else Min(c.high, z.top) - z.bottom
  }

  predicate Engulfs(z: Zone, c: Candle) {
    Overlaps(z, c) && c.low <= z.bottom && c.high >= z.top
  }

  /** The candle trades through to the zone's far edge. */
  predicate Spends(z: Zone, c: Candle) {
    && z.bottom < z.top
    && if z.side.BULLISH? then c.low <= z.bottom < c.high else c.low < z.top <= c.high
  }

  // ------------------------------------------------------ the scan of every later candle

  function Deepest(z: Zone, candles: seq<Candle>, from: nat, to: nat): real
    requires to <= from || to <= |candles|
  {
    if to <= from then 0.0 else Max(Deepest(z, candles, from, to - 1), Depth(z, candles[to - 1]))
  }

  function Fraction(deepest: real, size: real): real {
    if size == 0.0 then 0.0 else Min(deepest / size, 1.0)
  }

  /** `filled_percentage` after scanning everything from `from` on. */
  function Filled(z: Zone, candles: seq<Candle>, from: nat): real {
    Fraction(Deepest(z, candles, from, |candles|), Size(z))
  }

  predicate EngulfedLater(z: Zone, candles: seq<Candle>, from: nat) {
    exists i :: from <= i < |candles| && Engulfs(z, candles[i])
  }

  predicate Mitigated(z: Zone, candles: seq<Candle>, from: nat) {
    Filled(z, candles, from) >= 1.0 || EngulfedLater(z, candles, from)
  }

  predicate SpentAt(z: Zone, candles: seq<Candle>, from: nat, i: nat) {
    && from <= i < |candles| && Spends(z, candles[i])
    && forall j :: from <= j < i ==> !Spends(z, candles[j])
  }

  predicate NeverSpent(z: Zone, candles: seq<Candle>, from: nat) {
    forall i :: from <= i < |candles| ==> !Spends(z, candles[i])
  }

  // ---------------------------------------------------------------- the two agree

  lemma DepthReachesSize(z: Zone, c: Candle)
    ensures 0.0 <= Depth(z, c) <= Size(z)
    ensures Size(z) > 0.0 ==> (Depth(z, c) == Size(z) <==> Spends(z, c))
    ensures Engulfs(z, c) ==> Spends(z, c)
    ensures Size(z) == 0.0 ==> !Overlaps(z, c)
  {}

  lemma {:induction false} DeepestReachesSize(z: Zone, candles: seq<Candle>, from: nat, to: nat)
    requires to <= from || to <= |candles|
    ensures 0.0 <= Deepest(z, candles, from, to) <= Size(z)
    ensures Size(z) > 0.0 ==>
              (Deepest(z, candles, from, to) == Size(z) <==> exists i :: from <= i < to && Spends(z, candles[i]))
  {
    if to > from {
      DeepestReachesSize(z, candles, from, to - 1);
      DepthReachesSize(z, candles[to - 1]);
    }
  }

  lemma FractionIsFull(deepest: real, size: real)
    requires 0.0 <= deepest <= size
    ensures Fraction(deepest, size) >= 1.0 <==> size > 0.0 && deepest == size
    ensures 0.0 <= Fraction(deepest, size) <= 1.0
  {
    if size > 0.0 {
      DivOrder(deepest, size, 1.0);
      DivOrder(deepest, size, 0.0);
    }
  }

  /** A zone is mitigated exactly when some later candle trades through to its far edge: for a
      bullish zone low <= bottom < high, mirrored for a bearish one; an empty zone never is. */
  lemma MitigatedExactlyWhenSpent(z: Zone, candles: seq<Candle>, from: nat)
    ensures Mitigated(z, candles, from) <==> exists i :: from <= i < |candles| && Spends(z, candles[i])
    ensures 0.0 <= Filled(z, candles, from) <= 1.0
  {
    DeepestReachesSize(z, candles, from, |candles|);
    FractionIsFull(Deepest(z, candles, from, |candles|), Size(z));
    forall i | from <= i < |candles| ensures Engulfs(z, candles[i]) ==> Spends(z, candles[i]) {
      DepthReachesSize(z, candles[i]);
    }
  }

  /** Once a candle has spent the zone no later candle deepens it. */
  lemma {:induction false} SettledOnceSpent(z: Zone, candles: seq<Candle>, from: nat, i: nat, to: nat)
    requires from <= i < to <= |candles| && Spends(z, candles[i])
    ensures Deepest(z, candles, from, to) == Deepest(z, candles, from, i + 1) == Size(z)
  {
    DeepestReachesSize(z, candles, from, i + 1);
    DeepestReachesSize(z, candles, from, to);
  }

  /** What the early exit leaves behind, in terms of the first candle that spends the zone. */
  ghost predicate Settles(z: Zone, candles: seq<Candle>, from: nat, filled: real, mitigated: bool, invalidated: bool,
                          first: Option<nat>) {
    && filled == Filled(z, candles, from)
    && mitigated == Mitigated(z, candles, from)
    && (match first
        case None => NeverSpent(z, candles, from) && !invalidated
        case Some(i) => SpentAt(z, candles, from, i) && invalidated == Engulfs(z, candles[i]))
  }

  /** The test at one candle, when none before it spent the zone, is whether this one does. */
  lemma ExitTest(z: Zone, candles: seq<Candle>, from: nat, i: nat)
    requires from <= i < |candles|
    requires forall j :: from <= j < i ==> !Spends(z, candles[j])
    ensures Overlaps(z, candles[i]) &&
            (Engulfs(z, candles[i]) || (Size(z) != 0.0 && Deepest(z, candles, from, i + 1) >= Size(z)))
            <==> Spends(z, candles[i])
    ensures !Overlaps(z, candles[i]) ==> Deepest(z, candles, from, i + 1) == Deepest(z, candles, from, i)
  {
    DeepestReachesSize(z, candles, from, i);
    DeepestReachesSize(z, candles, from, i + 1);
    DepthReachesSize(z, candles[i]);
  }

  /** The scan shared by gaps and blocks: from `from` on, stopping at the first settled candle. */
  method ScanZone(candles: seq<Candle>, z: Zone, from: nat)
    returns (filled: real, mitigated: bool, invalidated: bool, first: Option<nat>)
    ensures Settles(z, candles, from, filled, mitigated, invalidated, first)
    ensures mitigated == first.Some?
  {
    var deepest := 0.0;
    invalidated, first := false, None;
    var i := from;
    while i < |candles| && first.None?
      invariant from <= i && (i <= |candles| || i == from)
      invariant first.None? ==>
                  NeverSpentBefore(z, candles, from, i) && !invalidated && deepest == Deepest(z, candles, from, i)
      invariant first.Some? ==>
                  SpentAt(z, candles, from, first.value) && invalidated == Engulfs(z, candles[first.value])
                                && deepest == Deepest(z, candles, from, first.value + 1)
      decreases |candles| - i, first.None?
    {
      var candle := candles[i];
      ExitTest(z, candles, from, i);
      var overlapHigh, overlapLow := Min(candle.high, z.top), Max(candle.low, z.bottom);
      if overlapHigh > overlapLow {
        var fill := if z.side.BULLISH? then z.top - overlapLow else overlapHigh - z.bottom;
        deepest := Max(deepest, fill);
        if candle.low <= z.bottom && candle.high >= z.top {
          invalidated := true;
        }
        if invalidated || (Size(z) != 0.0 && deepest >= Size(z)) {
          first := Some(i);
        }
      }
      if first.None? {
        i := i + 1;
      }
    }
    filled := Fraction(deepest, Size(z));
    mitigated := filled >= 1.0 || invalidated;
    ScanIsComplete(z, candles, from, deepest, first);
  }

  predicate NeverSpentBefore(z: Zone, candles: seq<Candle>, from: nat, to: nat) {
    forall j :: from <= j < to && j < |candles| ==> !Spends(z, candles[j])
  }

  /** Stopping at the first candle that spends the zone, or never, gives what the whole scan gives. */
  lemma ScanIsComplete(z: Zone, candles: seq<Candle>, from: nat, deepest: real, first: Option<nat>)
    requires first.None? ==> NeverSpent(z, candles, from) && deepest == Deepest(z, candles, from, |candles|)
    requires first.Some? ==>
               SpentAt(z, candles, from, first.value) && deepest == Deepest(z, candles, from, first.value + 1)
    ensures Fraction(deepest, Size(z)) == Filled(z, candles, from)
    ensures Mitigated(z, candles, from) <==> first.Some?
    ensures first.Some? ==> Fraction(deepest, Size(z)) >= 1.0
  {
    MitigatedExactlyWhenSpent(z, candles, from);
    if first.Some? {
      SettledOnceSpent(z, candles, from, first.value, |candles|);
      FractionIsFull(deepest, Size(z));
    }
  }

  // ------------------------------------------------------------------------ gaps and blocks

  class Gap {
    const zone: Zone
    var filledPercentage: real
    var mitigated: bool
    var invalidated: bool

    constructor (zone: Zone)
      ensures this.zone == zone && filledPercentage == 0.0 && !mitigated && !invalidated
    {
      this.zone := zone;
      filledPercentage, mitigated, invalidated := 0.0, false, false;
    }

    /** The gap's fields are those of a scan of every candle after it; `invalidated` alone is that
        of the candle that settled it. */
    ghost predicate Graded(candles: seq<Candle>)
      reads this
    {
      && filledPercentage == Filled(zone, candles, zone.createdIndex + 1)
      && mitigated == Mitigated(zone, candles, zone.createdIndex + 1)
      && (invalidated <==>
          exists i: nat :: SpentAt(zone, candles, zone.createdIndex + 1, i) && Engulfs(zone, candles[i]))
    }
  }

  class Block {
    const zone: Zone
    const causedEventIndex: nat
    const strength: real
    var filledPercentage: real
    var mitigated: bool
    var invalidated: bool
    var mitigatedIndex: Option<nat>

    constructor (zone: Zone, causedEventIndex: nat, strength: real)
      ensures this.zone == zone && this.causedEventIndex == causedEventIndex && this.strength == strength
      ensures filledPercentage == 0.0 && !mitigated && !invalidated && mitigatedIndex == None
    {
      this.zone, this.causedEventIndex, this.strength := zone, causedEventIndex, strength;
      filledPercentage, mitigated, invalidated, mitigatedIndex := 0.0, false, false, None;
    }

    /** As for a gap, from the break that made the block on; `mitigatedIndex` is the first candle
        that spends it. */
    ghost predicate Graded(candles: seq<Candle>)
      reads this
    {
      Settles(zone, candles, causedEventIndex + 1, filledPercentage, mitigated, invalidated, mitigatedIndex)
    }

    /** The strength is that of the break, the gaps being those given. */
    ghost predicate IsScored(candles: seq<Candle>, gaps: seq<Zone>) {
      causedEventIndex < |candles| && strength == Strength(candles, gaps, zone.side, causedEventIndex)
    }
  }

  /** `update_mitigation` of the gap module, for gaps just made. */
  method UpdateGaps(candles: seq<Candle>, gaps: seq<Gap>)
    requires forall i, j :: 0 <= i < j < |gaps| ==> gaps[i] != gaps[j]
    requires forall i :: 0 <= i < |gaps| ==> !gaps[i].invalidated
    modifies set g | g in gaps
    ensures forall i :: 0 <= i < |gaps| ==> gaps[i].Graded(candles)
  {
    for n := 0 to |gaps|
      invariant forall i :: 0 <= i < n ==> gaps[i].Graded(candles)
    {
      var g := gaps[n];
      var filled, mitigated, invalidated, first := ScanZone(candles, g.zone, g.zone.createdIndex + 1);
      g.filledPercentage, g.mitigated, g.invalidated := filled, mitigated, invalidated;
      assert g.Graded(candles);
    }
  }

  /** `update_mitigation` of the block module, for blocks just made. */
  method UpdateBlocks(candles: seq<Candle>, blocks: seq<Block>)
    requires forall i, j :: 0 <= i < j < |blocks| ==> blocks[i] != blocks[j]
    requires forall i :: 0 <= i < |blocks| ==> !blocks[i].invalidated && blocks[i].mitigatedIndex == None
    modifies set b | b in blocks
    ensures forall i :: 0 <= i < |blocks| ==> blocks[i].Graded(candles)
  {
    for n := 0 to |blocks|
      invariant forall i :: 0 <= i < n ==> blocks[i].Graded(candles)
    {
      var b := blocks[n];
      var filled, mitigated, invalidated, first := ScanZone(candles, b.zone, b.causedEventIndex + 1);
      b.filledPercentage, b.mitigated, b.invalidated := filled, mitigated, invalidated;
      b.mitigatedIndex := if mitigated then first else None;
    }
  }

  // ---------------------------------------------------------------------------- finding gaps

  function GapPercent(wide: real, from: real): real {
    if from == 0.0 then 0.0 else wide / from * 100.0
  }

  function GapsAt(candles: seq<Candle>, i: nat, minGap: real): seq<Zone>
    requires 2 <= i < |candles|
  {
    var c0, c2, at := candles[i - 2], candles[i], candles[i - 1].timestamp;
    (if c0.high < c2.low && GapPercent(c2.low - c0.high, c0.high) >= minGap
     then [Zone(BULLISH, c2.low, c0.high, i, at)] else []) +
    (if c0.low > c2.high && GapPercent(c0.low - c2.high, c2.high) >= minGap
     then [Zone(BEARISH, c0.low, c2.high, i, at)] else [])
  }

  /** The gaps completed at candles below `n`. */
  function GapsFound(candles: seq<Candle>, minGap: real, n: nat): seq<Zone>
    requires n <= |candles|
  {
    if n <= 2 then [] else GapsFound(candles, minGap, n - 1) + GapsAt(candles, n - 1, minGap)
  }

  ghost function ZonesOf(gaps: seq<Gap>): (zones: seq<Zone>) {
    seq(|gaps|, i requires 0 <= i < |gaps| => gaps[i].zone)
  }

  lemma ZonesConcat(gaps: seq<Gap>, more: seq<Gap>)
    ensures ZonesOf(gaps + more) == ZonesOf(gaps) + ZonesOf(more)
  {}

  /** Gaps no two of which are one object, none graded yet. */
  ghost predicate JustMade(gaps: seq<Gap>)
    reads gaps
  {
    && (forall a, b :: 0 <= a < b < |gaps| ==> gaps[a] != gaps[b])
    && (forall a :: 0 <= a < |gaps| ==> !gaps[a].invalidated)
  }

  /** The gaps completed at one candle. */
  method GapsHere(candles: seq<Candle>, i: nat, minGap: real) returns (found: seq<Gap>)
    requires 2 <= i < |candles|
    ensures fresh(set g | g in found) && JustMade(found)
    ensures ZonesOf(found) == GapsAt(candles, i, minGap)
  {
    hide GapPercent;
    var c0, c2 := candles[i - 2], candles[i];
    found := [];
    if c0.high < c2.low {
      if GapPercent(c2.low - c0.high, c0.high) >= minGap {
        var g := new Gap(Zone(BULLISH, c2.low, c0.high, i, candles[i - 1].timestamp));
        found := found + [g];
      }
    }
    if c0.low > c2.high {
      if GapPercent(c0.low - c2.high, c2.high) >= minGap {
        var g := new Gap(Zone(BEARISH, c0.low, c2.high, i, candles[i - 1].timestamp));
        found := found + [g];
      }
    }
  }

  /** `detect_fvgs`. */
  method DetectFvgs(candles: seq<Candle>, minGap: real) returns (gaps: seq<Gap>)
    ensures fresh(set g | g in gaps)
    ensures ZonesOf(gaps) == GapsFound(candles, minGap, |candles|)
    ensures forall i :: 0 <= i < |gaps| ==> gaps[i].Graded(candles)
  {
    hide GapsAt;
    gaps := [];
    var i := 2;
    while i < |candles|
      invariant 2 <= i
      invariant fresh(set g | g in gaps) && JustMade(gaps)
      invariant ZonesOf(gaps) == GapsFound(candles, minGap, if i <= |candles| then i else |candles|)
    {
      var found := GapsHere(candles, i, minGap);
      ZonesConcat(gaps, found);
      gaps := gaps + found;
      i := i + 1;
    }
    UpdateGaps(candles, gaps);
  }

  /** The zones made at candles before `k`. */
  function MadeBefore(zones: seq<Zone>, k: nat): seq<Zone> {
    if zones == [] then []
    else
      var n := |zones| - 1;
      MadeBefore(zones[..n], k) + if zones[n].createdIndex < k then [zones[n]] else []
  }

  lemma {:induction false} MadeBeforeAppends(a: seq<Zone>, b: seq<Zone>, k: nat)
    ensures MadeBefore(a + b, k) == MadeBefore(a, k) + MadeBefore(b, k)
  {
    if b == [] {
      assert a + b == a;
    } else {
      var n := |b| - 1;
      assert (a + b)[..|a| + n] == a + b[..n];
      MadeBeforeAppends(a, b[..n], k);
    }
  }

  lemma {:induction false} AllMadeAt(zones: seq<Zone>, i: nat, k: nat)
    requires forall j :: 0 <= j < |zones| ==> zones[j].createdIndex == i
    ensures MadeBefore(zones, k) == if i < k then zones else []
  {
    if zones != [] {
      AllMadeAt(zones[..|zones| - 1], i, k);
    }
  }

  lemma {:induction false} GapsFoundBefore(candles: seq<Candle>, minGap: real, k: nat, n: nat)
    requires k <= |candles| && n <= |candles|
    ensures MadeBefore(GapsFound(candles, minGap, n), k) == GapsFound(candles, minGap, if n < k then n else k)
  {
    if n > 2 {
      GapsFoundBefore(candles, minGap, k, n - 1);
      MadeBeforeAppends(GapsFound(candles, minGap, n - 1), GapsAt(candles, n - 1, minGap), k);
      AllMadeAt(GapsAt(candles, n - 1, minGap), n - 1, k);
    }
  }

  lemma {:induction false} GapsFoundOfPrefix(candles: seq<Candle>, minGap: real, k: nat, n: nat)
    requires n <= k <= |candles|
    ensures GapsFound(candles[..k], minGap, n) == GapsFound(candles, minGap, n)
  {
    if n > 2 {
      GapsFoundOfPrefix(candles, minGap, k, n - 1);
    }
  }

  lemma {:induction false} DeepestGrows(z: Zone, candles: seq<Candle>, from: nat, k: nat, n: nat)
    requires k <= n <= |candles|
    ensures Deepest(z, candles[..k], from, k) <= Deepest(z, candles, from, n)
    decreases n
  {
    if n > k {
      DeepestGrows(z, candles, from, k, n - 1);
    } else {
      DeepestOfPrefix(z, candles, from, k, k);
    }
  }

  lemma {:induction false} DeepestOfPrefix(z: Zone, candles: seq<Candle>, from: nat, k: nat, n: nat)
    requires n <= k <= |candles|
    ensures Deepest(z, candles[..k], from, n) == Deepest(z, candles, from, n)
  {
    if n > from {
      DeepestOfPrefix(z, candles, from, k, n - 1);
    }
  }

  lemma FractionGrows(shallow: real, deep: real, size: real)
    requires 0.0 <= shallow <= deep && size >= 0.0
    ensures Fraction(shallow, size) <= Fraction(deep, size)
  {
    if size > 0.0 {
      DivOrder(deep, size, deep / size);
      DivOrder(shallow, size, deep / size);
    }
  }

  /** As a history grows, what a zone is filled to only grows, and once mitigated it stays so. */
  lemma MitigationOnlyGrows(z: Zone, candles: seq<Candle>, from: nat, k: nat)
    requires k <= |candles|
    ensures Filled(z, candles[..k], from) <= Filled(z, candles, from)
    ensures Mitigated(z, candles[..k], from) ==> Mitigated(z, candles, from)
  {
    DeepestGrows(z, candles, from, k, |candles|);
    DeepestReachesSize(z, candles[..k], from, k);
    FractionGrows(Deepest(z, candles[..k], from, k), Deepest(z, candles, from, |candles|), Size(z));
    MitigatedExactlyWhenSpent(z, candles[..k], from);
    MitigatedExactlyWhenSpent(z, candles, from);
  }

  /** The gaps of a truncated history are exactly the gaps of the whole one made before the cut, in
      every field they are created with. */
  lemma GapsDoNotLookAhead(candles: seq<Candle>, minGap: real, k: nat)
    requires k <= |candles|
    ensures GapsFound(candles[..k], minGap, k) == MadeBefore(GapsFound(candles, minGap, |candles|), k)
  {
    GapsFoundOfPrefix(candles, minGap, k, k);
    GapsFoundBefore(candles, minGap, k, |candles|);
  }

  /** A candle spends the zone without engulfing it, before any other has spent it, and a later
      one engulfs it. */
  ghost predicate FilledThenEngulfed(z: Zone, candles: seq<Candle>, from: nat) {
    exists i: nat, k: nat ::
      SpentAt(z, candles, from, i) && !Engulfs(z, candles[i]) && i < k < |candles| && Engulfs(z, candles[k])
  }

  /** `invalidated` is the one field the early exit need not settle as a full scan would: it is
      never set where the full scan would not set it, and it is left unset where the full scan
      would set it exactly when the zone was filled gradually and engulfed only later. */
  lemma ExitVerdictIff(z: Zone, candles: seq<Candle>, from: nat, invalidated: bool)
    requires invalidated <==> exists i: nat :: SpentAt(z, candles, from, i) && Engulfs(z, candles[i])
    ensures invalidated ==> EngulfedLater(z, candles, from)
    ensures (invalidated == EngulfedLater(z, candles, from)) <==> !FilledThenEngulfed(z, candles, from)
  {
    if EngulfedLater(z, candles, from) {
      var k: nat :| from <= k < |candles| && Engulfs(z, candles[k]);
      DepthReachesSize(z, candles[k]);
      var i := FirstSpent(z, candles, from, k);
      assert i == k || (i < k && SpentAt(z, candles, from, i));
    }
  }

  lemma {:induction false} FirstSpent(z: Zone, candles: seq<Candle>, from: nat, k: nat) returns (i: nat)
    requires from <= k < |candles| && Spends(z, candles[k])
    ensures i <= k && SpentAt(z, candles, from, i)
  {
    if j :| from <= j < k && Spends(z, candles[j]) {
      i := FirstSpent(z, candles, from, j);
    } else {
      i := k;
    }
  }

  lemma GapInvalidatedIff(g: Gap, candles: seq<Candle>)
    requires g.Graded(candles)
    ensures var from := g.zone.createdIndex + 1;
            && (g.invalidated ==> EngulfedLater(g.zone, candles, from))
            && (g.invalidated == EngulfedLater(g.zone, candles, from) <==> !FilledThenEngulfed(g.zone, candles, from))
  {
    ExitVerdictIff(g.zone, candles, g.zone.createdIndex + 1, g.invalidated);
  }

  lemma BlockInvalidatedIff(b: Block, candles: seq<Candle>)
    requires b.Graded(candles)
    ensures var from := b.causedEventIndex + 1;
            && (b.invalidated ==> EngulfedLater(b.zone, candles, from))
            && (b.invalidated == EngulfedLater(b.zone, candles, from) <==> !FilledThenEngulfed(b.zone, candles, from))
  {
    if b.mitigatedIndex.Some? {
      assert SpentAt(b.zone, candles, b.causedEventIndex + 1, b.mitigatedIndex.value);
    }
    ExitVerdictIff(b.zone, candles, b.causedEventIndex + 1, b.invalidated);
  }

  /** A gap from 10 to 20, a candle that trades through it from 15 down to 5, then one from 5 to 25. */
  const GRADUAL_FILL := [
    Candle(0, 9.0, 10.0, 8.0, 9.0, 1.0),
    Candle(60, 9.0, 22.0, 8.0, 21.0, 1.0),
    Candle(120, 21.0, 22.0, 20.0, 21.0, 1.0),
    Candle(180, 14.0, 15.0, 5.0, 6.0, 1.0),
    Candle(240, 6.0, 25.0, 5.0, 24.0, 1.0)]

  /** The difference is real: `detect_fvgs` finds one gap in this history, and after grading its
      flag is unset although a later candle engulfed it. */
  lemma EngulfedAfterTheExit(g: Gap)
    requires ZonesOf([g]) == GapsFound(GRADUAL_FILL, 0.0, |GRADUAL_FILL|) && g.Graded(GRADUAL_FILL)
    ensures g.zone == Zone(BULLISH, 20.0, 10.0, 2, 60)
    ensures g.mitigated && !g.invalidated && EngulfedLater(g.zone, GRADUAL_FILL, 3)
  {
    GradualFillGap();
    var z := Zone(BULLISH, 20.0, 10.0, 2, 60);
    assert ZonesOf([g])[0] == g.zone == z;
    assert SpentAt(z, GRADUAL_FILL, 3, 3) && Engulfs(z, GRADUAL_FILL[4]);
    MitigatedExactlyWhenSpent(z, GRADUAL_FILL, 3);
    GapInvalidatedIff(g, GRADUAL_FILL);
  }

  lemma GradualFillGap()
    ensures GapsFound(GRADUAL_FILL, 0.0, |GRADUAL_FILL|) == [Zone(BULLISH, 20.0, 10.0, 2, 60)]
  {
    assert GapPercent(10.0, 10.0) == 100.0;
    assert GapsAt(GRADUAL_FILL, 2, 0.0) == [Zone(BULLISH, 20.0, 10.0, 2, 60)];
    assert GapsAt(GRADUAL_FILL, 3, 0.0) == [];
    assert GapsAt(GRADUAL_FILL, 4, 0.0) == [];
    assert GapsFound(GRADUAL_FILL, 0.0, 2) == [];
    assert GapsFound(GRADUAL_FILL, 0.0, 3) == [Zone(BULLISH, 20.0, 10.0, 2, 60)];
    assert GapsFound(GRADUAL_FILL, 0.0, 4) == [Zone(BULLISH, 20.0, 10.0, 2, 60)];
  }

  // -------------------------------------------------------------------------- finding blocks

  /** The colour a block's origin must have: opposite to the break. */
  predicate Against(c: Candle, side: Side) {
    if side.BULLISH? then c.close < c.open else c.close > c.open
  }

  /** The last opposite candle within the look-back before the break. */
  function Origin(candles: seq<Candle>, side: Side, before: nat, stop: nat): Option<nat>
    requires before <= |candles|
  {
    if before <= stop then None
    else if Against(candles[before - 1], side) then Some(before - 1)
    else Origin(candles, side, before - 1, stop)
  }

  function SearchFrom(index: nat, lookback: nat): nat {
    if index < lookback then 0 else index - lookback
  }

  lemma {:induction false} OriginIsLastOpposite(candles: seq<Candle>, side: Side, before: nat, stop: nat)
    requires before <= |candles|
    ensures match Origin(candles, side, before, stop)
            case None => forall j :: stop <= j < before ==> !Against(candles[j], side)
            case Some(o) =>
              && stop <= o < before && Against(candles[o], side)
              && forall j :: o < j < before ==> !Against(candles[j], side)
  {
    if before > stop && !Against(candles[before - 1], side) {
      OriginIsLastOpposite(candles, side, before - 1, stop);
    }
  }

  /** A block as made, before it is graded. */
  datatype Made = Made(zone: Zone, causedEventIndex: nat)

  function BlockOf(candles: seq<Candle>, e: Event, lookback: nat): seq<Made>
    requires e.index < |candles|
  {
    OriginIsLastOpposite(candles, e.side, e.index, SearchFrom(e.index, lookback));
    match Origin(candles, e.side, e.index, SearchFrom(e.index, lookback))
    case None => []
    case Some(o) => [Made(Zone(e.side, candles[o].high, candles[o].low, o, candles[o].timestamp), e.index)]
  }

  predicate EventsWithin(events: seq<Event>, n: nat) {
    forall i :: 0 <= i < |events| ==> events[i].index < n
  }

  function BlocksFound(candles: seq<Candle>, events: seq<Event>, lookback: nat): seq<Made>
    requires EventsWithin(events, |candles|)
  {
    if events == [] then []
    else
      var n := |events| - 1;
      BlocksFound(candles, events[..n], lookback) + BlockOf(candles, events[n], lookback)
  }

  ghost function MadeOf(blocks: seq<Block>): (made: seq<Made>) {
    seq(|blocks|, i requires 0 <= i < |blocks| => Made(blocks[i].zone, blocks[i].causedEventIndex))
  }

  // ------------------------------------------------------------------------ a block's strength

  /** The candles a break is measured against: up to fourteen before it, or itself if it is first. */
  function Window(candles: seq<Candle>, end: nat): (w: seq<Candle>)
    requires end < |candles|
    ensures w != []
  {
    if end == 0 then candles[..1] else candles[SearchFrom(end, 14)..end]
  }

  function Ranges(w: seq<Candle>): seq<real> {
    seq(|w|, i requires 0 <= i < |w| => w[i].high - w[i].low)
  }

  function Volumes(w: seq<Candle>): seq<real> {
    seq(|w|, i requires 0 <= i < |w| => w[i].volume)
  }

  const TINY := 0.000000001

  /** An average, with zero replaced so it can divide. */
  function AverageOrTiny(xs: seq<real>): (a: real)
    requires xs != []
    ensures a != 0.0
  {
    var a := Sum(xs) / |xs| as real;
    if a == 0.0 then TINY else a
  }

  /** Twice the average, or more, scores one. */
  function Score(value: real, average: real): real
    requires average != 0.0
  {
    Min(value / average, 2.0) / 2.0
  }

  function DisplacementScore(candles: seq<Candle>, index: nat): real
    requires index < |candles|
  {
    Score(candles[index].high - candles[index].low, AverageOrTiny(Ranges(Window(candles, index))))
  }

  function VolumeScore(candles: seq<Candle>, index: nat): real
    requires index < |candles|
  {
    var average := AverageOrTiny(Volumes(Window(candles, index)));
    if average > TINY then Score(candles[index].volume, average) else 0.5
  }

  /** A gap of the break's own side completed within two candles of it, before or after. */
  predicate IsAdjacent(z: Zone, side: Side, index: nat) {
    z.side == side && index - 2 <= z.createdIndex <= index + 2
  }

  predicate HasAdjacent(gaps: seq<Zone>, side: Side, index: nat) {
    exists n :: 0 <= n < |gaps| && IsAdjacent(gaps[n], side, index)
  }

  function Weighted(displacement: real, adjacent: bool, volume: real): real {
    0.5 * displacement + 0.3 * (if adjacent then 1.0 else 0.0) + 0.2 * volume
  }

  function Strength(candles: seq<Candle>, gaps: seq<Zone>, side: Side, index: nat): real
    requires index < |candles|
  {
    Weighted(DisplacementScore(candles, index), HasAdjacent(gaps, side, index), VolumeScore(candles, index))
  }

  predicate Listed(sides: map<int, set<Side>>, i: int, side: Side) {
    i in sides && side in sides[i]
  }

  predicate CompletedAt(zones: seq<Zone>, i: int, side: Side) {
    exists n :: 0 <= n < |zones| && zones[n].createdIndex == i && zones[n].side == side
  }

  lemma CompletedAtAppend(zones: seq<Zone>, z: Zone, i: int, side: Side)
    ensures CompletedAt(zones + [z], i, side) <==>
              CompletedAt(zones, i, side) || (z.createdIndex == i && z.side == side)
  {
    var more := zones + [z];
    assert more[|zones|] == z;
    if CompletedAt(zones, i, side) {
      var n :| 0 <= n < |zones| && zones[n].createdIndex == i && zones[n].side == side;
      assert more[n] == zones[n];
    }
  }

  /** The sides of the gaps completed at each candle. */
  method IndexGaps(gaps: seq<Gap>) returns (sides: map<int, set<Side>>)
    ensures forall i, side :: Listed(sides, i, side) <==> CompletedAt(ZonesOf(gaps), i, side)
  {
    sides := map[];
    for n := 0 to |gaps|
      invariant forall i, side :: Listed(sides, i, side) <==> CompletedAt(ZonesOf(gaps[..n]), i, side)
    {
      var z := gaps[n].zone;
      ghost var before := sides;
      sides := sides[z.createdIndex := (if z.createdIndex in sides then sides[z.createdIndex] else {}) + {z.side}];
      assert ZonesOf(gaps[..n + 1]) == ZonesOf(gaps[..n]) + [z];
      hide CompletedAt;
      forall i, side
        ensures Listed(sides, i, side) <==> CompletedAt(ZonesOf(gaps[..n + 1]), i, side)
      {
        CompletedAtAppend(ZonesOf(gaps[..n]), z, i, side);
        assert Listed(before, i, side) <==> CompletedAt(ZonesOf(gaps[..n]), i, side);
      }
    }
    assert gaps[..|gaps|] == gaps;
  }

  /** Five lookups answer what a scan of every gap would. */
  method AdjacentGap(ghost zones: seq<Zone>, sides: map<int, set<Side>>, side: Side, index: nat) returns (found: bool)
    requires forall i, s :: Listed(sides, i, s) <==> CompletedAt(zones, i, s)
    ensures found == HasAdjacent(zones, side, index)
  {
    found := false;
    var i: int := index - 2;
    while i < index + 3 && !found
      invariant index - 2 <= i <= index + 3
      invariant !found ==> forall k :: index - 2 <= k < i ==> !Listed(sides, k, side)
      invariant found ==> i < index + 3 && Listed(sides, i, side)
      decreases index + 3 - i, !found
    {
      if i in sides && side in sides[i] {
        found := true;
      } else {
        i := i + 1;
      }
    }
    if found {
      assert CompletedAt(zones, i, side);
      ghost var n :| 0 <= n < |zones| && zones[n].createdIndex == i && zones[n].side == side;
      assert IsAdjacent(zones[n], side, index);
    } else {
      forall n | 0 <= n < |zones| ensures !IsAdjacent(zones[n], side, index) {
        var at := zones[n].createdIndex;
        assert Listed(sides, at, side) <==> CompletedAt(zones, at, side);
      }
    }
  }

  lemma ScoreBounds(value: real, average: real)
    requires value >= 0.0 && average > 0.0
    ensures 0.0 <= Score(value, average) <= 1.0
  {
    DivOrder(value, average, 0.0);
  }

  lemma {:induction false} SumNotNegative(xs: seq<real>)
    requires forall i :: 0 <= i < |xs| ==> xs[i] >= 0.0
    ensures Sum(xs) >= 0.0
  {
    if xs != [] {
      SumNotNegative(xs[1..]);
    }
  }

  lemma AverageIsPositive(xs: seq<real>)
    requires xs != [] && forall i :: 0 <= i < |xs| ==> xs[i] >= 0.0
    ensures AverageOrTiny(xs) > 0.0
  {
    SumNotNegative(xs);
    DivOrder(Sum(xs), |xs| as real, 0.0);
  }

  predicate SoundCandle(c: Candle) {
    c.low <= c.high && c.volume >= 0.0
  }

  /** On candles with low <= high and no negative volume, a strength lies in [0, 1]; and the part of
      it that a gap decides is three tenths. */
  lemma StrengthWithinUnit(candles: seq<Candle>, gaps: seq<Zone>, side: Side, index: nat)
    requires index < |candles| && forall i :: 0 <= i < |candles| ==> SoundCandle(candles[i])
    ensures 0.0 <= Strength(candles, gaps, side, index) <= 1.0
    ensures HasAdjacent(gaps, side, index) <==>
              Strength(candles, gaps, side, index) == Strength(candles, [], side, index) + 0.3
  {
    var w := Window(candles, index);
    assert SoundCandle(candles[index]);
    forall i | 0 <= i < |w| ensures SoundCandle(w[i]) {
      if index > 0 {
        assert w[i] == candles[SearchFrom(index, 14) + i];
      }
    }
    AverageIsPositive(Ranges(w));
    AverageIsPositive(Volumes(w));
    var c := candles[index];
    ScoreBounds(c.high - c.low, AverageOrTiny(Ranges(w)));
    ScoreBounds(c.volume, AverageOrTiny(Volumes(w)));
    StrengthParts(candles, gaps, side, index);
    StrengthParts(candles, [], side, index);
    hide Score, AverageOrTiny, Window, Strength;
  }

  lemma WindowOfPrefix(candles: seq<Candle>, k: nat, index: nat)
    requires index < k <= |candles|
    ensures Window(candles[..k], index) == Window(candles, index)
  {}

  /** What later candles can do to a strength: a truncated history gives the same one exactly when it
      has an adjacent gap or the whole history has none either; otherwise it is three tenths short.
      Two candles after the break it is final. */
  lemma StrengthLooksTwoAhead(candles: seq<Candle>, minGap: real, side: Side, index: nat, k: nat)
    requires index < k <= |candles|
    ensures var all, cut := GapsFound(candles, minGap, |candles|), GapsFound(candles[..k], minGap, k);
            var final, seen := Strength(candles, all, side, index), Strength(candles[..k], cut, side, index);
            && (seen == final <==> (HasAdjacent(all, side, index) ==> HasAdjacent(cut, side, index)))
            && (seen != final ==> seen == final - 0.3)
            && (index + 2 < k ==> seen == final)
  {
    hide *;
    var all, cut := GapsFound(candles, minGap, |candles|), GapsFound(candles[..k], minGap, k);
    GapsDoNotLookAhead(candles, minGap, k);
    AdjacentBefore(all, k, side, index);
    ScoresOfPrefix(candles, k, index);
    StrengthParts(candles, all, side, index);
    StrengthParts(candles[..k], cut, side, index);
  }

  /** Cutting off later gaps takes an adjacent one away only within two candles of the break. */
  lemma AdjacentBefore(all: seq<Zone>, k: nat, side: Side, index: nat)
    ensures HasAdjacent(MadeBefore(all, k), side, index) ==> HasAdjacent(all, side, index)
    ensures index + 2 < k && HasAdjacent(all, side, index) ==> HasAdjacent(MadeBefore(all, k), side, index)
  {
    var cut := MadeBefore(all, k);
    MadeBeforeHas(all, k);
    hide MadeBefore;
    if HasAdjacent(cut, side, index) {
      var n :| 0 <= n < |cut| && IsAdjacent(cut[n], side, index);
      assert cut[n] in cut;
    }
    if HasAdjacent(all, side, index) && index + 2 < k {
      var n :| 0 <= n < |all| && IsAdjacent(all[n], side, index);
      assert all[n] in all;
    }
  }

  lemma ScoresOfPrefix(candles: seq<Candle>, k: nat, index: nat)
    requires index < k <= |candles|
    ensures DisplacementScore(candles[..k], index) == DisplacementScore(candles, index)
    ensures VolumeScore(candles[..k], index) == VolumeScore(candles, index)
  {
    WindowOfPrefix(candles, k, index);
    hide Window, Score, AverageOrTiny, Ranges, Volumes;
  }

  lemma StrengthParts(candles: seq<Candle>, gaps: seq<Zone>, side: Side, index: nat)
    requires index < |candles|
    ensures Strength(candles, gaps, side, index)
            == (0.5 * DisplacementScore(candles, index) + 0.2 * VolumeScore(candles, index))
               + (if HasAdjacent(gaps, side, index) then 0.3 else 0.0)
  {
    hide DisplacementScore, VolumeScore, HasAdjacent;
  }

  /** The prices from which a gap in a break's direction is measured are positive. */
  predicate Quoted(c: Candle, side: Side) {
    if side.BULLISH? then c.high > 0.0 else c.low > 0.0
  }

  /** How many times over, or under, a price a gap of at least `minGap` percent leaves it. */
  function Reach(minGap: real): (k: real)
    ensures k >= 2.0
  {
    2.0 + Max(minGap, 0.0) / 100.0
  }

  /** A price far enough beyond a candle, on the break's side, to complete a gap with it. */
  function FarPrice(c: Candle, side: Side, minGap: real): real {
    if side.BULLISH? then c.high * Reach(minGap) else c.low / Reach(minGap)
  }

  lemma FarEnough(from: real, far: real, minGap: real)
    requires from > 0.0 && far == from * Reach(minGap)
    ensures far > from && GapPercent(far - from, from) >= minGap
  {
    var k := Reach(minGap);
    assert far - from == from * (k - 1.0) >= from > 0.0;
    DivMul(from * (k - 1.0), from);
    SameFactor(from * (k - 1.0) / from, k - 1.0, from);
  }

  lemma SameFactor(x: real, y: real, z: real)
    requires z > 0.0 && x * z == y * z
    ensures x == y
  {
    assert (x - y) * z == 0.0;
  }

  lemma ReachDown(from: real, minGap: real)
    requires from > 0.0
    ensures var low := from / Reach(minGap); 0.0 < low < from && low * Reach(minGap) == from
  {
    var k := Reach(minGap);
    DivMul(from, k);
    DivOrder(from, k, 0.0);
    assert from <= from * k / 2.0;
    DivOrder(from, k, from);
  }

  function FarCandle(c: Candle, side: Side, minGap: real): Candle {
    var p := FarPrice(c, side, minGap);
    Candle(0, p, p, p, p, 0.0)
  }

  /** Such a candle two after `c` completes a gap of the break's side. */
  lemma FarCandleCompletesGap(candles: seq<Candle>, side: Side, minGap: real, index: nat)
    requires index + 2 < |candles| && Quoted(candles[index], side)
    requires candles[index + 2] == FarCandle(candles[index], side, minGap)
    ensures exists z :: z in GapsAt(candles, index + 2, minGap) && z.side == side && z.createdIndex == index + 2
  {
    hide GapsAt, GapPercent, Reach;
    var c0, p := candles[index], FarPrice(candles[index], side, minGap);
    if side.BULLISH? {
      FarEnough(c0.high, p, minGap);
      GapAbove(candles, minGap, index);
    } else {
      ReachDown(c0.low, minGap);
      FarEnough(p, c0.low, minGap);
      GapBelow(candles, minGap, index);
    }
  }

  lemma GapAbove(candles: seq<Candle>, minGap: real, index: nat)
    requires index + 2 < |candles| && candles[index].high < candles[index + 2].low
    requires GapPercent(candles[index + 2].low - candles[index].high, candles[index].high) >= minGap
    ensures exists z :: z in GapsAt(candles, index + 2, minGap) && z.side == BULLISH && z.createdIndex == index + 2
  {
    hide GapPercent;
    var z := Zone(BULLISH, candles[index + 2].low, candles[index].high, index + 2, candles[index + 1].timestamp);
    assert z in GapsAt(candles, index + 2, minGap);
  }

  lemma GapBelow(candles: seq<Candle>, minGap: real, index: nat)
    requires index + 2 < |candles| && candles[index].low > candles[index + 2].high
    requires GapPercent(candles[index].low - candles[index + 2].high, candles[index + 2].high) >= minGap
    ensures exists z :: z in GapsAt(candles, index + 2, minGap) && z.side == BEARISH && z.createdIndex == index + 2
  {
    hide GapPercent;
    var z := Zone(BEARISH, candles[index].low, candles[index + 2].high, index + 2, candles[index + 1].timestamp);
    assert z in GapsAt(candles, index + 2, minGap);
  }

  /** A continuation that completes a gap two candles after the break, if that is still to come. */
  function FarContinuation(seen: seq<Candle>, side: Side, minGap: real, index: nat): seq<Candle>
    requires index < |seen| <= index + 2
  {
    var far := FarCandle(seen[index], side, minGap);
    if |seen| == index + 1 then [far, far] else [far]
  }

  lemma FarContinuationIsAdjacent(seen: seq<Candle>, side: Side, minGap: real, index: nat)
    requires index < |seen| <= index + 2 && Quoted(seen[index], side)
    ensures var whole := seen + FarContinuation(seen, side, minGap, index);
            HasAdjacent(GapsFound(whole, minGap, |whole|), side, index)
  {
    hide FarCandle, GapsAt;
    var whole := seen + FarContinuation(seen, side, minGap, index);
    assert |whole| == index + 3 && whole[index] == seen[index];
    FarCandleCompletesGap(whole, side, minGap, index);
    var z :| z in GapsAt(whole, index + 2, minGap) && z.side == side && z.createdIndex == index + 2;
    var gaps := GapsFound(whole, minGap, |whole|);
    assert z in gaps;
    var n :| 0 <= n < |gaps| && gaps[n] == z;
    assert IsAdjacent(gaps[n], side, index);
  }

  ghost function StrengthOf(candles: seq<Candle>, minGap: real, side: Side, index: nat): real
    requires index < |candles|
  {
    Strength(candles, GapsFound(candles, minGap, |candles|), side, index)
  }

  ghost predicate UnmovedBy(seen: seq<Candle>, more: seq<Candle>, minGap: real, side: Side, index: nat)
    requires index < |seen|
  {
    StrengthOf(seen + more, minGap, side, index) == StrengthOf(seen, minGap, side, index)
  }

  /** When a block's strength is final, told from what has been seen: no continuation of the history
      changes it if and only if an adjacent gap is there already or two candles have followed the
      break. */
  lemma StrengthIsFinalIff(seen: seq<Candle>, minGap: real, side: Side, index: nat)
    requires index < |seen| && Quoted(seen[index], side)
    ensures (forall more :: UnmovedBy(seen, more, minGap, side, index)) <==>
            HasAdjacent(GapsFound(seen, minGap, |seen|), side, index) || index + 2 < |seen|
  {
    var gaps := GapsFound(seen, minGap, |seen|);
    if HasAdjacent(gaps, side, index) || index + 2 < |seen| {
      forall more ensures UnmovedBy(seen, more, minGap, side, index) {
        assert (seen + more)[..|seen|] == seen;
        StrengthLooksTwoAhead(seen + more, minGap, side, index, |seen|);
      }
    } else {
      var more := FarContinuation(seen, side, minGap, index);
      FarContinuationIsAdjacent(seen, side, minGap, index);
      assert (seen + more)[..|seen|] == seen;
      StrengthLooksTwoAhead(seen + more, minGap, side, index, |seen|);
      assert !UnmovedBy(seen, more, minGap, side, index);
    }
  }

  lemma {:induction false} MadeBeforeHas(zones: seq<Zone>, k: nat)
    ensures forall z :: z in MadeBefore(zones, k) <==> z in zones && z.createdIndex < k
  {
    if zones != [] {
      MadeBeforeHas(zones[..|zones| - 1], k);
    }
  }

  /** It does look ahead: with this history cut after the break at candle 1, the gap that candle 2
      completes is still to come. */
  lemma StrengthRepaints()
    ensures Strength(GRADUAL_FILL[..2], GapsFound(GRADUAL_FILL[..2], 0.0, 2), BULLISH, 1)
            == Strength(GRADUAL_FILL, GapsFound(GRADUAL_FILL, 0.0, |GRADUAL_FILL|), BULLISH, 1) - 0.3
  {
    GradualFillGap();
    var all := GapsFound(GRADUAL_FILL, 0.0, |GRADUAL_FILL|);
    assert IsAdjacent(all[0], BULLISH, 1);
    assert GapsFound(GRADUAL_FILL[..2], 0.0, 2) == [];
    hide Strength, GapsFound;
    StrengthLooksTwoAhead(GRADUAL_FILL, 0.0, BULLISH, 1, 2);
  }

  /** The backward search for a break's origin. */
  method FindOrigin(candles: seq<Candle>, side: Side, before: nat, stop: nat) returns (origin: Option<nat>)
    requires before <= |candles|
    ensures origin == Origin(candles, side, before, stop)
    ensures origin.Some? ==> origin.value < before
  {
    OriginIsLastOpposite(candles, side, before, stop);
    var j: int := before - 1;
    while j >= stop
      invariant -1 <= j < before
      invariant Origin(candles, side, before, stop) == Origin(candles, side, j + 1, stop)
    {
      if Against(candles[j], side) {
        return Some(j);
      }
      j := j - 1;
    }
    origin := None;
  }

  /** `detect_order_blocks`. */
  method DetectOrderBlocks(candles: seq<Candle>, events: seq<Event>, gaps: seq<Gap>, lookback: nat)
    returns (blocks: seq<Block>)
    requires EventsWithin(events, |candles|)
    ensures fresh(set b | b in blocks)
    ensures MadeOf(blocks) == BlocksFound(candles, events, lookback)
    ensures forall i :: 0 <= i < |blocks| ==> blocks[i].Graded(candles) && blocks[i].IsScored(candles, ZonesOf(gaps))
  {
    hide DisplacementScore, VolumeScore, HasAdjacent, Weighted, Listed, CompletedAt, Settles, Origin, SearchFrom;
    var sides := IndexGaps(gaps);
    blocks := [];
    for n := 0 to |events|
      invariant fresh(set b | b in blocks)
      invariant forall a, b :: 0 <= a < b < |blocks| ==> blocks[a] != blocks[b]
      invariant forall a :: 0 <= a < |blocks| ==>
                  !blocks[a].invalidated && blocks[a].mitigatedIndex == None &&
                    blocks[a].IsScored(candles, ZonesOf(gaps))
      invariant MadeOf(blocks) == BlocksFound(candles, events[..n], lookback)
    {
      var e := events[n];
      assert events[..n + 1][..n] == events[..n];
      var origin := FindOrigin(candles, e.side, e.index, SearchFrom(e.index, lookback));
      if origin.Some? {
        var o := candles[origin.value];
        var adjacent := AdjacentGap(ZonesOf(gaps), sides, e.side, e.index);
        var strength := Weighted(DisplacementScore(candles, e.index), adjacent, VolumeScore(candles, e.index));
        var b := new Block(Zone(e.side, o.high, o.low, origin.value, o.timestamp), e.index, strength);
        blocks := blocks + [b];
      }
    }
    assert events[..|events|] == events;
    UpdateBlocks(candles, blocks);
  }

  lemma {:induction false} OriginOfPrefix(candles: seq<Candle>, k: nat, side: Side, before: nat, stop: nat)
    requires before <= k <= |candles|
    ensures Origin(candles[..k], side, before, stop) == Origin(candles, side, before, stop)
  {
    if before > stop {
      OriginOfPrefix(candles, k, side, before - 1, stop);
    }
  }

  lemma {:induction false} BlocksOfPrefix(candles: seq<Candle>, k: nat, events: seq<Event>, lookback: nat)
    requires k <= |candles| && EventsWithin(events, k)
    ensures BlocksFound(candles[..k], events, lookback) == BlocksFound(candles, events, lookback)
  {
    if events != [] {
      var n := |events| - 1;
      BlocksOfPrefix(candles, k, events[..n], lookback);
      OriginOfPrefix(candles, k, events[n].side, events[n].index, SearchFrom(events[n].index, lookback));
      OriginIsLastOpposite(candles, events[n].side, events[n].index, SearchFrom(events[n].index, lookback));
      assert BlockOf(candles[..k], events[n], lookback) == BlockOf(candles, events[n], lookback);
    }
  }

  function CausedBefore(made: seq<Made>, k: nat): seq<Made> {
    if made == [] then []
    else
      var n := |made| - 1;
      CausedBefore(made[..n], k) + if made[n].causedEventIndex < k then [made[n]] else []
  }

  lemma CausedBeforeOne(made: seq<Made>, more: seq<Made>, index: nat, k: nat)
    requires |more| <= 1 && (more != [] ==> more[0].causedEventIndex == index)
    ensures CausedBefore(made + more, k) == CausedBefore(made, k) + if index < k then more else []
  {
    if more == [] {
      assert made + more == made;
    } else {
      assert (made + more)[..|made|] == made;
    }
  }

  lemma BlocksFoundAppend(candles: seq<Candle>, events: seq<Event>, e: Event, lookback: nat)
    requires EventsWithin(events, |candles|) && e.index < |candles|
    ensures EventsWithin(events + [e], |candles|)
    ensures BlocksFound(candles, events + [e], lookback)
            == BlocksFound(candles, events, lookback) + BlockOf(candles, e, lookback)
  {
    assert (events + [e])[..|events|] == events;
  }

  lemma {:induction false} BeforeWithin(events: seq<Event>, k: nat, n: nat)
    requires EventsWithin(events, n)
    ensures EventsWithin(Before(events, k), k) && EventsWithin(Before(events, k), n)
  {
    if events != [] {
      BeforeWithin(events[..|events| - 1], k, n);
    }
  }

  lemma {:induction false} BlocksOfEarlierEvents(candles: seq<Candle>, events: seq<Event>, lookback: nat, k: nat)
    requires EventsWithin(events, |candles|)
    ensures EventsWithin(Before(events, k), |candles|)
    ensures BlocksFound(candles, Before(events, k), lookback) == CausedBefore(BlocksFound(candles, events, lookback), k)
  {
    BeforeWithin(events, k, |candles|);
    if events != [] {
      var n := |events| - 1;
      BlocksOfEarlierEvents(candles, events[..n], lookback, k);
      CausedBeforeOne(BlocksFound(candles, events[..n], lookback), BlockOf(candles, events[n], lookback),
                      events[n].index, k);
      var earlier := Before(events[..n], k);
      if events[n].index < k {
        BlocksFoundAppend(candles, earlier, events[n], lookback);
      } else {
        assert Before(events, k) == earlier;
        var made := CausedBefore(BlocksFound(candles, events[..n], lookback), k);
        assert made + [] == made;
      }
    }
  }

  lemma {:induction false} DetectedEventsWithin(candles: seq<Candle>, swings: seq<S.Swing>, n: nat)
    requires n <= |candles|
    ensures EventsWithin(After(candles, swings, n).events, n)
  {
    if n > 0 {
      DetectedEventsWithin(candles, swings, n - 1);
    }
  }

  /** Whatever the history, the cut and the settings, the blocks of the truncated history are those
      of the whole history whose break came before the cut. */
  lemma BlocksDoNotLookAhead(candles: seq<Candle>, length: nat, lookback: nat, k: nat)
    requires k <= |candles|
    ensures var all := Events(candles, S.Detected(candles, length));
            var cut := Events(candles[..k], S.Detected(candles[..k], length));
            && EventsWithin(all, |candles|) && EventsWithin(cut, k)
            && BlocksFound(candles[..k], cut, lookback) == CausedBefore(BlocksFound(candles, all, lookback), k)
  {
    var all := Events(candles, S.Detected(candles, length));
    DetectedEventsWithin(candles, S.Detected(candles, length), |candles|);
    DetectedEventsWithin(candles[..k], S.Detected(candles[..k], length), k);
    StructureDoesNotLookAhead(candles, length, k);
    BlocksOfEarlierEvents(candles, all, lookback, k);
    BlocksOfPrefix(candles, k, Before(all, k), lookback);
  }
}
