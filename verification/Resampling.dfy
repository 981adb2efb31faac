/**
Candle resampling (`bucket_start`, `aggregate_candles`, `resample_candles`): how timestamps fall
into buckets, what a resampled series keeps, and exactly when resampling in two hops is the same
as resampling in one.
*/
module Resampling {
  import opened Common
  import opened Market
  import opened Sorting

  datatype Timeframe = M1 | M3 | M5 | M15 | M30 | H1 | H2 | H4 | D1 | W1

  const DAY_MINUTES := 1440
  const WEEK_MINUTES := 10080
  const SESSION_OPEN_MINUTES_UTC := 225

  /** `timeframe_to_minutes`, for the supported timeframes. */
  function Minutes(tf: Timeframe): (m: int)
    ensures m > 0
  {
    match tf
    case M1 => 1 case M3 => 3 case M5 => 5 case M15 => 15 case M30 => 30
    case H1 => 60 case H2 => 120 case H4 => 240 case D1 => DAY_MINUTES case W1 => WEEK_MINUTES
  }

  predicate IsValidUpsample(source: Timeframe, target: Timeframe) {
    Minutes(target) > Minutes(source) && Minutes(target) % Minutes(source) == 0
  }

  // ---------------------------------------------------------------------------- buckets

  /** `bucket_start`. Weekly buckets open on Monday; day 0 was a Thursday. */
  function BucketStart(timestamp: int, tf: Timeframe): int {
    var target := Minutes(tf);
    if target == WEEK_MINUTES then
      var day := timestamp / 86400;
      (day - (day + 3) % 7) * 86400
    else
      var offset := if target >= DAY_MINUTES then 0 else SESSION_OPEN_MINUTES_UTC % target;
      ((timestamp / 60 - offset) / target * target + offset) * 60
  }

  /** The last point of the grid `offset + k * step` at or before `x`. */
  function GridFloor(x: int, step: int, offset: int): int
    requires step > 0
  {
    (x - offset) / step * step + offset
  }

  function Offset(tf: Timeframe): int {
    match tf
    case W1 => -4320 case H4 => 225 case H2 => 105 case H1 => 45 case M30 => 15 case _ => 0
  }

  lemma DivBounds(x: int, step: int)
    requires step > 0
    ensures x / step * step <= x < x / step * step + step
  {}

  /** All timeframes are grids, the weekly one shifted by the three days from Monday to Thursday. */
  lemma BucketStartIsGrid(timestamp: int, tf: Timeframe)
    ensures BucketStart(timestamp, tf) == 60 * GridFloor(timestamp / 60, Minutes(tf), Offset(tf))
  {
    if tf == W1 {
      var day := timestamp / 86400;
      var week := (day + 3) / 7;
      assert day - (day + 3) % 7 == 7 * week - 3;
      GridFloorIsUnique(timestamp / 60, WEEK_MINUTES, -4320, week);
    } else {
      OffsetIsSessionOpen(tf);
    }
  }

  lemma OffsetIsSessionOpen(tf: Timeframe)
    requires tf != W1
    ensures Offset(tf) == if Minutes(tf) >= DAY_MINUTES then 0 else SESSION_OPEN_MINUTES_UTC % Minutes(tf)
  {
    match tf
    case M1 => assert 225 % 1 == 0;
    case M3 => assert 225 % 3 == 0;
    case M5 => assert 225 % 5 == 0;
    case M15 => assert 225 % 15 == 0;
    case M30 => assert 225 % 30 == 15;
    case H1 => assert 225 % 60 == 45;
    case H2 => assert 225 % 120 == 105;
    case H4 => assert 225 % 240 == 225;
    case D1 =>
  }

  lemma GridFloorIsUnique(x: int, step: int, offset: int, k: int)
    requires step > 0 && k * step + offset <= x < k * step + offset + step
    ensures GridFloor(x, step, offset) == k * step + offset
  {
    DivBounds(x - offset, step);
    var q := (x - offset) / step;
    assert k * step < q * step + step && q * step < k * step + step;
    Between(k, q, step);
  }

  lemma Between(k: int, q: int, step: int)
    requires step > 0 && k * step < q * step + step && q * step < k * step + step
    ensures k == q
  {
    MulOrder(k, q, step);
    MulOrder(q, k, step);
  }

  lemma GridFloorMonotone(x: int, y: int, step: int, offset: int)
    requires step > 0 && x <= y
    ensures GridFloor(x, step, offset) <= GridFloor(y, step, offset)
  {
    DivMonotone(x - offset, y - offset, step);
  }

  lemma MulOrder(p: int, q: int, step: int)
    requires step > 0
    ensures p <= q ==> p * step <= q * step
    ensures p > q ==> p * step >= q * step + step
  {
    if p <= q {
      assert (q - p) * step >= 0;
    } else {
      assert (p - q - 1) * step >= 0;
    }
  }

  lemma DivMonotone(x: int, y: int, step: int)
    requires step > 0 && x <= y
    ensures x / step * step <= y / step * step
  {
    DivBounds(x, step);
    DivBounds(y, step);
    MulOrder(x / step, y / step, step);
  }

  lemma GridFloorBounds(x: int, step: int, offset: int)
    requires step > 0
    ensures GridFloor(x, step, offset) <= x < GridFloor(x, step, offset) + step
    ensures GridFloor(GridFloor(x, step, offset), step, offset) == GridFloor(x, step, offset)
  {
    DivBounds(x - offset, step);
    GridFloorIsUnique(GridFloor(x, step, offset), step, offset, (x - offset) / step);
  }

  lemma ScaledBounds(timestamp: int, grid: int, step: int)
    requires grid <= timestamp / 60 < grid + step
    ensures 60 * grid <= timestamp < 60 * grid + 60 * step
  {}

  /** Each bucket contains its timestamps. */
  lemma BucketContains(timestamp: int, tf: Timeframe)
    ensures BucketStart(timestamp, tf) <= timestamp < BucketStart(timestamp, tf) + 60 * Minutes(tf)
  {
    BucketStartIsGrid(timestamp, tf);
    GridFloorBounds(timestamp / 60, Minutes(tf), Offset(tf));
    ScaledBounds(timestamp, GridFloor(timestamp / 60, Minutes(tf), Offset(tf)), Minutes(tf));
  }

  /** Later timestamps never fall into earlier buckets. */
  lemma BucketIsMonotone(timestamp: int, later: int, tf: Timeframe)
    requires timestamp <= later
    ensures BucketStart(timestamp, tf) <= BucketStart(later, tf)
  {
    BucketStartIsGrid(timestamp, tf);
    BucketStartIsGrid(later, tf);
    GridFloorMonotone(timestamp / 60, later / 60, Minutes(tf), Offset(tf));
  }

  /** A bucket's start is its own bucket. */
  lemma BucketIsIdempotent(timestamp: int, tf: Timeframe)
    ensures BucketStart(BucketStart(timestamp, tf), tf) == BucketStart(timestamp, tf)
  {
    BucketStartIsGrid(timestamp, tf);
    BucketStartIsGrid(BucketStart(timestamp, tf), tf);
    GridFloorBounds(timestamp / 60, Minutes(tf), Offset(tf));
  }

  /** The coarse grid is made of points of the fine one. */
  predicate Nests(fine: Timeframe, coarse: Timeframe) {
    Minutes(coarse) % Minutes(fine) == 0 && (Offset(coarse) - Offset(fine)) % Minutes(fine) == 0
  }

  lemma GridsNest(x: int, fine: int, fineOffset: int, coarse: int, coarseOffset: int)
    requires fine > 0 && coarse > 0 && coarse % fine == 0 && (coarseOffset - fineOffset) % fine == 0
    ensures GridFloor(GridFloor(x, fine, fineOffset), coarse, coarseOffset) == GridFloor(x, coarse, coarseOffset)
  {
    var k := (x - coarseOffset) / coarse;
    var p, y := GridFloor(x, coarse, coarseOffset), GridFloor(x, fine, fineOffset);
    DivBounds(x - coarseOffset, coarse);
    DivBounds(x - fineOffset, fine);
    var ratio, shift := coarse / fine, (coarseOffset - fineOffset) / fine;
    var j := k * ratio + shift;
    assert coarse == ratio * fine && coarseOffset == shift * fine + fineOffset;
    assert p == j * fine + fineOffset by {
      assert k * coarse == k * ratio * fine;
    }
    AtMostFloor(j, x - fineOffset, fine);
    GridFloorIsUnique(y, coarse, coarseOffset, k);
  }

  lemma AtMostFloor(j: int, x: int, step: int)
    requires step > 0 && j * step <= x
    ensures j * step <= x / step * step
  {
    DivBounds(x, step);
    MulOrder(j, x / step, step);
  }

  lemma BucketsNest(timestamp: int, fine: Timeframe, coarse: Timeframe)
    requires Nests(fine, coarse)
    ensures BucketStart(BucketStart(timestamp, fine), coarse) == BucketStart(timestamp, coarse)
  {
    hide BucketStart, GridFloor;
    BucketStartIsGrid(timestamp, fine);
    BucketStartIsGrid(timestamp, coarse);
    BucketStartIsGrid(BucketStart(timestamp, fine), coarse);
    GridsNest(timestamp / 60, Minutes(fine), Offset(fine), Minutes(coarse), Offset(coarse));
  }

  // ------------------------------------------------------- resampling, candle by candle

  function BarOf(start: int, c: Candle): Candle {
    c.(timestamp := start)
  }

  function Merged(bar: Candle, c: Candle): Candle {
    Candle(bar.timestamp, bar.open, Max(bar.high, c.high), Min(bar.low, c.low), c.close, bar.volume + c.volume)
  }

  function AddTo(bars: seq<Candle>, start: int, c: Candle): seq<Candle> {
    var n := |bars|;
    if n > 0 && bars[n - 1].timestamp == start then bars[..n - 1] + [Merged(bars[n - 1], c)]
    else bars + [BarOf(start, c)]
  }

  /** The bars of candles that come in time order. */
  function Bars(candles: seq<Candle>, start: int -> int): seq<Candle> {
    if candles == [] then []
    else
      var n := |candles| - 1;
      AddTo(Bars(candles[..n], start), start(candles[n].timestamp), candles[n])
  }

  function Starts(tf: Timeframe): int -> int {
    timestamp => BucketStart(timestamp, tf)
  }

  ghost predicate Monotone(start: int -> int) {
    forall x, y :: x <= y ==> start(x) <= start(y)
  }

  lemma StartsMonotone(tf: Timeframe)
    ensures Monotone(Starts(tf))
  {
    forall x, y | x <= y ensures Starts(tf)(x) <= Starts(tf)(y) {
      BucketIsMonotone(x, y, tf);
    }
  }

  const TIME: Candle -> real := (c: Candle) => c.timestamp as real

  function Resampled(candles: seq<Candle>, tf: Timeframe): seq<Candle> {
    Bars(Sort(candles, TIME), Starts(tf))
  }

  predicate InOrder(candles: seq<Candle>) {
    forall i, j :: 0 <= i < j < |candles| ==> candles[i].timestamp <= candles[j].timestamp
  }

  predicate StrictlyInOrder(candles: seq<Candle>) {
    forall i, j :: 0 <= i < j < |candles| ==> candles[i].timestamp < candles[j].timestamp
  }

  lemma SortedInOrder(candles: seq<Candle>)
    ensures InOrder(Sort(candles, TIME)) && multiset(Sort(candles, TIME)) == multiset(candles)
    ensures InOrder(candles) ==> Sort(candles, TIME) == candles
  {
    SortSorts(candles, TIME);
    var sorted := Sort(candles, TIME);
    forall i, j | 0 <= i < j < |sorted| ensures sorted[i].timestamp <= sorted[j].timestamp {
      assert TIME(sorted[i]) <= TIME(sorted[j]);
    }
  }

  predicate EndsAt(bars: seq<Candle>, start: int) {
    bars != [] && bars[|bars| - 1].timestamp == start
  }

  lemma {:induction false} BarsInOrder(candles: seq<Candle>, start: int -> int)
    requires InOrder(candles) && Monotone(start)
    ensures StrictlyInOrder(Bars(candles, start))
    ensures candles != [] ==> EndsAt(Bars(candles, start), start(candles[|candles| - 1].timestamp))
  {
    if candles != [] {
      var n := |candles| - 1;
      BarsInOrder(candles[..n], start);
    }
  }

  // --------------------------------------------------------------- two hops and one hop

  lemma MergeIsAssociative(a: Candle, b: Candle, c: Candle)
    ensures Merged(Merged(a, b), c) == Merged(a, Merged(b, c))
  {}

  /** Adding a bar grown by one candle is adding the bar and then the candle. */
  lemma AddGrown(bars: seq<Candle>, start: int, bar: Candle, c: Candle)
    ensures AddTo(bars, start, Merged(bar, c)) == AddTo(AddTo(bars, start, bar), start, c)
  {
    var n := |bars|;
    if n > 0 && bars[n - 1].timestamp == start {
      MergeIsAssociative(bars[n - 1], bar, c);
      assert AddTo(bars, start, bar)[..n - 1] == bars[..n - 1];
    } else {
      assert AddTo(bars, start, bar)[..n] == bars;
    }
  }

  lemma AddRestamped(bars: seq<Candle>, start: int, c: Candle, stamp: int)
    ensures AddTo(bars, start, BarOf(stamp, c)) == AddTo(bars, start, c)
  {}

  lemma BarsAppend(candles: seq<Candle>, c: Candle, start: int -> int)
    ensures Bars(candles + [c], start) == AddTo(Bars(candles, start), start(c.timestamp), c)
  {
    assert (candles + [c])[..|candles|] == candles;
  }

  lemma {:induction false} BarsOfBars(candles: seq<Candle>, fine: int -> int, coarse: int -> int)
    requires forall t :: coarse(fine(t)) == coarse(t)
    ensures Bars(Bars(candles, fine), coarse) == Bars(candles, coarse)
  {
    if candles != [] {
      var n := |candles| - 1;
      var c, bars := candles[n], Bars(candles[..n], fine);
      var start := fine(c.timestamp);
      BarsOfBars(candles[..n], fine, coarse);
      var m := |bars| - 1;
      if m >= 0 && bars[m].timestamp == start {
        BarsAppend(bars[..m], Merged(bars[m], c), coarse);
        assert bars == bars[..m] + [bars[m]];
        BarsAppend(bars[..m], bars[m], coarse);
        AddGrown(Bars(bars[..m], coarse), coarse(c.timestamp), bars[m], c);
      } else {
        BarsAppend(bars, BarOf(start, c), coarse);
        AddRestamped(Bars(bars, coarse), coarse(c.timestamp), c, start);
      }
    }
  }

  lemma GridsNestIntoDays(fine: Timeframe)
    requires fine != D1 && fine != W1
    ensures Nests(fine, D1) <==> Minutes(fine) <= 15
  {
    match fine
    case M1 => case M3 => case M5 => case M15 => case M30 => case H1 => case H2 => case H4 =>
  }

  lemma GridsNestIntoWeeks(fine: Timeframe)
    requires fine != W1
    ensures Nests(fine, W1) <==> Minutes(fine) <= 15 || fine == D1
  {
    match fine
    case M1 => case M3 => case M5 => case M15 => case M30 => case H1 => case H2 => case H4 => case D1 =>
  }

  lemma MultipleHasNoRest(k: int, step: int)
    requires step > 0
    ensures k * step % step == 0
  {
    DivBounds(k * step, step);
    Between(k, k * step / step, step);
  }

  /** Remainders by a multiple of `step` and by `step` differ by a multiple of `step`. */
  lemma RemaindersNest(a: int, step: int, multiple: int)
    requires step > 0 && multiple > 0 && multiple % step == 0
    ensures (a % multiple - a % step) % step == 0
  {
    var r, q, p := multiple / step, a / multiple, a / step;
    assert multiple == r * step && a % multiple == a - q * multiple && a % step == a - p * step;
    assert q * multiple == q * r * step;
    assert a % multiple - a % step == (p - q * r) * step;
    MultipleHasNoRest(p - q * r, step);
  }

  lemma IntradayGridsNest(fine: Timeframe, coarse: Timeframe)
    requires IsValidUpsample(fine, coarse) && Minutes(coarse) < DAY_MINUTES
    ensures Nests(fine, coarse)
  {
    OffsetIsSessionOpen(fine);
    OffsetIsSessionOpen(coarse);
    RemaindersNest(SESSION_OPEN_MINUTES_UTC, Minutes(fine), Minutes(coarse));
  }

  /** Which grids nest: all but 30 minutes to 4 hours into days or weeks. */
  lemma WhichGridsNest(fine: Timeframe, coarse: Timeframe)
    requires IsValidUpsample(fine, coarse)
    ensures Nests(fine, coarse) <==> Minutes(coarse) < DAY_MINUTES || Minutes(fine) <= 15 || fine == D1
  {
    if coarse == W1 {
      GridsNestIntoWeeks(fine);
    } else if coarse == D1 {
      GridsNestIntoDays(fine);
    } else {
      IntradayGridsNest(fine, coarse);
    }
  }

  /** A candle at midnight on a Monday. */
  const MONDAY := Candle(345600, 1.0, 1.0, 1.0, 1.0, 1.0)

  /** Where the grids do not nest, the bucket around midnight opens at a quarter to it, the day before. */
  lemma MidnightSplits(fine: Timeframe, coarse: Timeframe)
    requires IsValidUpsample(fine, coarse) && !Nests(fine, coarse)
    ensures BucketStart(BucketStart(MONDAY.timestamp, fine), coarse) != BucketStart(MONDAY.timestamp, coarse)
  {
    hide BucketStart, Nests;
    WhichGridsNest(fine, coarse);
    MidnightBucket(fine);
    DaysAroundMidnight();
  }

  lemma DaysAroundMidnight()
    ensures BucketStart(345600, D1) == 345600 && BucketStart(344700, D1) == 259200
    ensures BucketStart(345600, W1) == 345600 && BucketStart(344700, W1) == -259200
  {}

  lemma MidnightBucket(fine: Timeframe)
    requires fine in {M30, H1, H2, H4}
    ensures BucketStart(345600, fine) == 344700
  {
    OffsetIsSessionOpen(fine);
    BucketStartIsGrid(345600, fine);
    match fine
    case M30 => assert GridFloor(5760, 30, 15) == 5745;
    case H1 => assert GridFloor(5760, 60, 45) == 5745;
    case H2 => assert GridFloor(5760, 120, 105) == 5745;
    case H4 => assert GridFloor(5760, 240, 225) == 5745;
  }

  lemma OneCandle(c: Candle, tf: Timeframe)
    ensures Resampled([c], tf) == [BarOf(BucketStart(c.timestamp, tf), c)]
  {
    SortedInOrder([c]);
    BarsAppend([], c, Starts(tf));
    assert [] + [c] == [c];
  }

  lemma TwoHops(candles: seq<Candle>, fine: Timeframe, coarse: Timeframe)
    requires Nests(fine, coarse)
    ensures Resampled(Resampled(candles, fine), coarse) == Resampled(candles, coarse)
  {
    var sorted := Sort(candles, TIME);
    SortedInOrder(candles);
    StartsMonotone(fine);
    BarsInOrder(sorted, Starts(fine));
    SortedInOrder(Bars(sorted, Starts(fine)));
    forall t ensures Starts(coarse)(Starts(fine)(t)) == Starts(coarse)(t) {
      BucketsNest(t, fine, coarse);
    }
    BarsOfBars(sorted, Starts(fine), Starts(coarse));
  }

  /** Resampling in two hops agrees with resampling in one on every list of candles exactly when
      the grids nest. Where they do not, one candle at midnight shows it. */
  lemma ResamplingComposes(fine: Timeframe, coarse: Timeframe)
    requires IsValidUpsample(fine, coarse)
    ensures Nests(fine, coarse) <==>
              forall candles :: Resampled(Resampled(candles, fine), coarse) == Resampled(candles, coarse)
  {
    if Nests(fine, coarse) {
      forall candles ensures Resampled(Resampled(candles, fine), coarse) == Resampled(candles, coarse) {
        TwoHops(candles, fine, coarse);
      }
    } else {
      TwoHopsOfMonday(fine, coarse);
    }
  }

  lemma TwoHopsOfMonday(fine: Timeframe, coarse: Timeframe)
    requires IsValidUpsample(fine, coarse) && !Nests(fine, coarse)
    ensures Resampled(Resampled([MONDAY], fine), coarse) != Resampled([MONDAY], coarse)
  {
    MidnightSplits(fine, coarse);
    OneCandle(MONDAY, coarse);
    OneCandle(MONDAY, fine);
    var hop := BarOf(BucketStart(MONDAY.timestamp, fine), MONDAY);
    OneCandle(hop, coarse);
    assert Resampled([hop], coarse)[0].timestamp != Resampled([MONDAY], coarse)[0].timestamp;
  }

  // ------------------------------------------------------------------------ conservation

  function Volume(candles: seq<Candle>): real {
    if candles == [] then 0.0 else Volume(candles[..|candles| - 1]) + candles[|candles| - 1].volume
  }

  predicate HighestIs(candles: seq<Candle>, high: real) {
    && (forall i :: 0 <= i < |candles| ==> candles[i].high <= high)
    && exists i :: 0 <= i < |candles| && candles[i].high == high
  }

  predicate LowestIs(candles: seq<Candle>, low: real) {
    && (forall i :: 0 <= i < |candles| ==> candles[i].low >= low)
    && exists i :: 0 <= i < |candles| && candles[i].low == low
  }

  lemma VolumeAppend(candles: seq<Candle>, c: Candle)
    ensures Volume(candles + [c]) == Volume(candles) + c.volume
  {
    assert (candles + [c])[..|candles|] == candles;
  }

  lemma AddToVolume(bars: seq<Candle>, start: int, c: Candle)
    ensures Volume(AddTo(bars, start, c)) == Volume(bars) + c.volume
  {
    var n := |bars|;
    if n > 0 && bars[n - 1].timestamp == start {
      VolumeAppend(bars[..n - 1], Merged(bars[n - 1], c));
    } else {
      VolumeAppend(bars, BarOf(start, c));
    }
  }

  lemma {:induction false} BarsKeepVolume(candles: seq<Candle>, start: int -> int)
    ensures Volume(Bars(candles, start)) == Volume(candles)
  {
    if candles != [] {
      var n := |candles| - 1;
      BarsKeepVolume(candles[..n], start);
      AddToVolume(Bars(candles[..n], start), start(candles[n].timestamp), candles[n]);
    }
  }

  lemma {:induction false} InsertedVolume(candles: seq<Candle>, c: Candle)
    ensures Volume(Inserted(candles, c, TIME)) == Volume(candles) + c.volume
  {
    if candles == [] || TIME(candles[|candles| - 1]) <= TIME(c) {
      VolumeAppend(candles, c);
    } else {
      var n := |candles| - 1;
      InsertedVolume(candles[..n], c);
      VolumeAppend(Inserted(candles[..n], c, TIME), candles[n]);
    }
  }

  lemma {:induction false} SortKeepsVolume(candles: seq<Candle>)
    ensures Volume(Sort(candles, TIME)) == Volume(candles)
  {
    if candles != [] {
      var n := |candles| - 1;
      SortKeepsVolume(candles[..n]);
      InsertedVolume(Sort(candles[..n], TIME), candles[n]);
    }
  }

  lemma AddToExtremes(bars: seq<Candle>, start: int, c: Candle, high: real, low: real)
    requires bars == [] || (HighestIs(bars, high) && LowestIs(bars, low))
    ensures HighestIs(AddTo(bars, start, c), if bars == [] then c.high else Max(high, c.high))
    ensures LowestIs(AddTo(bars, start, c), if bars == [] then c.low else Min(low, c.low))
  {
    var now, n := AddTo(bars, start, c), |bars|;
    if bars == [] {
      assert now[0].high == c.high && now[0].low == c.low;
    } else {
      var h :| 0 <= h < n && bars[h].high == high;
      var l :| 0 <= l < n && bars[l].low == low;
      var last := |now| - 1;
      if h < n - 1 { assert now[h] == bars[h]; }
      if l < n - 1 { assert now[l] == bars[l]; }
      assert now[last].high == Max(high, c.high) || now[h].high == Max(high, c.high);
      assert now[last].low == Min(low, c.low) || now[l].low == Min(low, c.low);
    }
  }

  lemma {:induction false} BarsKeepExtremes(candles: seq<Candle>, start: int -> int, high: real, low: real)
    requires HighestIs(candles, high) && LowestIs(candles, low)
    ensures HighestIs(Bars(candles, start), high) && LowestIs(Bars(candles, start), low)
  {
    var n := |candles| - 1;
    var before, c, at := candles[..n], candles[n], start(candles[n].timestamp);
    if n == 0 {
      assert before == [];
      AddToExtremes([], at, c, high, low);
    } else {
      var h, l := Extremes(before);
      BarsKeepExtremes(before, start, h, l);
      AddToExtremes(Bars(before, start), at, c, h, l);
      ExtremesAppend(before, c, h, l);
      assert candles == before + [c];
      ExtremesAreUnique(candles, high, Max(h, c.high), low, Min(l, c.low));
    }
  }

  lemma ExtremesAreUnique(candles: seq<Candle>, high: real, high': real, low: real, low': real)
    requires HighestIs(candles, high) && HighestIs(candles, high') && LowestIs(candles, low) && LowestIs(candles, low')
    ensures high == high' && low == low'
  {}

  lemma ExtremesAppend(candles: seq<Candle>, c: Candle, high: real, low: real)
    requires HighestIs(candles, high) && LowestIs(candles, low)
    ensures HighestIs(candles + [c], Max(high, c.high)) && LowestIs(candles + [c], Min(low, c.low))
  {
    var all := candles + [c];
    var h :| 0 <= h < |candles| && candles[h].high == high;
    var l :| 0 <= l < |candles| && candles[l].low == low;
    assert all[h].high == Max(high, c.high) || all[|candles|].high == Max(high, c.high);
    assert all[l].low == Min(low, c.low) || all[|candles|].low == Min(low, c.low);
  }

  lemma {:induction false} Extremes(candles: seq<Candle>) returns (high: real, low: real)
    requires candles != []
    ensures HighestIs(candles, high) && LowestIs(candles, low)
  {
    var n := |candles| - 1;
    if n == 0 {
      high, low := candles[0].high, candles[0].low;
      assert candles[0].high == high && candles[0].low == low;
    } else {
      high, low := Extremes(candles[..n]);
      ExtremesAppend(candles[..n], candles[n], high, low);
      assert candles == candles[..n] + [candles[n]];
      high, low := Max(high, candles[n].high), Min(low, candles[n].low);
    }
  }

  lemma SameCandlesSameExtremes(a: seq<Candle>, b: seq<Candle>, high: real, low: real)
    requires multiset(a) == multiset(b) && HighestIs(a, high) && LowestIs(a, low)
    ensures HighestIs(b, high) && LowestIs(b, low)
  {
    var h :| 0 <= h < |a| && a[h].high == high;
    var l :| 0 <= l < |a| && a[l].low == low;
    assert a[h] in multiset(b) && a[l] in multiset(b);
    forall i | 0 <= i < |b| ensures b[i].high <= high && b[i].low >= low {
      assert b[i] in multiset(a);
    }
  }

  /** Resampling keeps the total volume, the highest high and the lowest low of any list. */
  lemma ResamplingConserves(candles: seq<Candle>, tf: Timeframe, high: real, low: real)
    ensures Volume(Resampled(candles, tf)) == Volume(candles)
    ensures HighestIs(candles, high) && LowestIs(candles, low) ==>
              HighestIs(Resampled(candles, tf), high) && LowestIs(Resampled(candles, tf), low)
  {
    SortedInOrder(candles);
    SortKeepsVolume(candles);
    BarsKeepVolume(Sort(candles, TIME), Starts(tf));
    if HighestIs(candles, high) && LowestIs(candles, low) {
      SameCandlesSameExtremes(candles, Sort(candles, TIME), high, low);
      BarsKeepExtremes(Sort(candles, TIME), Starts(tf), high, low);
    }
  }

  // ---------------------------------------------------------------------------- the code

  /** A non-empty group of candles as one bar stamped `at`. */
  function Aggregate(group: seq<Candle>, at: int): (bar: Candle)
    requires group != []
    ensures bar.timestamp == at
  {
    if |group| == 1 then BarOf(at, group[0])
    else Merged(Aggregate(group[..|group| - 1], at), group[|group| - 1])
  }

  /** What the bar is: first open, last close, the extremes, the whole volume. */
  lemma {:induction false} AggregateIs(group: seq<Candle>, at: int)
    requires group != []
    ensures var bar := Aggregate(group, at);
            && bar.open == group[0].open && bar.close == group[|group| - 1].close
            && HighestIs(group, bar.high) && LowestIs(group, bar.low) && bar.volume == Volume(group)
  {
    var n := |group| - 1;
    if n == 0 {
      assert group[0].high == Aggregate(group, at).high && group[0].low == Aggregate(group, at).low;
      assert Volume(group) == Volume([]) + group[0].volume;
    } else {
      var before := Aggregate(group[..n], at);
      AggregateIs(group[..n], at);
      ExtremesAppend(group[..n], group[n], before.high, before.low);
      assert group == group[..n] + [group[n]];
    }
  }

  /** `aggregate_candles`, which stamps the bar with the first candle's time; an empty list raises. */
  method AggregateCandles(candles: seq<Candle>) returns (r: Option<Candle>)
    ensures r == if candles == [] then None else Some(Aggregate(candles, candles[0].timestamp))
  {
    if candles == [] {
      return None;
    }
    var high, low, volume := candles[0].high, candles[0].low, candles[0].volume;
    for i := 1 to |candles|
      invariant Aggregate(candles[..i], candles[0].timestamp) ==
                Candle(candles[0].timestamp, candles[0].open, high, low, candles[i - 1].close, volume)
    {
      assert candles[..i + 1][..i] == candles[..i];
      high, low := Max(high, candles[i].high), Min(low, candles[i].low);
      volume := volume + candles[i].volume;
    }
    assert candles[..|candles|] == candles;
    r := Some(Candle(candles[0].timestamp, candles[0].open, high, low, candles[|candles| - 1].close, volume));
  }

  /** The candles of one bucket, in the order they are listed. */
  function InBucket(candles: seq<Candle>, start: int -> int, at: int): seq<Candle> {
    if candles == [] then []
    else
      var n := |candles| - 1;
      InBucket(candles[..n], start, at) + if start(candles[n].timestamp) == at then [candles[n]] else []
  }

  lemma InBucketAppend(candles: seq<Candle>, c: Candle, start: int -> int, at: int)
    ensures InBucket(candles + [c], start, at)
            == InBucket(candles, start, at) + if start(c.timestamp) == at then [c] else []
  {
    assert (candles + [c])[..|candles|] == candles;
  }

  lemma {:induction false} InBucketIsInOrder(candles: seq<Candle>, start: int -> int, at: int)
    requires InOrder(candles)
    ensures forall c :: c in InBucket(candles, start, at) ==> c in candles
    ensures InOrder(InBucket(candles, start, at))
  {
    if candles != [] {
      var n := |candles| - 1;
      var before := InBucket(candles[..n], start, at);
      InBucketIsInOrder(candles[..n], start, at);
      forall i | 0 <= i < |before| ensures before[i] in candles[..n] && before[i].timestamp <= candles[n].timestamp {
        assert before[i] in before;
      }
      assert candles == candles[..n] + [candles[n]];
    }
  }

  lemma InsertedAppend(candles: seq<Candle>, y: Candle, c: Candle)
    ensures Inserted(candles + [y], c, TIME) ==
            if y.timestamp <= c.timestamp then candles + [y] + [c] else Inserted(candles, c, TIME) + [y]
  {
    assert (candles + [y])[..|candles|] == candles;
    assert TIME(y) == y.timestamp as real && TIME(c) == c.timestamp as real;
  }

  /** What choosing a bucket makes of an insertion. */
  predicate ChoosesInsertion(candles: seq<Candle>, c: Candle, start: int -> int, at: int) {
    InBucket(Inserted(candles, c, TIME), start, at) ==
    if start(c.timestamp) == at then Inserted(InBucket(candles, start, at), c, TIME) else InBucket(candles, start, at)
  }

  lemma InsertBeforeLast(candles: seq<Candle>, y: Candle, c: Candle, start: int -> int, at: int)
    requires y.timestamp > c.timestamp && ChoosesInsertion(candles, c, start, at)
    ensures ChoosesInsertion(candles + [y], c, start, at)
  {
    InsertedAppend(candles, y, c);
    InBucketAppend(Inserted(candles, c, TIME), y, start, at);
    InBucketAppend(candles, y, start, at);
    InsertedAppend(InBucket(candles, start, at), y, c);
    var chosen := InBucket(candles, start, at);
    assert chosen + [] == chosen && Inserted(chosen, c, TIME) + [] == Inserted(chosen, c, TIME);
  }

  /** The stable sort and the choice of a bucket commute. */
  lemma {:induction false} InsertThenChoose(candles: seq<Candle>, c: Candle, start: int -> int, at: int)
    requires InOrder(candles)
    ensures ChoosesInsertion(candles, c, start, at)
  {
    if candles == [] {
      InBucketAppend([], c, start, at);
      assert [] + [c] == [c];
    } else {
      var n := |candles| - 1;
      var before, y := candles[..n], candles[n];
      assert candles == before + [y];
      if y.timestamp > c.timestamp {
        InsertThenChoose(before, c, start, at);
        InsertBeforeLast(before, y, c, start, at);
      } else {
        InsertedAppend(before, y, c);
        InBucketAppend(candles, c, start, at);
        InsertLast(candles, c, start, at);
      }
    }
  }

  lemma InsertLast(candles: seq<Candle>, c: Candle, start: int -> int, at: int)
    requires InOrder(candles) && candles != [] && candles[|candles| - 1].timestamp <= c.timestamp
    ensures Inserted(InBucket(candles, start, at), c, TIME) == InBucket(candles, start, at) + [c]
  {
    var chosen := InBucket(candles, start, at);
    InBucketIsInOrder(candles, start, at);
    if chosen != [] {
      assert chosen[|chosen| - 1] in candles;
      assert chosen == chosen[..|chosen| - 1] + [chosen[|chosen| - 1]];
      InsertedAppend(chosen[..|chosen| - 1], chosen[|chosen| - 1], c);
    }
  }

  lemma SortAppend(candles: seq<Candle>, c: Candle)
    ensures Sort(candles + [c], TIME) == Inserted(Sort(candles, TIME), c, TIME)
  {
    assert (candles + [c])[..|candles|] == candles;
  }

  lemma {:induction false} SortThenChoose(candles: seq<Candle>, start: int -> int, at: int)
    ensures InBucket(Sort(candles, TIME), start, at) == Sort(InBucket(candles, start, at), TIME)
  {
    if candles != [] {
      var n := |candles| - 1;
      var before, c := candles[..n], candles[n];
      assert candles == before + [c];
      SortThenChoose(before, start, at);
      SortedInOrder(before);
      SortAppend(before, c);
      InsertThenChoose(Sort(before, TIME), c, start, at);
      InBucketAppend(before, c, start, at);
      var chosen := InBucket(before, start, at);
      if start(c.timestamp) == at {
        SortAppend(chosen, c);
      } else {
        assert chosen + [] == chosen;
      }
    }
  }

  /** Bar `i` of an ordered list is the aggregate of its bucket. */
  ghost predicate IsBucketBar(candles: seq<Candle>, start: int -> int, bar: Candle) {
    var group := InBucket(candles, start, bar.timestamp);
    group != [] && bar == Aggregate(group, bar.timestamp)
  }

  predicate HasBar(bars: seq<Candle>, at: int) {
    exists i :: 0 <= i < |bars| && bars[i].timestamp == at
  }

  ghost predicate AllBucketBars(candles: seq<Candle>, start: int -> int, bars: seq<Candle>) {
    forall i :: 0 <= i < |bars| ==> IsBucketBar(candles, start, bars[i])
  }

  predicate AllHaveBars(candles: seq<Candle>, start: int -> int, bars: seq<Candle>) {
    forall i :: 0 <= i < |candles| ==> HasBar(bars, start(candles[i].timestamp))
  }

  lemma {:induction false} BarsAreBuckets(candles: seq<Candle>, start: int -> int)
    requires InOrder(candles) && Monotone(start)
    ensures AllBucketBars(candles, start, Bars(candles, start)) && AllHaveBars(candles, start, Bars(candles, start))
  {
    hide InBucket, Aggregate;
    if candles != [] {
      var n := |candles| - 1;
      var before, c := candles[..n], candles[n];
      BarsAreBuckets(before, start);
      BarsInOrder(before, start);
      BarsInOrder(candles, start);
      assert candles == before + [c];
      AddedBarIsBucket(before, Bars(before, start), c, start);
      AddedHasBar(before, Bars(before, start), c, start);
    }
  }

  lemma AddedHasBar(before: seq<Candle>, bars: seq<Candle>, c: Candle, start: int -> int)
    requires AllHaveBars(before, start, bars)
    ensures AllHaveBars(before + [c], start, AddTo(bars, start(c.timestamp), c))
  {
    var now := AddTo(bars, start(c.timestamp), c);
    forall i | 0 <= i < |before + [c]| ensures HasBar(now, start((before + [c])[i].timestamp)) {
      if i < |before| {
        var j :| 0 <= j < |bars| && bars[j].timestamp == start(before[i].timestamp);
        assert now[j].timestamp == bars[j].timestamp;
      } else {
        assert now[|now| - 1].timestamp == start(c.timestamp);
      }
    }
  }

  lemma AddedBarIsBucket(before: seq<Candle>, bars: seq<Candle>, c: Candle, start: int -> int)
    requires StrictlyInOrder(bars) && StrictlyInOrder(AddTo(bars, start(c.timestamp), c))
    requires AllBucketBars(before, start, bars) && AllHaveBars(before, start, bars)
    ensures AllBucketBars(before + [c], start, AddTo(bars, start(c.timestamp), c))
  {
    var at := start(c.timestamp);
    var now, m := AddTo(bars, at, c), |bars| - 1;
    forall i | 0 <= i < |now| - 1 ensures IsBucketBar(before + [c], start, now[i]) {
      assert now[i] == bars[i] && now[i].timestamp < now[|now| - 1].timestamp;
      InBucketAppend(before, c, start, now[i].timestamp);
      assert InBucket(before, start, now[i].timestamp) + [] == InBucket(before, start, now[i].timestamp);
    }
    InBucketAppend(before, c, start, at);
    var group := InBucket(before, start, at);
    assert (group + [c])[..|group|] == group;
    if m >= 0 && bars[m].timestamp == at {
      assert IsBucketBar(before, start, bars[m]);
    } else {
      forall i | 0 <= i < |before| ensures start(before[i].timestamp) != at {
        var j :| 0 <= j < |bars| && bars[j].timestamp == start(before[i].timestamp);
        assert now[j] == bars[j] && now[j].timestamp < now[|bars|].timestamp;
      }
      NoBarNoBucket(before, start, at);
    }
  }

  lemma {:induction false} NoBarNoBucket(candles: seq<Candle>, start: int -> int, at: int)
    requires forall i :: 0 <= i < |candles| ==> start(candles[i].timestamp) != at
    ensures InBucket(candles, start, at) == []
  {
    if candles != [] {
      NoBarNoBucket(candles[..|candles| - 1], start, at);
    }
  }

  function Times(bars: seq<Candle>): (times: seq<int>)
    ensures |times| == |bars| && forall i :: 0 <= i < |bars| ==> times[i] == bars[i].timestamp
  {
    seq(|bars|, i requires 0 <= i < |bars| => bars[i].timestamp)
  }

  lemma {:induction false} BucketNonEmpty(candles: seq<Candle>, start: int -> int, at: int)
    ensures InBucket(candles, start, at) != [] <==> exists i :: 0 <= i < |candles| && start(candles[i].timestamp) == at
  {
    if candles != [] {
      var n := |candles| - 1;
      BucketNonEmpty(candles[..n], start, at);
      if InBucket(candles[..n], start, at) != [] {
        var i :| 0 <= i < n && start(candles[..n][i].timestamp) == at;
        assert start(candles[i].timestamp) == at;
      }
    }
  }

  /** One bar of the sorted list, from its bucket sorted on its own. */
  lemma BarFromBucket(candles: seq<Candle>, start: int -> int, at: int, sortedBar: Candle, bar: Candle)
    requires IsSortedBar(candles, start, at, sortedBar)
    requires IsBucketBar(Sort(candles, TIME), start, bar) && bar.timestamp == at
    ensures sortedBar == bar
  {
    SortThenChoose(candles, start, at);
    hide Sort, InBucket, Aggregate;
  }

  lemma KeysAreTimes(candles: seq<Candle>, start: int -> int, keys: seq<int>)
    requires Monotone(start) && Ascends(keys)
    requires forall k :: k in keys <==> InBucket(candles, start, k) != []
    ensures keys == Times(Bars(Sort(candles, TIME), start))
    ensures AllBucketBars(Sort(candles, TIME), start, Bars(Sort(candles, TIME), start))
  {
    var sorted := Sort(candles, TIME);
    var bars := Bars(sorted, start);
    SortedInOrder(candles);
    BarsInOrder(sorted, start);
    BarsAreBuckets(sorted, start);
    hide Sort, InBucket, Aggregate, Bars, AllBucketBars, AllHaveBars, InOrder, Monotone;
    forall k ensures k in keys <==> k in Times(bars) {
      BucketIsABar(candles, start, k);
    }
    AscendingIsUnique(keys, Times(bars));
  }

  /** The buckets taken in key order, each sorted and aggregated, are the bars of the sorted list. */
  lemma BucketByBucketIsBars(candles: seq<Candle>, start: int -> int, keys: seq<int>, result: seq<Candle>)
    requires Monotone(start) && Ascends(keys) && |result| == |keys|
    requires forall k :: k in keys <==> InBucket(candles, start, k) != []
    requires forall i :: 0 <= i < |keys| ==> IsSortedBar(candles, start, keys[i], result[i])
    ensures result == Bars(Sort(candles, TIME), start)
  {
    var bars := Bars(Sort(candles, TIME), start);
    KeysAreTimes(candles, start, keys);
    hide Sort, InBucket, Bars, IsSortedBar, IsBucketBar, Monotone, Ascends;
    forall i | 0 <= i < |keys| ensures result[i] == bars[i] {
      assert bars[i].timestamp == Times(bars)[i] == keys[i];
      assert IsBucketBar(Sort(candles, TIME), start, bars[i]);
      BarFromBucket(candles, start, keys[i], result[i], bars[i]);
    }
  }

  ghost predicate IsSortedBar(candles: seq<Candle>, start: int -> int, at: int, bar: Candle) {
    var group := Sort(InBucket(candles, start, at), TIME);
    group != [] && bar == Aggregate(group, at)
  }

  lemma BucketIsABar(candles: seq<Candle>, start: int -> int, at: int)
    requires Monotone(start) && InOrder(Sort(candles, TIME))
    requires AllBucketBars(Sort(candles, TIME), start, Bars(Sort(candles, TIME), start))
    requires AllHaveBars(Sort(candles, TIME), start, Bars(Sort(candles, TIME), start))
    ensures InBucket(candles, start, at) != [] <==> at in Times(Bars(Sort(candles, TIME), start))
  {
    var sorted := Sort(candles, TIME);
    var bars := Bars(sorted, start);
    SortThenChoose(candles, start, at);
    SortSorts(InBucket(candles, start, at), TIME);
    assert |multiset(Sort(InBucket(candles, start, at), TIME))| == |multiset(InBucket(candles, start, at))|;
    BucketNonEmpty(sorted, start, at);
    if InBucket(sorted, start, at) != [] {
      var i :| 0 <= i < |sorted| && start(sorted[i].timestamp) == at;
      assert HasBar(bars, start(sorted[i].timestamp));
      var j :| 0 <= j < |bars| && bars[j].timestamp == at;
      assert Times(bars)[j] == at;
    }
    if at in Times(bars) {
      var j :| 0 <= j < |bars| && Times(bars)[j] == at;
      assert IsBucketBar(sorted, start, bars[j]);
    }
  }

  datatype Error = CANNOT_DERIVE

  /** `order` lists the keys of the dictionary, each once. */
  ghost predicate Lists(order: seq<int>, buckets: map<int, seq<Candle>>) {
    Distinct(order) && forall k :: k in order <==> k in buckets
  }

  /** The dictionary holds exactly the non-empty buckets. */
  ghost predicate Holds(buckets: map<int, seq<Candle>>, candles: seq<Candle>, start: int -> int) {
    && (forall k :: k in buckets ==> buckets[k] == InBucket(candles, start, k) && buckets[k] != [])
    && (forall k :: k !in buckets ==> InBucket(candles, start, k) == [])
  }

  lemma ListsOneMore(order: seq<int>, buckets: map<int, seq<Candle>>, at: int, bucket: seq<Candle>)
    requires Lists(order, buckets)
    ensures Lists(if at in buckets then order else order + [at], buckets[at := bucket])
  {}

  lemma HoldsOneMore(buckets: map<int, seq<Candle>>, candles: seq<Candle>, c: Candle, start: int -> int)
    requires Holds(buckets, candles, start)
    ensures var at := start(c.timestamp);
            Holds(buckets[at := (if at in buckets then buckets[at] else []) + [c]], candles + [c], start)
  {
    hide InBucket;
    forall k
      ensures start(c.timestamp) == k ==> InBucket(candles + [c], start, k) == InBucket(candles, start, k) + [c]
      ensures start(c.timestamp) != k ==> InBucket(candles + [c], start, k) == InBucket(candles, start, k)
    {
      BucketGrows(candles, c, start, k);
    }
  }

  lemma BucketGrows(candles: seq<Candle>, c: Candle, start: int -> int, k: int)
    ensures start(c.timestamp) == k ==> InBucket(candles + [c], start, k) == InBucket(candles, start, k) + [c]
    ensures start(c.timestamp) != k ==> InBucket(candles + [c], start, k) == InBucket(candles, start, k)
  {
    InBucketAppend(candles, c, start, k);
    assert InBucket(candles, start, k) + [] == InBucket(candles, start, k);
  }

  /** The dictionary of buckets, in the order their first candles come. */
  method Buckets(candles: seq<Candle>, tf: Timeframe) returns (buckets: map<int, seq<Candle>>, order: seq<int>)
    ensures Lists(order, buckets) && Holds(buckets, candles, Starts(tf))
  {
    hide BucketStart, InBucket, Lists, Holds;
    buckets, order := map[], [];
    NoCandlesNoBuckets(Starts(tf));
    assert candles[..0] == [];
    for i := 0 to |candles|
      invariant Lists(order, buckets) && Holds(buckets, candles[..i], Starts(tf))
    {
      var candle := candles[i];
      var bucket := BucketStart(candle.timestamp, tf);
      HoldsOneMore(buckets, candles[..i], candle, Starts(tf));
      assert candles[..i + 1] == candles[..i] + [candle];
      if bucket in buckets {
        ListsOneMore(order, buckets, bucket, buckets[bucket] + [candle]);
        buckets := buckets[bucket := buckets[bucket] + [candle]];
      } else {
        assert [] + [candle] == [candle];
        ListsOneMore(order, buckets, bucket, [candle]);
        buckets := buckets[bucket := [candle]];
        order := order + [bucket];
      }
    }
    assert candles[..|candles|] == candles;
  }

  lemma NoCandlesNoBuckets(start: int -> int)
    ensures Lists([], map[]) && Holds(map[], [], start)
  {}

  /** `resample_candles`: grouping in a dictionary, sorting its keys and each group, gives the bars
      of the sorted list. */
  method ResampleCandles(candles: seq<Candle>, source: Timeframe, target: Timeframe)
    returns (r: Result<seq<Candle>, Error>)
    ensures r == if IsValidUpsample(source, target) then Ok(Resampled(candles, target)) else Err(CANNOT_DERIVE)
  {
    if !IsValidUpsample(source, target) {
      return Err(CANNOT_DERIVE);
    }
    var buckets, order := Buckets(candles, target);
    SortedKeys(order);
    var keys := Sort(order, KEY);
    var result: seq<Candle> := [];
    for i := 0 to |keys|
      invariant |result| == i
      invariant forall j :: 0 <= j < i ==> IsSortedBar(candles, Starts(target), keys[j], result[j])
    {
      assert keys[i] in keys;
      var bar := BucketBar(candles, target, keys[i], buckets[keys[i]]);
      result := result + [bar];
    }
    StartsMonotone(target);
    BucketByBucketIsBars(candles, Starts(target), keys, result);
    r := Ok(result);
  }

  /** One bucket sorted, aggregated and stamped with its start. */
  method BucketBar(candles: seq<Candle>, tf: Timeframe, at: int, bucket: seq<Candle>) returns (bar: Candle)
    requires bucket == InBucket(candles, Starts(tf), at) && bucket != []
    ensures IsSortedBar(candles, Starts(tf), at, bar)
  {
    var group := Sort(bucket, TIME);
    SortSorts(bucket, TIME);
    assert |multiset(group)| == |multiset(bucket)|;
    var aggregated := AggregateCandles(group);
    RestampedAggregate(group, group[0].timestamp, at);
    bar := aggregated.value.(timestamp := at);
  }

  lemma {:induction false} RestampedAggregate(group: seq<Candle>, at: int, stamp: int)
    requires group != []
    ensures Aggregate(group, at).(timestamp := stamp) == Aggregate(group, stamp)
  {
    if |group| > 1 {
      RestampedAggregate(group[..|group| - 1], at, stamp);
    }
  }
}
