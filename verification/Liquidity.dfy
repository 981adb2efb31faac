/**
Liquidity pools (`detect_equal_levels`, `detect_session_levels`, `detect_sweeps`). The grouping of
equal levels looks only at a binary-searched band around each anchor; it is proved to find the
groups of the full quadratic scan.
*/
module Liquidity {
  import opened Common
  import opened Market
  import opened Swings
  import opened Sorting

  datatype LiquiditySide = BUY_SIDE | SELL_SIDE

  datatype Source = EQUAL_LEVELS | PREVIOUS_DAY | PREVIOUS_WEEK

  datatype Level = Level(
    side: LiquiditySide,
    source: Source,
    price: real,
    formedIndex: nat,
    formedTimestamp: int,
    members: seq<int>)

  // ------------------------------------------------------------ grouping, the quadratic way

  function Tolerance(anchor: Swing, pct: real): real {
    anchor.price * (pct / 100.0)
  }

  predicate Near(s: Swing, anchor: Swing, pct: real) {
    Abs(s.price - anchor.price) <= Tolerance(anchor, pct)
  }

  predicate Fits(s: Swing, used: set<nat>, anchor: Swing, pct: real) {
    s.index !in used && Near(s, anchor, pct)
  }

  /** Every free swing of the list within tolerance of the anchor. */
  function Group(swings: seq<Swing>, used: set<nat>, anchor: Swing, pct: real): seq<Swing> {
    if swings == [] then []
    else
      var n := |swings| - 1;
      Group(swings[..n], used, anchor, pct) + if Fits(swings[n], used, anchor, pct) then [swings[n]] else []
  }

  function Indices(group: seq<Swing>): set<nat> {
    set i | 0 <= i < |group| :: group[i].index
  }

  datatype Grouping = Grouping(used: set<nat>, groups: seq<seq<Swing>>)

  function WithAnchor(st: Grouping, candidates: seq<Swing>, anchor: Swing, pct: real): Grouping {
    var group := Group(candidates, st.used, anchor, pct);
    if anchor.index in st.used || |group| < 2 then st
    else Grouping(st.used + Indices(group), st.groups + [group])
  }

  /** The greedy grouping after its first `n` anchors. */
  function Grouped(candidates: seq<Swing>, pct: real, n: nat): Grouping
    requires n <= |candidates|
  {
    if n == 0 then Grouping({}, [])
    else WithAnchor(Grouped(candidates, pct, n - 1), candidates, candidates[n - 1], pct)
  }

  // ------------------------------------------------------------------- the band is enough

  lemma {:induction false} GroupConcat(a: seq<Swing>, b: seq<Swing>, used: set<nat>, anchor: Swing, pct: real)
    ensures Group(a + b, used, anchor, pct) == Group(a, used, anchor, pct) + Group(b, used, anchor, pct)
  {
    if b == [] {
      assert a + b == a;
    } else {
      var n := |b| - 1;
      assert (a + b)[..|a| + n] == a + b[..n];
      GroupConcat(a, b[..n], used, anchor, pct);
    }
  }

  lemma {:induction false} NothingNear(swings: seq<Swing>, used: set<nat>, anchor: Swing, pct: real)
    requires forall i :: 0 <= i < |swings| ==> !Near(swings[i], anchor, pct)
    ensures Group(swings, used, anchor, pct) == []
  {
    if swings != [] {
      NothingNear(swings[..|swings| - 1], used, anchor, pct);
    }
  }

  /** A slice that leaves out only prices outside the band keeps the whole group. */
  lemma BandKeepsGroup(swings: seq<Swing>, used: set<nat>, anchor: Swing, pct: real, lo: nat, hi: nat)
    requires lo <= hi <= |swings|
    requires forall i :: 0 <= i < lo ==> swings[i].price < anchor.price - Tolerance(anchor, pct)
    requires forall i :: hi <= i < |swings| ==> swings[i].price > anchor.price + Tolerance(anchor, pct)
    ensures Group(swings[lo..hi], used, anchor, pct) == Group(swings, used, anchor, pct)
  {
    var before, band, beyond := swings[..lo], swings[lo..hi], swings[hi..];
    assert swings == before + band + beyond;
    GroupConcat(before, band, used, anchor, pct);
    GroupConcat(before + band, beyond, used, anchor, pct);
    NothingNear(before, used, anchor, pct);
    NothingNear(beyond, used, anchor, pct);
  }

  lemma NegativeToleranceGroupsNothing(swings: seq<Swing>, used: set<nat>, anchor: Swing, pct: real)
    requires Tolerance(anchor, pct) < 0.0
    ensures Group(swings, used, anchor, pct) == []
  {
    NothingNear(swings, used, anchor, pct);
  }

  /** The comprehension that builds a group out of a slice. */
  method Collect(slice: seq<Swing>, used: set<nat>, anchor: Swing, pct: real) returns (group: seq<Swing>)
    ensures group == Group(slice, used, anchor, pct)
  {
    group := [];
    for i := 0 to |slice|
      invariant group == Group(slice[..i], used, anchor, pct)
    {
      assert slice[..i + 1][..i] == slice[..i];
      if slice[i].index !in used && Abs(slice[i].price - anchor.price) <= Tolerance(anchor, pct) {
        group := group + [slice[i]];
      }
    }
    assert slice[..|slice|] == slice;
  }

  predicate ByPrice(swings: seq<Swing>) {
    forall i, j :: 0 <= i < j < |swings| ==> swings[i].price <= swings[j].price
  }

  /** One anchor's group, found inside its band: one position wider than the two bisections on
      each side, and filtered by the same test. */
  method BandedGroup(candidates: seq<Swing>, prices: seq<real>, used: set<nat>, anchor: Swing, pct: real)
    returns (group: seq<Swing>)
    requires ByPrice(candidates) && |prices| == |candidates|
    requires forall i :: 0 <= i < |prices| ==> prices[i] == candidates[i].price
    ensures group == Group(candidates, used, anchor, pct)
  {
    var tolerance := Tolerance(anchor, pct);
    var left := BisectLeft(prices, anchor.price - tolerance);
    var right := BisectRight(prices, anchor.price + tolerance);
    var lo := if left == 0 then 0 else left - 1;
    var hi := if right + 1 < |candidates| then right + 1 else |candidates|;
    if lo <= hi {
      group := Collect(candidates[lo..hi], used, anchor, pct);
      forall i | 0 <= i < lo ensures candidates[i].price < anchor.price - tolerance {
        assert prices[i] < anchor.price - tolerance;
      }
      forall i | hi <= i < |candidates| ensures candidates[i].price > anchor.price + tolerance {
        assert !(i < right);
        assert prices[i] > anchor.price + tolerance;
      }
      BandKeepsGroup(candidates, used, anchor, pct, lo, hi);
    } else {
      group := [];
      assert !(hi < right) && prices[hi] > anchor.price + tolerance;
      assert hi < left && prices[hi] < anchor.price - tolerance;
      NegativeToleranceGroupsNothing(candidates, used, anchor, pct);
    }
  }

  // ------------------------------------------------------------------------ equal levels

  function OfType(swings: seq<Swing>, kind: SwingType): seq<Swing> {
    if swings == [] then []
    else
      var n := |swings| - 1;
      OfType(swings[..n], kind) + if swings[n].kind == kind then [swings[n]] else []
  }

  /** The swings of a kind by price, equal prices in their original order. */
  function Candidates(swings: seq<Swing>, kind: SwingType): seq<Swing> {
    Sort(OfType(swings, kind), (s: Swing) => s.price)
  }

  lemma CandidatesByPrice(swings: seq<Swing>, kind: SwingType)
    ensures ByPrice(Candidates(swings, kind))
    ensures multiset(Candidates(swings, kind)) == multiset(OfType(swings, kind))
  {
    var key := (s: Swing) => s.price;
    SortSorts(OfType(swings, kind), key);
    var sorted := Candidates(swings, kind);
    forall i, j | 0 <= i < j < |sorted| ensures sorted[i].price <= sorted[j].price {
      assert key(sorted[i]) <= key(sorted[j]);
    }
  }

  function Prices(group: seq<Swing>): (prices: seq<real>)
    ensures |prices| == |group| && forall i :: 0 <= i < |group| ==> prices[i] == group[i].price
  {
    seq(|group|, i requires 0 <= i < |group| => group[i].price)
  }

  /** The member with the largest index, the first of them if it is shared. */
  function LastMember(group: seq<Swing>): (s: Swing)
    requires group != []
    ensures s in group && forall i :: 0 <= i < |group| ==> group[i].index <= s.index
  {
    if |group| == 1 then group[0]
    else
      var n := |group| - 1;
      var best := LastMember(group[..n]);
      if group[n].index > best.index then group[n] else best
  }

  function IndexList(group: seq<Swing>): (indices: seq<int>)
    ensures |indices| == |group| && forall i :: 0 <= i < |group| ==> indices[i] == group[i].index
  {
    seq(|group|, i requires 0 <= i < |group| => group[i].index)
  }

  function SortedIndices(group: seq<Swing>): seq<int> {
    Sort(IndexList(group), (n: int) => n as real)
  }

  function SideOf(kind: SwingType): LiquiditySide {
    if kind.HIGH? then BUY_SIDE else SELL_SIDE
  }

  function LevelOf(group: seq<Swing>, kind: SwingType): Level
    requires group != []
  {
    Level(SideOf(kind), EQUAL_LEVELS, Sum(Prices(group)) / |group| as real, LastMember(group).index,
          LastMember(group).timestamp, SortedIndices(group))
  }

  predicate NoneEmpty(groups: seq<seq<Swing>>) {
    forall i :: 0 <= i < |groups| ==> groups[i] != []
  }

  function LevelsOf(groups: seq<seq<Swing>>, kind: SwingType): seq<Level>
    requires NoneEmpty(groups)
  {
    seq(|groups|, i requires 0 <= i < |groups| => LevelOf(groups[i], kind))
  }

  lemma LevelsOfAppend(groups: seq<seq<Swing>>, group: seq<Swing>, kind: SwingType)
    requires NoneEmpty(groups) && group != []
    ensures NoneEmpty(groups + [group])
    ensures LevelsOf(groups + [group], kind) == LevelsOf(groups, kind) + [LevelOf(group, kind)]
  {}

  /** The groups the full quadratic scan finds. */
  function Groups(swings: seq<Swing>, kind: SwingType, pct: real): seq<seq<Swing>> {
    Grouped(Candidates(swings, kind), pct, |Candidates(swings, kind)|).groups
  }

  /** The levels of one kind. */
  method LevelsOfKind(swings: seq<Swing>, kind: SwingType, pct: real) returns (levels: seq<Level>)
    ensures NoneEmpty(Groups(swings, kind, pct)) && levels == LevelsOf(Groups(swings, kind, pct), kind)
  {
    hide LevelOf, Group;
    CandidatesByPrice(swings, kind);
    var candidates := Candidates(swings, kind);
    var prices := Prices(candidates);
    ghost var groups: seq<seq<Swing>> := [];
    var used: set<nat> := {};
    levels := [];
    for n := 0 to |candidates|
      invariant Grouping(used, groups) == Grouped(candidates, pct, n)
      invariant NoneEmpty(groups) && levels == LevelsOf(groups, kind)
    {
      var anchor := candidates[n];
      if anchor.index !in used {
        var group := BandedGroup(candidates, prices, used, anchor, pct);
        if |group| >= 2 {
          used := used + Indices(group);
          LevelsOfAppend(groups, group, kind);
          groups := groups + [group];
          levels := levels + [LevelOf(group, kind)];
        }
      }
    }
  }

  /** `detect_equal_levels`: the banded scan returns exactly the pools of the quadratic one. */
  method DetectEqualLevels(swings: seq<Swing>, pct: real) returns (levels: seq<Level>)
    ensures NoneEmpty(Groups(swings, HIGH, pct)) && NoneEmpty(Groups(swings, LOW, pct))
    ensures levels == LevelsOf(Groups(swings, HIGH, pct), HIGH) + LevelsOf(Groups(swings, LOW, pct), LOW)
  {
    var highs := LevelsOfKind(swings, HIGH, pct);
    var lows := LevelsOfKind(swings, LOW, pct);
    levels := highs + lows;
  }

  // --------------------------------------------------------------------- what the pools are

  lemma {:induction false} GroupMembers(swings: seq<Swing>, used: set<nat>, anchor: Swing, pct: real)
    ensures forall s :: s in Group(swings, used, anchor, pct) <==> s in swings && Fits(s, used, anchor, pct)
  {
    if swings != [] {
      var n := |swings| - 1;
      GroupMembers(swings[..n], used, anchor, pct);
      assert swings == swings[..n] + [swings[n]];
    }
  }

  lemma {:induction false} GroupByPrice(swings: seq<Swing>, used: set<nat>, anchor: Swing, pct: real)
    requires ByPrice(swings)
    ensures ByPrice(Group(swings, used, anchor, pct))
  {
    if swings != [] {
      var n := |swings| - 1;
      var before := Group(swings[..n], used, anchor, pct);
      GroupByPrice(swings[..n], used, anchor, pct);
      GroupMembers(swings[..n], used, anchor, pct);
      forall i | 0 <= i < |before| ensures before[i].price <= swings[n].price {
        assert before[i] in swings[..n];
      }
    }
  }

  predicate AllNear(group: seq<Swing>, anchor: Swing, pct: real) {
    forall i :: 0 <= i < |group| ==> Near(group[i], anchor, pct)
  }

  /** What is true of each group: members of the list, within tolerance of one of them, by price. */
  ghost predicate Sound(group: seq<Swing>, candidates: seq<Swing>, pct: real) {
    && |group| >= 2
    && ByPrice(group)
    && (forall i :: 0 <= i < |group| ==> group[i] in candidates)
    && exists anchor :: anchor in candidates && AllNear(group, anchor, pct)
  }

  lemma GroupIsSound(candidates: seq<Swing>, used: set<nat>, anchor: Swing, pct: real)
    requires ByPrice(candidates) && anchor in candidates
    ensures var g := Group(candidates, used, anchor, pct);
            |g| >= 2 ==> Sound(g, candidates, pct) && Indices(g) !! used
  {
    var g := Group(candidates, used, anchor, pct);
    GroupMembers(candidates, used, anchor, pct);
    GroupByPrice(candidates, used, anchor, pct);
    forall i | 0 <= i < |g| ensures g[i] in candidates && Fits(g[i], used, anchor, pct) {
      assert g[i] in g;
    }
  }

  ghost predicate Disjoint(groups: seq<seq<Swing>>) {
    forall i, j :: 0 <= i < j < |groups| ==> Indices(groups[i]) !! Indices(groups[j])
  }

  lemma {:induction false} GroupedIsSound(candidates: seq<Swing>, pct: real, n: nat)
    requires n <= |candidates| && ByPrice(candidates)
    ensures var st := Grouped(candidates, pct, n);
            && Disjoint(st.groups)
            && forall i :: 0 <= i < |st.groups| ==>
                 Sound(st.groups[i], candidates, pct) && Indices(st.groups[i]) <= st.used
  {
    if n > 0 {
      GroupedIsSound(candidates, pct, n - 1);
      GroupIsSound(candidates, Grouped(candidates, pct, n - 1).used, candidates[n - 1], pct);
    }
  }

  ghost predicate Pooled(x: nat, groups: seq<seq<Swing>>) {
    exists i :: 0 <= i < |groups| && x in Indices(groups[i])
  }

  lemma PooledStays(x: nat, groups: seq<seq<Swing>>, group: seq<Swing>)
    ensures Pooled(x, groups) || x in Indices(group) ==> Pooled(x, groups + [group])
  {
    var more := groups + [group];
    if Pooled(x, groups) {
      var i :| 0 <= i < |groups| && x in Indices(groups[i]);
      assert more[i] == groups[i];
    } else if x in Indices(group) {
      assert more[|groups|] == group;
    }
  }

  /** A swing the grouping marked as used is in one of its pools. */
  lemma {:induction false} UsedArePooled(candidates: seq<Swing>, pct: real, n: nat, x: nat)
    requires n <= |candidates|
    ensures x in Grouped(candidates, pct, n).used ==> Pooled(x, Grouped(candidates, pct, n).groups)
  {
    if n > 0 {
      var st := Grouped(candidates, pct, n - 1);
      UsedArePooled(candidates, pct, n - 1, x);
      PooledStays(x, st.groups, Group(candidates, st.used, candidates[n - 1], pct));
    }
  }

  lemma {:induction false} SumBetween(xs: seq<real>, lo: real, hi: real)
    requires forall i :: 0 <= i < |xs| ==> lo <= xs[i] <= hi
    ensures |xs| as real * lo <= Sum(xs) <= |xs| as real * hi
  {
    if xs != [] {
      SumBetween(xs[1..], lo, hi);
    }
  }

  lemma AverageBetween(group: seq<Swing>, kind: SwingType)
    requires group != [] && ByPrice(group)
    ensures group[0].price <= LevelOf(group, kind).price <= group[|group| - 1].price
  {
    hide Sum;
    var prices, n := Prices(group), |group| as real;
    SumBetween(prices, group[0].price, group[|group| - 1].price);
    DivOrder(Sum(prices), n, group[0].price);
    DivOrder(Sum(prices), n, group[|group| - 1].price);
  }

  lemma SameElements<T>(xs: seq<T>, ys: seq<T>, x: T)
    requires multiset(xs) == multiset(ys)
    ensures x in xs <==> x in ys
  {
    assert x in xs <==> x in multiset(xs);
    assert x in ys <==> x in multiset(ys);
  }

  lemma SortedIndicesAre(group: seq<Swing>)
    ensures forall x :: x in SortedIndices(group) <==> x in Indices(group)
  {
    var raw := IndexList(group);
    SortSorts(raw, (n: int) => n as real);
    forall x: int ensures x in SortedIndices(group) <==> x in Indices(group) {
      SameElements(SortedIndices(group), raw, x);
      if x in raw {
        var i :| 0 <= i < |raw| && raw[i] == x;
        assert x == group[i].index;
      }
      if x in Indices(group) {
        var i :| 0 <= i < |group| && group[i].index == x;
        assert raw[i] == x;
      }
    }
  }

  /** The level of a group lies between its lowest and highest member, lists exactly its members
      and is formed at the last of them. */
  ghost predicate LevelFits(level: Level, group: seq<Swing>)
    requires group != []
  {
    && group[0].price <= level.price <= group[|group| - 1].price
    && (forall x :: x in level.members <==> x in Indices(group))
    && level.formedIndex in level.members
    && (forall x :: x in level.members ==> x <= level.formedIndex)
  }

  lemma LevelIsOfItsGroup(group: seq<Swing>, kind: SwingType)
    requires group != [] && ByPrice(group)
    ensures LevelFits(LevelOf(group, kind), group)
  {
    AverageBetween(group, kind);
    SortedIndicesAre(group);
    assert LastMember(group).index in Indices(group);
  }

  /** Each pool has two members or more within tolerance of one of the swings, is priced between
      its members, is formed at the last of them, and shares none with another pool of its type. */
  lemma PoolsAreSound(swings: seq<Swing>, kind: SwingType, pct: real)
    ensures var groups := Groups(swings, kind, pct);
            && Disjoint(groups)
            && forall i :: 0 <= i < |groups| ==>
                 Sound(groups[i], Candidates(swings, kind), pct) && LevelFits(LevelOf(groups[i], kind), groups[i])
  {
    var groups := Groups(swings, kind, pct);
    CandidatesByPrice(swings, kind);
    GroupedIsSound(Candidates(swings, kind), pct, |Candidates(swings, kind)|);
    forall i | 0 <= i < |groups| ensures LevelFits(LevelOf(groups[i], kind), groups[i]) {
      LevelIsOfItsGroup(groups[i], kind);
    }
  }

  lemma {:induction false} TwoFit(swings: seq<Swing>, used: set<nat>, anchor: Swing, pct: real, a: nat, b: nat)
    requires a < b < |swings|
    ensures Fits(swings[a], used, anchor, pct) && Fits(swings[b], used, anchor, pct) ==>
              |Group(swings, used, anchor, pct)| >= 2
  {
    var front, back := swings[..b], swings[b..];
    assert swings == front + back;
    GroupConcat(front, back, used, anchor, pct);
    GroupMembers(front, used, anchor, pct);
    GroupMembers(back, used, anchor, pct);
    assert front[a] == swings[a] && back[0] == swings[b];
  }

  lemma AnchorIsPooled(candidates: seq<Swing>, st: Grouping, a: nat, pct: real)
    requires a < |candidates| && Tolerance(candidates[a], pct) >= 0.0
    requires candidates[a].index !in WithAnchor(st, candidates, candidates[a], pct).used
    ensures candidates[a].index !in st.used && |Group(candidates, st.used, candidates[a], pct)| < 2
  {
    var group := Group(candidates, st.used, candidates[a], pct);
    GroupMembers(candidates, st.used, candidates[a], pct);
    if candidates[a].index !in st.used {
      assert Near(candidates[a], candidates[a], pct);
      assert candidates[a] in group;
      var i :| 0 <= i < |group| && group[i] == candidates[a];
      assert candidates[a].index in Indices(group);
    }
  }

  /** What stays unpooled is alone: no other free swing is within its tolerance. */
  lemma {:induction false} LeftoversAreAlone(candidates: seq<Swing>, pct: real, n: nat, a: nat, b: nat)
    requires a < n <= |candidates| && b < |candidates| && a != b
    requires pct >= 0.0 && candidates[a].price >= 0.0
    requires candidates[a].index !in Grouped(candidates, pct, n).used
    requires candidates[b].index !in Grouped(candidates, pct, n).used
    ensures !Near(candidates[b], candidates[a], pct)
  {
    var st := Grouped(candidates, pct, n - 1);
    if a < n - 1 {
      LeftoversAreAlone(candidates, pct, n - 1, a, b);
    } else {
      assert Tolerance(candidates[a], pct) >= 0.0;
      AnchorIsPooled(candidates, st, a, pct);
      TwoFit(candidates, st.used, candidates[a], pct, if a < b then a else b, if a < b then b else a);
    }
  }

  // --------------------------------------------------------------------- session levels

  datatype Period = DAY | WEEK

  function KeyOf(c: Candle, period: Period): int {
    if period.DAY? then Day(c.timestamp) else Week(c.timestamp)
  }

  function SourceOf(period: Period): Source {
    if period.DAY? then PREVIOUS_DAY else PREVIOUS_WEEK
  }

  /** The levels so far, and the period in progress with its extremes. */
  datatype Session = Session(levels: seq<Level>, start: nat, high: real, low: real)

  function SessionStep(st: Session, candle: Candle, i: nat, sameKey: bool, period: Period): Session {
    if !sameKey then
      Session(st.levels + [Level(BUY_SIDE, SourceOf(period), st.high, i, candle.timestamp, []),
                           Level(SELL_SIDE, SourceOf(period), st.low, i, candle.timestamp, [])],
              i, candle.high, candle.low)
    else
      st.(high := Max(st.high, candle.high), low := Min(st.low, candle.low))
  }

  function SessionAfter(candles: seq<Candle>, period: Period, n: nat): (st: Session)
    requires 1 <= n <= |candles|
    ensures st.start < n
  {
    if n == 1 then Session([], 0, candles[0].high, candles[0].low)
    else
      var st := SessionAfter(candles, period, n - 1);
      SessionStep(st, candles[n - 1], n - 1, KeyOf(candles[n - 1], period) == KeyOf(candles[st.start], period), period)
  }

  /** `detect_session_levels`. */
  method DetectSessionLevels(candles: seq<Candle>, period: Period) returns (levels: seq<Level>)
    ensures levels == if candles == [] then [] else SessionAfter(candles, period, |candles|).levels
  {
    levels := [];
    if candles == [] {
      return;
    }
    var currentKey := KeyOf(candles[0], period);
    var high, low := candles[0].high, candles[0].low;
    ghost var start := 0;
    for i := 0 to |candles|
      invariant i > 0 ==> Session(levels, start, high, low) == SessionAfter(candles, period, i)
      invariant i == 0 ==> levels == [] && high == candles[0].high && low == candles[0].low
      invariant start < |candles| && currentKey == KeyOf(candles[start], period)
      invariant i == 0 ==> start == 0
    {
      var candle := candles[i];
      var key := KeyOf(candle, period);
      if key != currentKey {
        levels := levels + [Level(BUY_SIDE, SourceOf(period), high, i, candle.timestamp, []),
                            Level(SELL_SIDE, SourceOf(period), low, i, candle.timestamp, [])];
        currentKey, start := key, i;
        high, low := candle.high, candle.low;
      } else {
        high, low := Max(high, candle.high), Min(low, candle.low);
      }
    }
  }

  /** The candles from `a` up to `b` are of one period, and `a` opens it. */
  predicate IsRun(candles: seq<Candle>, period: Period, a: nat, b: nat) {
    && a < b <= |candles|
    && (forall j :: a <= j < b ==> KeyOf(candles[j], period) == KeyOf(candles[a], period))
    && (a > 0 ==> KeyOf(candles[a - 1], period) != KeyOf(candles[a], period))
  }

  predicate IsHigh(candles: seq<Candle>, a: nat, b: nat, price: real) {
    && b <= |candles|
    && (forall j :: a <= j < b ==> candles[j].high <= price)
    && exists j :: a <= j < b && candles[j].high == price
  }

  predicate IsLow(candles: seq<Candle>, a: nat, b: nat, price: real) {
    && b <= |candles|
    && (forall j :: a <= j < b ==> candles[j].low >= price)
    && exists j :: a <= j < b && candles[j].low == price
  }

  /** The level stands at the extreme of a whole period, formed at the first candle after it. */
  predicate IsSessionLevel(l: Level, candles: seq<Candle>, period: Period, a: nat) {
    && IsRun(candles, period, a, l.formedIndex)
    && l.formedIndex < |candles| && KeyOf(candles[l.formedIndex], period) != KeyOf(candles[a], period)
    && l.members == [] && l.source == SourceOf(period)
    && if l.side.BUY_SIDE? then IsHigh(candles, a, l.formedIndex, l.price)
       else IsLow(candles, a, l.formedIndex, l.price)
  }

  lemma {:induction false} SessionIsARun(candles: seq<Candle>, period: Period, n: nat)
    requires 1 <= n <= |candles|
    ensures IsRun(candles, period, SessionAfter(candles, period, n).start, n)
  {
    hide KeyOf;
    if n > 1 {
      SessionIsARun(candles, period, n - 1);
      var st := SessionAfter(candles, period, n - 1);
      assert KeyOf(candles[n - 2], period) == KeyOf(candles[st.start], period);
    }
  }

  lemma ExtremesGrow(candles: seq<Candle>, a: nat, b: nat, high: real, low: real)
    requires a < b < |candles| && IsHigh(candles, a, b, high) && IsLow(candles, a, b, low)
    ensures IsHigh(candles, a, b + 1, Max(high, candles[b].high)) && IsLow(candles, a, b + 1, Min(low, candles[b].low))
  {
    var h :| a <= h < b && candles[h].high == high;
    var l :| a <= l < b && candles[l].low == low;
    assert candles[h].high == Max(high, candles[b].high) || candles[b].high == Max(high, candles[b].high);
    assert candles[l].low == Min(low, candles[b].low) || candles[b].low == Min(low, candles[b].low);
  }

  lemma ExtremesOfOne(candles: seq<Candle>, a: nat)
    requires a < |candles|
    ensures IsHigh(candles, a, a + 1, candles[a].high) && IsLow(candles, a, a + 1, candles[a].low)
  {
    assert candles[a].high == candles[a].high && candles[a].low == candles[a].low;
  }

  lemma {:induction false} SessionExtremes(candles: seq<Candle>, period: Period, n: nat)
    requires 1 <= n <= |candles|
    ensures var st := SessionAfter(candles, period, n);
            IsRun(candles, period, st.start, n) && IsHigh(candles, st.start, n, st.high) &&
              IsLow(candles, st.start, n, st.low)
  {
    hide KeyOf, IsHigh, IsLow, IsRun;
    SessionIsARun(candles, period, n);
    ExtremesOfOne(candles, n - 1);
    if n > 1 {
      SessionExtremes(candles, period, n - 1);
      var st := SessionAfter(candles, period, n - 1);
      ExtremesGrow(candles, st.start, n - 1, st.high, st.low);
    }
  }

  /** Every session level is the extreme of the whole period before the candle that formed it. */
  lemma {:induction false} SessionLevelsAreExtremes(candles: seq<Candle>, period: Period, n: nat, i: nat)
    requires 1 <= n <= |candles| && i < |SessionAfter(candles, period, n).levels|
    ensures exists a: nat :: IsSessionLevel(SessionAfter(candles, period, n).levels[i], candles, period, a)
  {
    var st, now := SessionAfter(candles, period, n - 1), SessionAfter(candles, period, n);
    if i < |st.levels| {
      SessionLevelsAreExtremes(candles, period, n - 1, i);
      assert now.levels[i] == st.levels[i];
    } else {
      SessionExtremes(candles, period, n - 1);
      assert IsSessionLevel(SessionAfter(candles, period, n).levels[i], candles, period, st.start);
    }
  }

  predicate PairAt(levels: seq<Level>, i: int, b: nat) {
    && 0 <= i && i + 1 < |levels|
    && levels[i].formedIndex == levels[i + 1].formedIndex == b
    && levels[i].side == BUY_SIDE && levels[i + 1].side == SELL_SIDE
  }

  lemma PairStays(early: seq<Level>, later: seq<Level>, i: int, b: nat)
    requires early <= later && PairAt(early, i, b)
    ensures PairAt(later, i, b)
  {
    assert later[i] == early[i] && later[i + 1] == early[i + 1];
  }

  /** And every change of period makes a level on each side. */
  lemma {:induction false} EveryPeriodLeavesLevels(candles: seq<Candle>, period: Period, n: nat, b: nat)
    requires 1 <= b < n <= |candles|
    requires KeyOf(candles[b], period) != KeyOf(candles[b - 1], period)
    ensures exists i :: PairAt(SessionAfter(candles, period, n).levels, i, b)
  {
    var st, now := SessionAfter(candles, period, n - 1), SessionAfter(candles, period, n);
    if b < n - 1 {
      EveryPeriodLeavesLevels(candles, period, n - 1, b);
      var i :| PairAt(st.levels, i, b);
      PairStays(st.levels, now.levels, i, b);
    } else {
      SessionExtremes(candles, period, n - 1);
      assert KeyOf(candles[b - 1], period) == KeyOf(candles[st.start], period);
      assert PairAt(now.levels, |st.levels|, b);
    }
  }

  lemma {:induction false} SessionOfPrefix(candles: seq<Candle>, period: Period, k: nat, n: nat)
    requires 1 <= n <= k <= |candles|
    ensures SessionAfter(candles[..k], period, n) == SessionAfter(candles, period, n)
  {
    if n > 1 {
      SessionOfPrefix(candles, period, k, n - 1);
    }
  }

  lemma {:induction false} LevelsOnlyAdded(candles: seq<Candle>, period: Period, k: nat, n: nat)
    requires 1 <= k <= n <= |candles|
    ensures var early, all := SessionAfter(candles, period, k).levels, SessionAfter(candles, period, n).levels;
            && early <= all
            && (forall i :: |early| <= i < |all| ==> all[i].formedIndex >= k)
            && (forall i :: 0 <= i < |early| ==> early[i].formedIndex < k)
    decreases n
  {
    if n > k {
      LevelsOnlyAdded(candles, period, k, n - 1);
    } else if n > 1 {
      LevelsOnlyAdded(candles, period, n - 1, n - 1);
    }
  }

  /** Session levels do not look ahead: those of a truncated history are exactly the leading levels
      of the whole one, the ones formed before the cut. */
  lemma SessionLevelsDoNotLookAhead(candles: seq<Candle>, period: Period, k: nat)
    requires 1 <= k <= |candles|
    ensures var cut := SessionAfter(candles[..k], period, k).levels;
            var all := SessionAfter(candles, period, |candles|).levels;
            && cut <= all
            && forall i :: 0 <= i < |all| ==> (i < |cut| <==> all[i].formedIndex < k)
  {
    SessionOfPrefix(candles, period, k, k);
    LevelsOnlyAdded(candles, period, k, |candles|);
  }

  // ------------------------------------------------------------------------------ sweeps

  class LiquidityPool {
    const level: Level
    var swept: bool
    var sweptIndex: Option<nat>
    var sweptTimestamp: Option<int>
    var rejected: bool

    constructor (level: Level)
      ensures this.level == level && !swept && sweptIndex == None && sweptTimestamp == None && !rejected
    {
      this.level := level;
      swept, sweptIndex, sweptTimestamp, rejected := false, None, None, false;
    }

    /** The fields record a sweep at candle `i`. */
    predicate Records(candles: seq<Candle>, i: nat)
      reads this
      requires i < |candles|
    {
      && swept && sweptIndex == Some(i) && sweptTimestamp == Some(candles[i].timestamp)
      && rejected == ClosesBack(level, candles[i])
    }
  }

  predicate Through(l: Level, c: Candle) {
    if l.side.BUY_SIDE? then c.high > l.price else c.low < l.price
  }

  predicate ClosesBack(l: Level, c: Candle) {
    if l.side.BUY_SIDE? then c.close < l.price else c.close > l.price
  }

  predicate Sweeps(l: Level, candles: seq<Candle>, i: int) {
    l.formedIndex <= i < |candles| && i !in l.members && Through(l, candles[i])
  }

  ghost predicate SweptAt(l: Level, candles: seq<Candle>, i: int) {
    Sweeps(l, candles, i) && forall j :: j < i ==> !Sweeps(l, candles, j)
  }

  /** `detect_sweeps`: each pool records its first sweep, at or after it formed and never by one of
      its own members, with whether that candle closed back; a pool never swept is left alone. */
  method DetectSweeps(candles: seq<Candle>, pools: seq<LiquidityPool>)
    requires forall i, j :: 0 <= i < j < |pools| ==> pools[i] != pools[j]
    modifies set p | p in pools
    ensures forall n :: 0 <= n < |pools| ==>
              || (exists i: nat :: SweptAt(pools[n].level, candles, i) && pools[n].Records(candles, i))
              || ((forall i :: !Sweeps(pools[n].level, candles, i)) && unchanged(pools[n]))
  {
    for n := 0 to |pools|
      invariant forall m :: n <= m < |pools| ==> unchanged(pools[m])
      invariant forall m :: 0 <= m < n ==>
                  || (exists i: nat :: SweptAt(pools[m].level, candles, i) && pools[m].Records(candles, i))
                  || ((forall i :: !Sweeps(pools[m].level, candles, i)) && unchanged(pools[m]))
    {
      SweepOne(candles, pools[n]);
    }
  }

  method SweepOne(candles: seq<Candle>, pool: LiquidityPool)
    modifies pool
    ensures || (exists i: nat :: SweptAt(pool.level, candles, i) && pool.Records(candles, i))
            || ((forall i :: !Sweeps(pool.level, candles, i)) && unchanged(pool))
  {
    var i := pool.level.formedIndex;
    while i < |candles|
      invariant pool.level.formedIndex <= i
      invariant forall j :: j < i ==> !Sweeps(pool.level, candles, j)
      invariant unchanged(pool)
    {
      var candle := candles[i];
      if i !in pool.level.members {
        if pool.level.side == BUY_SIDE && candle.high > pool.level.price {
          pool.swept, pool.sweptIndex, pool.sweptTimestamp := true, Some(i), Some(candle.timestamp);
          pool.rejected := candle.close < pool.level.price;
          assert SweptAt(pool.level, candles, i) && pool.Records(candles, i);
          return;
        }
        if pool.level.side == SELL_SIDE && candle.low < pool.level.price {
          pool.swept, pool.sweptIndex, pool.sweptTimestamp := true, Some(i), Some(candle.timestamp);
          pool.rejected := candle.close > pool.level.price;
          assert SweptAt(pool.level, candles, i) && pool.Records(candles, i);
          return;
        }
      }
      i := i + 1;
    }
  }

  /** Neither the candle a pool of equal levels formed at nor any other member can sweep it, though
      its price is an average that members may lie beyond: any sweep comes strictly later. */
  lemma MembersNeverSweep(swings: seq<Swing>, kind: SwingType, pct: real, n: nat, candles: seq<Candle>, i: int)
    requires n < |Groups(swings, kind, pct)| && Groups(swings, kind, pct)[n] != []
    requires Sweeps(LevelOf(Groups(swings, kind, pct)[n], kind), candles, i)
    ensures forall m :: m in Indices(Groups(swings, kind, pct)[n]) ==> m < i
  {
    PoolsAreSound(swings, kind, pct);
  }
}
