/**
Market structure: breaks of structure, changes of character and confirmed shifts
(`detect_structure_events`, `promote_confirmed_shifts`), what the labels come to, and the
second no-look-ahead theorem.
*/
module Structure {
  import opened Common
  import opened Market
  import opened Swings
  import Sorting

  datatype Side = BULLISH | BEARISH

  datatype EventKind = BOS | CHOCH | MSS

  datatype Event = Event(
    index: nat,
    timestamp: int,
    kind: EventKind,
    side: Side,
    brokenSwingIndex: nat,
    brokenPrice: real,
    breakPrice: real)

  datatype State = State(trend: Option<Side>, broken: set<nat>, events: seq<Event>)

  const START := State(None, {}, [])

  function OfKind(swings: seq<Swing>, kind: SwingType): seq<Swing> {
    if swings == [] then []
    else
      var n := |swings| - 1;
      OfKind(swings[..n], kind) + if swings[n].kind == kind then [swings[n]] else []
  }

  function LastOf(swings: seq<Swing>): Option<Swing> {
    if swings == [] then None else Some(swings[|swings| - 1])
  }

  predicate Broken(side: Side, close: real, price: real) {
    if side.BULLISH? then close > price else close < price
  }

  /** One side's test at one candle: the most recent visible swing, if it is unbroken and the
      close is through it. */
  function TryBreak(st: State, candle: Candle, i: nat, side: Side, target: Option<Swing>): State {
    if target.None? || target.value.index in st.broken || !Broken(side, candle.close, target.value.price) then st
    else
      var kind := if st.trend == Some(side) || st.trend == None then BOS else CHOCH;
      State(Some(side), st.broken + {target.value.index},
            st.events + [Event(i, candle.timestamp, kind, side, target.value.index, target.value.price, candle.close)])
  }

  function Step(st: State, candle: Candle, i: nat, visible: seq<Swing>): State {
    var up := TryBreak(st, candle, i, BULLISH, LastOf(OfKind(visible, HIGH)));
    TryBreak(up, candle, i, BEARISH, LastOf(OfKind(visible, LOW)))
  }

  /** The detector after its first `n` candles. */
  function After(candles: seq<Candle>, swings: seq<Swing>, n: nat): State
    requires n <= |candles|
  {
    if n == 0 then START
    else Step(After(candles, swings, n - 1), candles[n - 1], n - 1, Visible(swings, n - 1))
  }

  function Events(candles: seq<Candle>, swings: seq<Swing>): seq<Event> {
    After(candles, swings, |candles|).events
  }

  // ---------------------------------------------------------------------------- the code

  lemma {:induction false} OfKindAppends(swings: seq<Swing>, s: Swing, kind: SwingType)
    ensures OfKind(swings + [s], kind) == OfKind(swings, kind) + if s.kind == kind then [s] else []
  {
    assert (swings + [s])[..|swings|] == swings;
  }

  lemma VisibleIs(swings: seq<Swing>, asOf: int, n: nat)
    requires Ordered(swings) && n <= |swings|
    requires forall i :: 0 <= i < n ==> swings[i].confirmedIndex <= asOf
    requires n < |swings| ==> swings[n].confirmedIndex > asOf
    ensures Visible(swings, asOf) == swings[..n]
  {
    VisibleIsLeading(swings, asOf);
  }

  /** The stable sort by confirmation index that opens the function. */
  function ByConfirmation(swings: seq<Swing>): seq<Swing> {
    Sorting.Sort(swings, (s: Swing) => s.confirmedIndex as real)
  }

  /** The sort orders any list, loses nothing, and leaves the output of `detect_swings` as it is. */
  lemma ByConfirmationSorts(swings: seq<Swing>)
    ensures Ordered(ByConfirmation(swings))
    ensures multiset(ByConfirmation(swings)) == multiset(swings)
    ensures Ordered(swings) ==> ByConfirmation(swings) == swings
  {
    var key := (s: Swing) => s.confirmedIndex as real;
    Sorting.SortSorts(swings, key);
    var sorted := ByConfirmation(swings);
    forall i, j | 0 <= i < j < |sorted| ensures sorted[i].confirmedIndex <= sorted[j].confirmedIndex {
      assert key(sorted[i]) <= key(sorted[j]);
    }
  }

  /** `detect_structure_events`. */
  method DetectStructureEvents(candles: seq<Candle>, swings: seq<Swing>) returns (events: seq<Event>)
    ensures events == Events(candles, ByConfirmation(swings))
    ensures Ordered(swings) ==> events == Events(candles, swings)
  {
    ByConfirmationSorts(swings);
    events := ScanInOrder(candles, ByConfirmation(swings));
  }

  /** What the pointer has admitted: the leading swings, split by kind. */
  predicate Admitted(swings: seq<Swing>, next: nat, highs: seq<Swing>, lows: seq<Swing>) {
    next <= |swings| && highs == OfKind(swings[..next], HIGH) && lows == OfKind(swings[..next], LOW)
  }

  lemma AdmittedFits(swings: seq<Swing>, next: nat, highs: seq<Swing>, lows: seq<Swing>)
    requires Admitted(swings, next, highs, lows)
    ensures next <= |swings|
  {}

  lemma AdmitOne(swings: seq<Swing>, next: nat, highs: seq<Swing>, lows: seq<Swing>)
    requires Admitted(swings, next, highs, lows) && next < |swings|
    ensures var s := swings[next];
            Admitted(swings, next + 1,
                     if s.kind == HIGH then highs + [s] else highs, if s.kind == HIGH then lows else lows + [s])
  {
    var s := swings[next];
    assert swings[..next + 1] == swings[..next] + [s];
    OfKindAppends(swings[..next], s, HIGH);
    OfKindAppends(swings[..next], s, LOW);
  }

  /** The inner loop: every swing confirmed by candle `i` becomes visible. */
  method Admit(swings: seq<Swing>, from: nat, highs0: seq<Swing>, lows0: seq<Swing>, i: nat)
    returns (next: nat, highs: seq<Swing>, lows: seq<Swing>)
    requires Ordered(swings) && Admitted(swings, from, highs0, lows0)
    requires forall j :: 0 <= j < from ==> swings[j].confirmedIndex <= i
    ensures Admitted(swings, next, highs, lows) && Visible(swings, i) == swings[..next]
    ensures forall j :: 0 <= j < next ==> swings[j].confirmedIndex <= i
  {
    hide OfKind, Visible, Ordered, Admitted;
    AdmittedFits(swings, from, highs0, lows0);
    next, highs, lows := from, highs0, lows0;
    while next < |swings| && swings[next].confirmedIndex <= i
      invariant next <= |swings| && Admitted(swings, next, highs, lows)
      invariant forall j :: 0 <= j < next ==> swings[j].confirmedIndex <= i
    {
      AdmitOne(swings, next, highs, lows);
      if swings[next].kind == HIGH {
        highs := highs + [swings[next]];
      } else {
        lows := lows + [swings[next]];
      }
      next := next + 1;
    }
    VisibleIs(swings, i, next);
  }

  /** The loop over the candles, with its pointer into the sorted swings. */
  method ScanInOrder(candles: seq<Candle>, swings: seq<Swing>) returns (events: seq<Event>)
    requires Ordered(swings)
    ensures events == Events(candles, swings)
  {
    hide TryBreak;
    var st := START;
    var highs: seq<Swing>, lows: seq<Swing> := [], [];
    var next := 0;
    for i := 0 to |candles|
      invariant Admitted(swings, next, highs, lows)
      invariant forall j :: 0 <= j < next ==> swings[j].confirmedIndex <= i
      invariant st == After(candles, swings, i)
    {
      next, highs, lows := Admit(swings, next, highs, lows, i);
      st := TryBreak(st, candles[i], i, BULLISH, LastOf(highs));
      st := TryBreak(st, candles[i], i, BEARISH, LastOf(lows));
    }
    events := st.events;
  }

  // ------------------------------------------------------------------- what the labels mean

  /** An event continues exactly when it is the first or goes the way the one before it went. */
  predicate ContinuesOrTurns(events: seq<Event>, i: nat)
    requires i < |events|
  {
    events[i].kind == if i == 0 || events[i].side == events[i - 1].side then BOS else CHOCH
  }

  predicate Alternates(events: seq<Event>) {
    forall i: nat :: i < |events| ==> ContinuesOrTurns(events, i)
  }

  lemma AlternatesPrefix(events: seq<Event>, n: nat)
    requires n <= |events| && Alternates(events)
    ensures Alternates(events[..n])
  {
    forall i: nat | i < n ensures ContinuesOrTurns(events[..n], i) {
      assert ContinuesOrTurns(events, i);
    }
  }

  predicate BrokenOnce(events: seq<Event>) {
    forall i, j :: 0 <= i < j < |events| ==> events[i].brokenSwingIndex != events[j].brokenSwingIndex
  }

  predicate Consistent(st: State) {
    && Alternates(st.events)
    && BrokenOnce(st.events)
    && st.trend == (if st.events == [] then None else Some(st.events[|st.events| - 1].side))
    && (forall i :: 0 <= i < |st.events| ==> st.events[i].brokenSwingIndex in st.broken)
    && (forall i :: 0 <= i < |st.events| ==>
          Broken(st.events[i].side, st.events[i].breakPrice, st.events[i].brokenPrice))
  }

  lemma TryBreakConsistent(st: State, candle: Candle, i: nat, side: Side, target: Option<Swing>)
    requires Consistent(st)
    ensures Consistent(TryBreak(st, candle, i, side, target))
  {
    var after := TryBreak(st, candle, i, side, target);
    if after != st {
      forall j: nat | j < |after.events| ensures ContinuesOrTurns(after.events, j) {
        if j < |st.events| {
          assert ContinuesOrTurns(st.events, j);
        }
      }
    }
  }

  lemma StepConsistent(st: State, candle: Candle, i: nat, visible: seq<Swing>)
    requires Consistent(st)
    ensures Consistent(Step(st, candle, i, visible))
  {
    var high := LastOf(OfKind(visible, HIGH));
    TryBreakConsistent(st, candle, i, BULLISH, high);
    TryBreakConsistent(TryBreak(st, candle, i, BULLISH, high), candle, i, BEARISH, LastOf(OfKind(visible, LOW)));
  }

  lemma {:induction false} AfterConsistent(candles: seq<Candle>, swings: seq<Swing>, n: nat)
    requires n <= |candles|
    ensures Consistent(After(candles, swings, n))
  {
    if n > 0 {
      AfterConsistent(candles, swings, n - 1);
      StepConsistent(After(candles, swings, n - 1), candles[n - 1], n - 1, Visible(swings, n - 1));
    }
  }

  /** On every output of the detector: an event is a BOS if and only if it is first or shares the
      direction of the event before it, no swing is broken twice, and every break is real. */
  lemma EventsAreConsistent(candles: seq<Candle>, swings: seq<Swing>)
    ensures var events := Events(candles, swings);
            && Alternates(events) && BrokenOnce(events)
            && forall i :: 0 <= i < |events| ==> Broken(events[i].side, events[i].breakPrice, events[i].brokenPrice)
  {
    AfterConsistent(candles, swings, |candles|);
  }

  // ------------------------------------------------------------------- confirmed shifts

  /** The promotion loop: shifts found, the CHoCH waiting, and how often the branch that
      cancels it was taken. */
  datatype Promotion = Promotion(shifts: seq<Event>, pending: Option<Event>, cancels: nat)

  function Promoted(events: seq<Event>): Promotion {
    if events == [] then Promotion([], None, 0)
    else
      var before := Promoted(events[..|events| - 1]);
      var e := events[|events| - 1];
      if e.kind == CHOCH then before.(pending := Some(e))
      else if e.kind == BOS && before.pending.Some? then
        if e.side == before.pending.value.side then
          Promotion(before.shifts + [e.(kind := MSS)], None, before.cancels)
        else
          Promotion(before.shifts, None, before.cancels + 1)
      else before
  }

  /** `promote_confirmed_shifts`. */
  method PromoteConfirmedShifts(events: seq<Event>) returns (shifts: seq<Event>)
    ensures shifts == Promoted(events).shifts
  {
    shifts := [];
    var pending: Option<Event> := None;
    for i := 0 to |events|
      invariant shifts == Promoted(events[..i]).shifts && pending == Promoted(events[..i]).pending
    {
      var e := events[i];
      assert events[..i + 1][..i] == events[..i];
      if e.kind == CHOCH {
        pending := Some(e);
      } else if e.kind == BOS && pending.Some? {
        if e.side == pending.value.side {
          shifts := shifts + [e.(kind := MSS)];
        }
        pending := None;
      }
    }
    assert events[..|events|] == events;
  }

  /** A shift for every BOS directly after a CHoCH, and no other. */
  function ShiftsAfterChoch(events: seq<Event>): seq<Event> {
    if |events| < 2 then []
    else
      var n := |events| - 1;
      ShiftsAfterChoch(events[..n]) +
      if events[n].kind == BOS && events[n - 1].kind == CHOCH then [events[n].(kind := MSS)] else []
  }

  lemma {:induction false} PromotionOnDetectorOutput(events: seq<Event>)
    requires Alternates(events)
    ensures var p := Promoted(events);
            && p.shifts == ShiftsAfterChoch(events) && p.cancels == 0
            && p.pending
               == if events != [] && events[|events| - 1].kind == CHOCH then Some(events[|events| - 1]) else None
  {
    if events != [] {
      var n := |events| - 1;
      AlternatesPrefix(events, n);
      PromotionOnDetectorOutput(events[..n]);
      assert ContinuesOrTurns(events, n);
    }
  }

  /** On every output of the detector a shift is reported exactly for each BOS directly after a
      CHoCH, and the loop's cancelling branch is never taken. */
  lemma ShiftsFollowChoch(candles: seq<Candle>, swings: seq<Swing>)
    ensures var events := Events(candles, swings);
            Promoted(events).shifts == ShiftsAfterChoch(events) && Promoted(events).cancels == 0
  {
    EventsAreConsistent(candles, swings);
    PromotionOnDetectorOutput(Events(candles, swings));
  }

  // -------------------------------------------------------------------- no look-ahead

  /** The events at candles before `k`. */
  function Before(events: seq<Event>, k: nat): seq<Event> {
    if events == [] then []
    else
      var n := |events| - 1;
      Before(events[..n], k) + if events[n].index < k then [events[n]] else []
  }

  lemma {:induction false} VisibleTwice(swings: seq<Swing>, asOf: int, later: int)
    requires asOf <= later
    ensures Visible(Visible(swings, later), asOf) == Visible(swings, asOf)
  {
    if swings != [] {
      var n := |swings| - 1;
      VisibleTwice(swings[..n], asOf, later);
      VisibleAppends(Visible(swings[..n], later), if swings[n].confirmedIndex <= later then [swings[n]] else [], asOf);
    }
  }

  /** The first `n` steps read nothing that is not in the truncated inputs. */
  lemma {:induction false} AfterOfPrefix(candles: seq<Candle>, swings: seq<Swing>, k: nat, n: nat)
    requires n <= k <= |candles|
    ensures After(candles[..k], Visible(swings, k - 1), n) == After(candles, swings, n)
  {
    hide Step, Visible;
    if n > 0 {
      AfterOfPrefix(candles, swings, k, n - 1);
      VisibleTwice(swings, n - 1, k - 1);
    }
  }

  lemma BeforeAppend(events: seq<Event>, e: Event, k: nat)
    ensures k <= e.index ==> Before(events + [e], k) == Before(events, k)
    ensures e.index < k && Before(events, k) == events ==> Before(events + [e], k) == events + [e]
  {
    assert (events + [e])[..|events|] == events;
  }

  /** One more event adds at most the shift at that event. */
  lemma PromotedAppend(events: seq<Event>, e: Event)
    ensures || Promoted(events + [e]).shifts == Promoted(events).shifts
            || Promoted(events + [e]).shifts == Promoted(events).shifts + [e.(kind := MSS)]
  {
    assert (events + [e])[..|events|] == events;
  }

  /** What is kept of `events`, and of the shifts they promote to, when only indices before `k` count. */
  predicate SameBefore(events: seq<Event>, longer: seq<Event>, k: nat) {
    && Before(longer, k) == Before(events, k)
    && Before(Promoted(longer).shifts, k) == Before(Promoted(events).shifts, k)
  }

  predicate AllBefore(events: seq<Event>, k: nat) {
    && Before(events, k) == events
    && Before(Promoted(events).shifts, k) == Promoted(events).shifts
  }

  lemma AppendOne(events: seq<Event>, e: Event, k: nat)
    ensures k <= e.index ==> SameBefore(events, events + [e], k)
    ensures e.index < k && AllBefore(events, k) ==> AllBefore(events + [e], k)
  {
    BeforeAppend(events, e, k);
    PromotedAppend(events, e);
    BeforeAppend(Promoted(events).shifts, e.(kind := MSS), k);
  }

  lemma TryBreakAddsOne(st: State, candle: Candle, i: nat, side: Side, target: Option<Swing>, k: nat)
    ensures k <= i ==> SameBefore(st.events, TryBreak(st, candle, i, side, target).events, k)
    ensures i < k && AllBefore(st.events, k) ==> AllBefore(TryBreak(st, candle, i, side, target).events, k)
  {
    var after := TryBreak(st, candle, i, side, target);
    if after != st {
      AppendOne(st.events, after.events[|st.events|], k);
    }
  }

  lemma StepKeepsBefore(first: seq<Event>, st: State, now: State, candle: Candle, i: nat, visible: seq<Swing>, k: nat)
    requires k <= i && now == Step(st, candle, i, visible) && SameBefore(first, st.events, k)
    ensures SameBefore(first, now.events, k)
  {
    var high := LastOf(OfKind(visible, HIGH));
    TryBreakAddsOne(st, candle, i, BULLISH, high, k);
    TryBreakAddsOne(TryBreak(st, candle, i, BULLISH, high), candle, i, BEARISH, LastOf(OfKind(visible, LOW)), k);
  }

  lemma StepStaysBefore(st: State, now: State, candle: Candle, i: nat, visible: seq<Swing>, k: nat)
    requires i < k && now == Step(st, candle, i, visible) && AllBefore(st.events, k)
    ensures AllBefore(now.events, k)
  {
    var high := LastOf(OfKind(visible, HIGH));
    TryBreakAddsOne(st, candle, i, BULLISH, high, k);
    TryBreakAddsOne(TryBreak(st, candle, i, BULLISH, high), candle, i, BEARISH, LastOf(OfKind(visible, LOW)), k);
  }

  lemma NoneIsBefore(k: nat)
    ensures AllBefore([], k)
  {}

  lemma {:induction false} EarlyEvents(candles: seq<Candle>, swings: seq<Swing>, k: nat, n: nat)
    requires n <= k && n <= |candles|
    ensures AllBefore(After(candles, swings, n).events, k)
  {
    hide Step, Visible, AllBefore;
    if n == 0 {
      assert AllBefore([], k) by { NoneIsBefore(k); }
    } else {
      EarlyEvents(candles, swings, k, n - 1);
      StepStaysBefore(After(candles, swings, n - 1), After(candles, swings, n), candles[n - 1], n - 1,
                      Visible(swings, n - 1), k);
    }
  }

  /** Steps from `k` on add only events, and shifts, at `k` or later. */
  lemma {:induction false} LaterEvents(candles: seq<Candle>, swings: seq<Swing>, k: nat, n: nat)
    requires k <= n <= |candles|
    ensures SameBefore(After(candles, swings, k).events, After(candles, swings, n).events, k)
    decreases n
  {
    var first := After(candles, swings, k).events;
    if n == k {
      assert SameBefore(first, first, k);
    } else {
      LaterEvents(candles, swings, k, n - 1);
      var st, now := After(candles, swings, n - 1), After(candles, swings, n);
      StepKeepsBefore(first, st, now, candles[n - 1], n - 1, Visible(swings, n - 1), k);
    }
  }

  /** For every history, every cut and every swing length, running swings, structure and shifts on
      the truncated history gives exactly the events and the shifts of the whole history whose
      index is before the cut. */
  lemma StructureDoesNotLookAhead(candles: seq<Candle>, length: nat, k: nat)
    requires k <= |candles|
    ensures var all := Events(candles, Detected(candles, length));
            var cut := Events(candles[..k], Detected(candles[..k], length));
            && cut == Before(all, k)
            && Promoted(cut).shifts == Before(Promoted(all).shifts, k)
  {
    var swings := Detected(candles, length);
    SwingsDoNotLookAhead(candles, length, k);
    AfterOfPrefix(candles, swings, k, k);
    EarlyEvents(candles, swings, k, k);
    LaterEvents(candles, swings, k, |candles|);
  }
}
