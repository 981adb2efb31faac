/**
The repository requires paper trading and backtesting to report the same trades for the same
strategy over the same candles, although one drives the whole order, broker and position
stack and the other one local record. This module proves it, first for the two engines as
functions and then for the two engine classes side by side.
*/
module EngineAgreement {
  import opened Common
  import opened Market
  import N = Netting
  import O = Orders
  import R = Risk
  import BT = Backtest
  import P = Paper

  /** Costs off, one strategy, one size cap, and a risk percentage within the account's. */
  ghost predicate SameSetup(b: BT.Config, p: P.Config) {
    && P.SoundConfig(p)
    && b.rule == p.rule && b.minimumRr == p.minimumRr && b.riskPercent == p.riskPercent
    && b.maxPositionSize == p.limits.maxPositionSize
    && p.riskPercent <= p.limits.riskPerTradePct
    && b.costs == BT.NO_COSTS && p.slippagePct == 0.0
  }

  /** Positive prices; each candle at its own time. */
  predicate CleanTape(candles: seq<Candle>) {
    && (forall i :: 0 <= i < |candles| ==> candles[i].low > 0.0)
    && (forall i, j :: 0 <= i < j < |candles| ==> candles[i].timestamp != candles[j].timestamp)
  }

  /** The paper engine fed a history, with what its gate reads around it at each candle. */
  function PaperAfter(c: P.Config, startingBalance: real, candles: seq<Candle>, around: seq<P.Surroundings>)
    : (P.Session, seq<P.Outcome>)
    requires |candles| == |around|
  {
    if candles == [] then (P.Session([], startingBalance, None, {}, P.NEW_WINDOW), [])
    else
      var n := |candles| - 1;
      var (s, outcomes) := PaperAfter(c, startingBalance, candles[..n], around[..n]);
      var (s', o) := P.OnCandle(c, s, candles[n], around[n]);
      (s', outcomes + [o])
  }

  /** The round trips a caller journals from the outcomes, in order. */
  function Journal(outcomes: seq<P.Outcome>): seq<P.RoundTrip> {
    if outcomes == [] then []
    else
      var o := outcomes[|outcomes| - 1];
      Journal(outcomes[..|outcomes| - 1]) + if o.closed.Some? then [o.closed.value] else []
  }

  /** The same facts of each backtest trade. */
  function Report(trades: seq<BT.TradeRecord>): seq<P.RoundTrip> {
    if trades == [] then []
    else Report(trades[..|trades| - 1]) + [Facts(trades[|trades| - 1])]
  }

  function Facts(t: BT.TradeRecord): P.RoundTrip {
    P.RoundTrip(t.direction, t.entryPrice, t.exitPrice, t.quantity, t.pnl)
  }

  predicate NothingRefused(outcomes: seq<P.Outcome>) {
    forall o :: o in outcomes ==> !o.riskRejected
  }

  // ------------------------------------------------------------------- the simulation

  predicate SameTrade(h: P.Held, t: BT.OpenTrade) {
    && t.quantity > 0.0
    && h.quantity == (if t.direction.LONG? then t.quantity else -t.quantity)
    && h.averagePrice == t.entryPrice && h.stop == Some(t.stop) && h.target == Some(t.target)
    && ValidBracket(Signal(t.direction, t.entryPrice, t.stop, t.target))
    && t.entryPrice > 0.0
  }

  predicate SamePosition(h: Option<P.Held>, t: Option<BT.OpenTrade>) {
    match h
    case None => t.None?
    case Some(held) => t.Some? && SameTrade(held, t.value)
  }

  function Times(candles: seq<Candle>): set<int> {
    set c | c in candles :: c.timestamp
  }

  predicate KeysFrom(keys: set<O.OrderKey>, times: set<int>) {
    forall k :: k in keys ==> (k.EntryKey? || k.CloseKey?) && k.timestamp in times
  }

  /** What the two engines hold in step after the same candles. */
  predicate InStep(candles: seq<Candle>, s: P.Session, b: BT.State) {
    && s.candles == candles
    && s.balance == b.equity
    && SamePosition(s.position, b.open)
    && KeysFrom(s.keys, Times(candles))
  }

  /** The two profit formulas, each in its own shape, are one number. */
  lemma SameProfit(h: P.Held, t: BT.OpenTrade, exit: real)
    requires SameTrade(h, t)
    ensures N.RealizedOn(h.quantity, h.averagePrice, Abs(h.quantity), exit) == BT.Gain(t, exit)
  {
    assert t.quantity * (exit - t.entryPrice) == (exit - t.entryPrice) * t.quantity;
  }

  lemma NoSlippage(c: P.Config, base: real, direction: Direction)
    requires c.slippagePct == 0.0
    ensures P.FillPrice(c, base, direction) == base
  {}

  /** A candle while a trade is open: both engines close it at the same level, or neither does. */
  lemma ExitInStep(b: BT.Config, p: P.Config, s: P.Session, t: BT.OpenTrade, candle: Candle)
    requires SameSetup(b, p) && candle.low > 0.0
    requires s.position.Some? && SameTrade(s.position.value, t)
    requires O.CloseKey(p.symbol, candle.timestamp) !in s.keys
    ensures var (s', o) := P.Exit(p, s, s.position.value, candle);
            match BT.CheckExit(b, t, candle)
            case None => s' == s && o.closed.None?
            case Some(r) =>
              && o.closed == Some(Facts(r))
              && s'.balance == s.balance + r.pnl && s'.position.None? && s'.candles == s.candles
              && s'.keys == s.keys + {O.CloseKey(p.symbol, candle.timestamp)}
    ensures !P.Exit(p, s, s.position.value, candle).1.riskRejected
  {
    var h := s.position.value;
    BT.NoCostsExit(b, t, candle);
    if BT.HitPrice(t, candle).Some? {
      var hit := BT.HitPrice(t, candle).value;
      NoSlippage(p, hit, t.direction.Opposite());
      SameProfit(h, t, hit);
    }
  }

  lemma OpenedInStep(b: BT.Config, p: P.Config, s: P.Session, signal: Signal, candle: Candle, env: P.Surroundings)
    requires SameSetup(b, p) && |s.candles| >= 2
    requires ValidBracket(signal) && signal.entry > 0.0
    requires R.Approves(p.limits, env.blocked, P.ProposalFor(p, s, signal, env))
    requires O.EntryKey(p.strategyName, candle.timestamp) !in s.keys
    ensures var s' := P.Ordered(p, s, signal, candle).0;
            && s'.balance == s.balance && s'.candles == s.candles
            && s'.keys == s.keys + {O.EntryKey(p.strategyName, candle.timestamp)}
            && SamePosition(s'.position, Some(BT.Opened(b, signal, candle, s.balance)))
  {
    P.ApprovedSizeIsPositive(p, s, signal, env);
    NoSlippage(p, signal.entry, signal.direction);
    assert BT.NO_COSTS.Slip(signal.entry) == 0.0;
  }

  /** One candle keeps the engines in step, unless the gate refuses an entry on it, and closes
      the same trade on both sides or none on either. */
  lemma CandleInStep(b: BT.Config, p: P.Config, candles: seq<Candle>, s: P.Session, state: BT.State,
                     env: P.Surroundings)
    requires SameSetup(b, p) && CleanTape(candles) && candles != []
    requires InStep(candles[..|candles| - 1], s, state)
    requires !P.OnCandle(p, s, candles[|candles| - 1], env).1.riskRejected
    ensures var (s', o) := P.OnCandle(p, s, candles[|candles| - 1], env);
            var state' := BT.Step(b, state, candles);
            && InStep(candles, s', state')
            && state'.trades == state.trades +
               (if |state'.trades| > |state.trades| then [state'.trades[|state.trades|]] else [])
            && (if o.closed.Some? then
                  |state'.trades| == |state.trades| + 1 && o.closed.value == Facts(state'.trades[|state.trades|])
                else state'.trades == state.trades)
  {
    var n := |candles| - 1;
    var candle := candles[n];
    assert candles == candles[..n] + [candle];
    var seen := s.(candles := s.candles + [candle], window := P.Rolled(s.window, candle.timestamp));
    FreshTime(candles, s.keys);
    if state.open.Some? {
      ExitInStep(b, p, seen, state.open.value, candle);
    } else if |candles| >= 3 && BT.Evaluate(b, candles).Some? {
      var signal := BT.Evaluate(b, candles).value;
      BracketIsValid(b.rule(candles).value, b.minimumRr);
      if candle.low <= signal.entry <= candle.high {
        OpenedInStep(b, p, seen, signal, candle, env);
      }
    }
  }

  /** With distinct timestamps no key of an earlier candle is asked for again. */
  lemma FreshTime(candles: seq<Candle>, keys: set<O.OrderKey>)
    requires CleanTape(candles) && candles != [] && KeysFrom(keys, Times(candles[..|candles| - 1]))
    ensures forall k :: k in keys && (k.EntryKey? || k.CloseKey?) ==> k.timestamp != candles[|candles| - 1].timestamp
    ensures Times(candles[..|candles| - 1]) <= Times(candles)
    ensures candles[|candles| - 1].timestamp in Times(candles)
  {
    var n := |candles| - 1;
    forall c | c in candles[..n] ensures c in candles && c.timestamp != candles[n].timestamp {
      var i :| 0 <= i < n && candles[i] == c;
    }
    assert candles[n] in candles;
  }

  lemma {:induction false} StaysInStep(b: BT.Config, p: P.Config, startingBalance: real,
                                       candles: seq<Candle>, around: seq<P.Surroundings>)
    requires |candles| == |around| && SameSetup(b, p) && CleanTape(candles)
    requires NothingRefused(PaperAfter(p, startingBalance, candles, around).1)
    ensures var (s, outcomes) := PaperAfter(p, startingBalance, candles, around);
            var state := BT.After(b, startingBalance, candles);
            InStep(candles, s, state) && Journal(outcomes) == Report(state.trades)
  {
    if candles != [] {
      var n := |candles| - 1;
      var (s, outcomes) := PaperAfter(p, startingBalance, candles[..n], around[..n]);
      var state := BT.After(b, startingBalance, candles[..n]);
      var (s', o) := P.OnCandle(p, s, candles[n], around[n]);
      OutcomeAppended(outcomes, o);
      StaysInStep(b, p, startingBalance, candles[..n], around[..n]);
      CandleInStep(b, p, candles, s, state, around[n]);
      var state' := BT.Step(b, state, candles);
      if o.closed.Some? {
        assert state'.trades[..|state.trades|] == state.trades;
      }
    }
  }

  /** For every history with distinct timestamps and positive prices, every strategy, and
      whatever else the gate reads, as long as it refuses nothing: both engines close the same
      trades (direction, entry, exit, quantity, profit), in the same order, hold the same
      open position at the end, and end with the same balance. */
  lemma EnginesAgree(b: BT.Config, p: P.Config, startingBalance: real,
                     candles: seq<Candle>, around: seq<P.Surroundings>)
    requires |candles| == |around| && SameSetup(b, p) && CleanTape(candles)
    requires NothingRefused(PaperAfter(p, startingBalance, candles, around).1)
    ensures var (s, outcomes) := PaperAfter(p, startingBalance, candles, around);
            var state := BT.After(b, startingBalance, candles);
            && Journal(outcomes) == Report(state.trades)
            && s.balance == state.equity
            && SamePosition(s.position, state.open)
  {
    StaysInStep(b, p, startingBalance, candles, around);
  }

  lemma PaperNext(c: P.Config, startingBalance: real, candles: seq<Candle>, around: seq<P.Surroundings>, i: nat)
    requires |candles| == |around| && i < |candles|
    ensures var (s, outcomes) := PaperAfter(c, startingBalance, candles[..i], around[..i]);
            var (s', o) := P.OnCandle(c, s, candles[i], around[i]);
            PaperAfter(c, startingBalance, candles[..i + 1], around[..i + 1]) == (s', outcomes + [o])
  {
    assert candles[..i + 1][..i] == candles[..i] && around[..i + 1][..i] == around[..i];
  }

  lemma OutcomeAppended(outcomes: seq<P.Outcome>, o: P.Outcome)
    ensures Journal(outcomes + [o]) == Journal(outcomes) + if o.closed.Some? then [o.closed.value] else []
    ensures NothingRefused(outcomes + [o]) <==> NothingRefused(outcomes) && !o.riskRejected
  {
    assert (outcomes + [o])[..|outcomes|] == outcomes;
    assert o in outcomes + [o];
    assert forall x :: x in outcomes ==> x in outcomes + [o];
  }

  /** The same theorem about the engine objects: a backtest run beside a paper session fed the
      same candles. */
  method RunSideBySide(b: BT.Config, p: P.Config, startingBalance: real,
                       candles: seq<Candle>, around: seq<P.Surroundings>)
    returns (backtest: seq<BT.TradeRecord>, paper: seq<P.RoundTrip>, refused: bool, equity: real, balance: real)
    requires |candles| == |around| && SameSetup(b, p) && CleanTape(candles)
    ensures !refused ==> paper == Report(backtest) && balance == equity
  {
    var tester := new BT.BacktestEngine(b, startingBalance);
    backtest, equity := tester.Run(candles);
    var trader := new P.PaperTradingEngine(p, startingBalance);
    paper, refused := [], false;
    ghost var outcomes: seq<P.Outcome> := [];
    for i := 0 to |candles|
      invariant fresh(trader.Parts()) && trader.Valid() && trader.config == p
      invariant (trader.View(), outcomes) == PaperAfter(p, startingBalance, candles[..i], around[..i])
      invariant paper == Journal(outcomes)
      invariant refused <==> !NothingRefused(outcomes)
    {
      PaperNext(p, startingBalance, candles, around, i);
      var o := trader.FeedCandle(candles[i], around[i]);
      OutcomeAppended(outcomes, o);
      outcomes := outcomes + [o];
      paper := paper + if o.closed.Some? then [o.closed.value] else [];
      refused := refused || o.riskRejected;
    }
    assert candles[..|candles|] == candles && around[..|around|] == around;
    balance := trader.execution.broker.balance;
    if !refused {
      EnginesAgree(b, p, startingBalance, candles, around);
    }
  }
}
