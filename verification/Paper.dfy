/**
The paper trading engine: every candle goes through the whole stack (risk gate, order state
machine, simulated broker, position book).

`OnCandle` on a `Session` says what one candle does in the engine's own terms; the class at
the end drives the real components, and each of its methods is proved to come out there.
*/
module Paper {
  import opened Common
  import opened Market
  import opened Netting
  import opened Positions
  import O = Orders
  import B = Broker
  import E = Execution
  import R = Risk

  // ------------------------------------------------------------------- the risk window

  datatype Window = Window(
    tradesToday: int,
    dailyPnl: real,
    weeklyPnl: real,
    repeatedRejections: int,
    riskDay: Option<int>,
    riskWeek: Option<int>)

  const NEW_WINDOW := Window(0, 0.0, 0.0, 0, None, None)

  /** `RiskWindow.roll`: only a later day or week rolls, and the marks only move forward. */
  function Rolled(w: Window, timestamp: int): Window {
    var today, week := Day(timestamp), Week(timestamp);
    var byDay :=
      if w.riskDay.None? then w.(riskDay := Some(today))
      else if today > w.riskDay.value then w.(tradesToday := 0, dailyPnl := 0.0, riskDay := Some(today))
      else w;
    if byDay.riskWeek.None? then byDay.(riskWeek := Some(week))
    else if week > byDay.riskWeek.value then byDay.(weeklyPnl := 0.0, riskWeek := Some(week))
    else byDay
  }

  function RolledAll(w: Window, timestamps: seq<int>): Window {
    if timestamps == [] then w
    else Rolled(RolledAll(w, timestamps[..|timestamps| - 1]), timestamps[|timestamps| - 1])
  }

  /** The two marks always name one day and the week it falls in. */
  predicate MarksTogether(w: Window) {
    && (w.riskDay.Some? <==> w.riskWeek.Some?)
    && (w.riskDay.Some? ==> w.riskWeek.value == Week(86400 * w.riskDay.value))
  }

  lemma {:induction false} RollingKeepsMarksTogether(w: Window, timestamps: seq<int>)
    requires MarksTogether(w)
    ensures MarksTogether(RolledAll(w, timestamps))
  {
    if timestamps != [] {
      RollingKeepsMarksTogether(w, timestamps[..|timestamps| - 1]);
    }
  }

  /** However many engines share the window and however their feeds lag behind one another, no
      sequence of candles from days already reached hands back any of the day's or the week's
      budget, or moves a mark back. */
  lemma {:induction false} LaggingFeedsChangeNothing(w: Window, timestamps: seq<int>)
    requires MarksTogether(w) && w.riskDay.Some?
    requires forall i :: 0 <= i < |timestamps| ==> Day(timestamps[i]) <= w.riskDay.value
    ensures RolledAll(w, timestamps) == w
  {
    if timestamps != [] {
      LaggingFeedsChangeNothing(w, timestamps[..|timestamps| - 1]);
      assert Day(timestamps[|timestamps| - 1]) <= w.riskDay.value;
    }
  }

  // ------------------------------------------------------------ one candle, as a function

  datatype Config = Config(
    rule: seq<Candle> -> Option<Setup>,
    strategyName: string,
    accountId: string,
    symbol: string,
    riskPercent: real,
    minimumRr: real,
    limits: R.Limits,
    slippagePct: real)

  /** What the gate reads that is not this engine's own state, per candle. */
  datatype Surroundings = Surroundings(
    blocked: bool,
    otherOpenPositions: int,
    otherExposure: real,
    strategyAllocation: real,
    correlatedExposure: real,
    liquidityAcceptable: Option<bool>,
    brokerHealthy: bool)

  /** The engine's open position; quantity is signed. */
  datatype Held = Held(quantity: real, averagePrice: real, stop: Option<real>, target: Option<real>)

  datatype Session = Session(
    candles: seq<Candle>,
    balance: real,
    position: Option<Held>,
    keys: set<O.OrderKey>,
    window: Window)

  datatype ExitReason = StopLoss | TakeProfit

  /** A round trip as its caller journals it from the position held before the call. */
  datatype RoundTrip = RoundTrip(direction: Direction, entry: real, exit: real, quantity: real, pnl: real)

  datatype Outcome = Outcome(
    orderCreated: bool,
    riskRejected: bool,
    closedPnl: Option<real>,
    exitReason: Option<ExitReason>,
    closed: Option<RoundTrip>)

  const QUIET := Outcome(false, false, None, None, None)

  function SideOf(h: Held): Direction {
    if h.quantity > 0.0 then LONG else SHORT
  }

  /** The branches of `_maybe_exit`. */
  function Trigger(h: Held, candle: Candle): Option<(real, ExitReason)> {
    if h.quantity > 0.0 then
      if h.stop.Some? && candle.low <= h.stop.value then Some((h.stop.value, StopLoss))
      else if h.target.Some? && candle.high >= h.target.value then Some((h.target.value, TakeProfit))
      else None
    else
      if h.stop.Some? && candle.high >= h.stop.value then Some((h.stop.value, StopLoss))
      else if h.target.Some? && candle.low <= h.target.value then Some((h.target.value, TakeProfit))
      else None
  }

  /** Where the simulated broker fills a market order quoted at `base`. */
  function FillPrice(c: Config, base: real, direction: Direction): real {
    B.Slipped(base, c.slippagePct, direction)
  }

  function Exit(c: Config, s: Session, h: Held, candle: Candle): (Session, Outcome) {
    match Trigger(h, candle)
    case None => (s, QUIET)
    case Some((level, reason)) =>
      var key := O.CloseKey(c.symbol, candle.timestamp);
      var used := s.(keys := s.keys + {key});
      if key in s.keys || level <= 0.0 then
        // A key seen before re-submits nothing; a level that is not a price is rejected.
        (used, Outcome(false, false, Some(0.0), Some(reason), None))
      else
        var price := FillPrice(c, level, SideOf(h).Opposite());
        var pnl := RealizedOn(h.quantity, h.averagePrice, Abs(h.quantity), price);
        (used.(balance := s.balance + pnl,
               position := None,
               window := s.window.(dailyPnl := s.window.dailyPnl + pnl, weeklyPnl := s.window.weeklyPnl + pnl)),
         Outcome(false, false, Some(pnl), Some(reason),
                 Some(RoundTrip(SideOf(h), h.averagePrice, price, Abs(h.quantity), pnl))))
  }

  function Evaluate(c: Config, visible: seq<Candle>): Option<Signal> {
    match c.rule(visible)
    case None => None
    case Some(setup) => Bracket(setup, c.minimumRr)
  }

  function SizeOf(c: Config, balance: real, signal: Signal): real {
    R.PositionSize(balance, Min(c.riskPercent, c.limits.riskPerTradePct), signal.entry, signal.stop,
                   c.limits.maxPositionSize)
  }

  function ProposalFor(c: Config, s: Session, signal: Signal, env: Surroundings): R.Proposal
    requires |s.candles| >= 2
  {
    var last, previous := s.candles[|s.candles| - 1].close, s.candles[|s.candles| - 2].close;
    R.Proposal(
      signal.entry, signal.stop, s.balance, env.otherOpenPositions, s.window.tradesToday,
      s.window.dailyPnl, s.window.weeklyPnl, env.otherExposure, env.strategyAllocation, env.correlatedExposure,
      Some(0.0), env.brokerHealthy, s.window.repeatedRejections,
      if previous != 0.0 then Abs(last - previous) / previous * 100.0 else 0.0,
      0.0, env.liquidityAcceptable, Some(SizeOf(c, s.balance, signal)), false)
  }

  /** What an approved signal does: one market order at the level it was sized around. */
  function Ordered(c: Config, s: Session, signal: Signal, candle: Candle): (Session, Outcome) {
    var key := O.EntryKey(c.strategyName, candle.timestamp);
    var used := s.(keys := s.keys + {key});
    var counted := used.window.(tradesToday := s.window.tradesToday + 1);
    if key in s.keys then
      (s, QUIET)
    else if signal.entry <= 0.0 then
      (used.(window := counted.(repeatedRejections := s.window.repeatedRejections + 1)), QUIET.(orderCreated := true))
    else
      var size := SizeOf(c, s.balance, signal);
      (used.(window := counted.(repeatedRejections := 0),
             position := Some(Held(if signal.direction.LONG? then size else -size,
                                   FillPrice(c, signal.entry, signal.direction),
                                   Some(signal.stop), Some(signal.target)))),
       QUIET.(orderCreated := true))
  }

  function Enter(c: Config, s: Session, candle: Candle, env: Surroundings): (Session, Outcome)
    requires |s.candles| >= 3
  {
    match Evaluate(c, s.candles)
    case None => (s, QUIET)
    case Some(signal) =>
      if !(candle.low <= signal.entry <= candle.high) then (s, QUIET)
      else if !R.Approves(c.limits, env.blocked, ProposalFor(c, s, signal, env)) then (s, QUIET.(riskRejected := true))
      else Ordered(c, s, signal, candle)
  }

  /** `on_candle`. */
  function OnCandle(c: Config, s: Session, candle: Candle, env: Surroundings): (Session, Outcome) {
    var seen := s.(candles := s.candles + [candle], window := Rolled(s.window, candle.timestamp));
    match seen.position
    case Some(h) => Exit(c, seen, h, candle)
    case None => if |seen.candles| < 3 then (seen, QUIET) else Enter(c, seen, candle, env)
  }

  /** A configuration the strategy language and the defaults of the limits admit: something is
      risked per trade, and a cap leaves room for a position. */
  predicate SoundConfig(c: Config) {
    && c.riskPercent > 0.0 && c.limits.riskPerTradePct > 0.0 && c.minimumRr > 0.0
    && (c.limits.maxPositionSize.Some? ==> c.limits.maxPositionSize.value > 0.0)
  }

  /** An approved entry always has a size to trade. */
  lemma ApprovedSizeIsPositive(c: Config, s: Session, signal: Signal, env: Surroundings)
    requires SoundConfig(c) && |s.candles| >= 2
    requires R.Approves(c.limits, env.blocked, ProposalFor(c, s, signal, env))
    ensures SizeOf(c, s.balance, signal) > 0.0
  {
    var unit := Abs(signal.entry - signal.stop);
    var budget := s.balance * (Min(c.riskPercent, c.limits.riskPerTradePct) / 100.0);
    assert s.balance > 0.0 && unit > 0.0;
    assert budget > 0.0;
    DivOrder(budget, unit, 0.0);
  }

  // ------------------------------------------------------------------ the mutable engine

  class RiskWindow {
    var state: Window

    constructor ()
      ensures state == NEW_WINDOW
    {
      state := NEW_WINDOW;
    }

    method Roll(timestamp: int)
      modifies this
      ensures state == Rolled(old(state), timestamp)
    {
      var today, week := Day(timestamp), Week(timestamp);
      if state.riskDay.None? {
        state := state.(riskDay := Some(today));
      } else if today > state.riskDay.value {
        state := state.(tradesToday := 0, dailyPnl := 0.0, riskDay := Some(today));
      }
      if state.riskWeek.None? {
        state := state.(riskWeek := Some(week));
      } else if week > state.riskWeek.value {
        state := state.(weeklyPnl := 0.0, riskWeek := Some(week));
      }
    }
  }

  class PaperTradingEngine {
    const config: Config
    const execution: E.ExecutionEngine
    const window: RiskWindow
    var candles: seq<Candle>

    function Key(): PositionKey {
      PositionKey(config.accountId, config.symbol)
    }

    ghost function Parts(): set<object>
    {
      {this, execution.broker, execution.orderManager, execution.positionManager, window}
    }

    /** The components agree: the broker and the book hold the same position in this symbol,
        and nothing rests at the broker that a quote could fire. */
    predicate Valid()
      reads Parts()
    {
      && execution.orderManager.Valid()
      && execution.broker.resting == map[]
      && execution.broker.slippagePct == config.slippagePct
      && SamePositionHere()
    }

    predicate SamePositionHere()
      reads Parts()
    {
      var lot := PositionOf(execution.positionManager.positions, Key()).lot;
      match HoldingOf(execution.broker.holdings, config.symbol)
      case None => lot.quantity == 0.0
      case Some(h) => h.quantity != 0.0 && lot.quantity == h.quantity && lot.averagePrice == h.averagePrice
    }

    /** The engine's state in its own terms. */
    function View(): Session
      reads Parts()
    {
      var p := PositionOf(execution.positionManager.positions, Key());
      Session(candles, execution.broker.balance,
              if p.IsOpen() then Some(Held(p.lot.quantity, p.lot.averagePrice, p.stop, p.target)) else None,
              execution.orderManager.byKey.Keys,
              window.state)
    }

    constructor (config: Config, startingBalance: real)
      ensures this.config == config && fresh(Parts()) && Valid()
      ensures View() == Session([], startingBalance, None, {}, NEW_WINDOW)
    {
      this.config := config;
      var broker := new B.MockBroker(startingBalance, config.slippagePct);
      var orders := new O.OrderManager();
      var positions := new PositionManager();
      execution := new E.ExecutionEngine(broker, orders, positions);
      window := new RiskWindow();
      candles := [];
    }

    /** A new market order, created and approved. */
    method Approve(key: O.OrderKey, direction: Direction, quantity: Quantity) returns (id: nat)
      requires execution.orderManager.Valid() && key !in execution.orderManager.byKey
      modifies execution.orderManager
      ensures execution.orderManager.Valid() && id in execution.orderManager.orders
      ensures execution.orderManager.byKey.Keys == old(execution.orderManager.byKey.Keys) + {key}
      ensures var o := execution.orderManager.orders[id];
              && o.id == id && o.status == RISK_APPROVED && o.orderType == MARKET
              && o.accountId == config.accountId && o.symbol == config.symbol
              && o.direction == direction && o.quantity == quantity && o.price == None && o.averageFillPrice == None
    {
      var ticket := O.OrderTicket(key, config.accountId, config.symbol, direction, MARKET, quantity, None);
      var order, created := execution.orderManager.CreateOrder(ticket);
      id := order.id;
      var validating := execution.orderManager.TransitionTo(id, VALIDATING, "");
      var approved := execution.orderManager.TransitionTo(id, RISK_APPROVED, "");
    }

    /** One market order through the state machine and the broker, at the quote just set. */
    method SubmitMarket(key: O.OrderKey, direction: Direction, quantity: Quantity, quote: real)
      returns (fillPrice: Option<real>)
      requires execution.orderManager.Valid() && key !in execution.orderManager.byKey
      requires execution.broker.slippagePct == config.slippagePct
      requires config.symbol in execution.broker.quotes && execution.broker.quotes[config.symbol] == quote
      modifies execution.broker, execution.orderManager, execution.positionManager
      ensures execution.orderManager.Valid()
      ensures execution.orderManager.byKey.Keys == old(execution.orderManager.byKey.Keys) + {key}
      ensures execution.broker.resting == old(execution.broker.resting)
      ensures execution.broker.slippagePct == config.slippagePct
      ensures (execution.positionManager.positions, E.VaultOf(execution.broker.State()))
           == Traded(config, old(execution.positionManager.positions), old(E.VaultOf(execution.broker.State())),
                     direction, quantity, quote)
      ensures fillPrice == if quote <= 0.0 then None else Some(FillPrice(config, quote, direction))
    {
      var id := Approve(key, direction, quantity);
      assert B.ResolveFillPrice(execution.broker.State(), E.RequestFor(execution.orderManager.orders[id]))
          == if quote <= 0.0 then None else Some(FillPrice(config, quote, direction));
      fillPrice := execution.SubmitMarketOrder(id);
    }

    /** `set_quote`: with nothing resting it only records the price. */
    method SetQuote(ltp: real)
      requires execution.broker.resting == map[]
      modifies execution.broker
      ensures execution.broker.State()
                == old(execution.broker.State()).(quotes := old(execution.broker.quotes)[config.symbol := ltp])
    {
      B.QuietTape(execution.broker.State().(quotes := execution.broker.quotes[config.symbol := ltp]), 0, config.symbol,
                  ltp);
      execution.broker.Quote(config.symbol, ltp, true);
    }

    /** `_maybe_exit`: the open position is checked against the candle, stop first. */
    method MaybeExit(candle: Candle) returns (o: Outcome)
      requires Valid() && View().position.Some?
      modifies execution.broker, execution.orderManager, execution.positionManager, window
      ensures Valid()
      ensures (View(), o) == Exit(config, old(View()), old(View()).position.value, candle)
    {
      var position := execution.positionManager.positions[Key()];
      var held := Held(position.lot.quantity, position.lot.averagePrice, position.stop, position.target);
      var trigger := Trigger(held, candle);
      if trigger.None? {
        return QUIET;
      }
      var (level, reason) := trigger.value;
      SetQuote(level);
      var key := O.CloseKey(config.symbol, candle.timestamp);
      if key in execution.orderManager.byKey {
        assert View().keys + {key} == View().keys;
        return Outcome(false, false, Some(0.0), Some(reason), None);
      }
      ClosingFill(position.lot, HoldingOf(execution.broker.holdings, config.symbol),
                  FillPrice(config, level, SideOf(held).Opposite()));
      var fillPrice := SubmitMarket(key, SideOf(held).Opposite(), Abs(position.lot.quantity), level);
      var after := execution.positionManager.positions[Key()];
      var pnl := after.lot.realizedPnl - position.lot.realizedPnl;
      window.state := window.state.(dailyPnl := window.state.dailyPnl + pnl, weeklyPnl := window.state.weeklyPnl + pnl);
      var closed :=
        if after.IsOpen() then None
        else Some(RoundTrip(SideOf(held), held.averagePrice, fillPrice.value, Abs(held.quantity), pnl));
      o := Outcome(false, false, Some(pnl), Some(reason), closed);
    }

    /** The order an approved signal turns into, and the bracket its position carries. */
    method PlaceEntry(signal: Signal, candle: Candle, quantity: Quantity) returns (o: Outcome)
      requires Valid() && View().position.None? && quantity == SizeOf(config, execution.broker.balance, signal)
      modifies execution.broker, execution.orderManager, execution.positionManager, window
      ensures Valid()
      ensures (View(), o) == Ordered(config, old(View()), signal, candle)
    {
      SetQuote(signal.entry);
      var key := O.EntryKey(config.strategyName, candle.timestamp);
      if key in execution.orderManager.byKey {
        return QUIET;
      }
      OpeningFill(PositionOf(execution.positionManager.positions, Key()).lot,
                  HoldingOf(execution.broker.holdings, config.symbol),
                  Fill(signal.direction, quantity, FillPrice(config, signal.entry, signal.direction)));
      var fillPrice := SubmitMarket(key, signal.direction, quantity, signal.entry);
      var rejections := if fillPrice.None? then window.state.repeatedRejections + 1 else 0;
      window.state := window.state.(tradesToday := window.state.tradesToday + 1, repeatedRejections := rejections);
      if Key() in execution.positionManager.positions {
        execution.positionManager.SetBracket(Key(), Some(signal.stop), Some(signal.target));
      }
      o := QUIET.(orderCreated := true);
    }

    /** The entry half of `on_candle`. */
    method MaybeEnter(candle: Candle, env: Surroundings) returns (o: Outcome)
      requires Valid() && View().position.None? && |candles| >= 3 && SoundConfig(config)
      modifies execution.broker, execution.orderManager, execution.positionManager, window
      ensures Valid()
      ensures (View(), o) == Enter(config, old(View()), candle, env)
    {
      var signal := Evaluate(config, candles);
      if signal.None? || !(candle.low <= signal.value.entry <= candle.high) {
        return QUIET;
      }
      var quantity := SizeOf(config, execution.broker.balance, signal.value);
      var proposal := ProposalFor(config, View(), signal.value, env);
      var decision := R.Evaluate(config.limits, env.blocked, proposal);
      if !decision.approved {
        return QUIET.(riskRejected := true);
      }
      ApprovedSizeIsPositive(config, View(), signal.value, env);
      o := PlaceEntry(signal.value, candle, quantity);
    }

    method FeedCandle(candle: Candle, env: Surroundings) returns (o: Outcome)
      requires Valid() && SoundConfig(config)
      modifies Parts()
      ensures Valid()
      ensures (View(), o) == OnCandle(config, old(View()), candle, env)
    {
      window.Roll(candle.timestamp);
      candles := candles + [candle];
      SetQuote(candle.close);
      execution.positionManager.MarkToMarket(Key(), candle.close);
      assert View() == old(View()).(candles := candles, window := window.state);
      if View().position.Some? {
        o := MaybeExit(candle);
      } else if |candles| < 3 {
        o := QUIET;
      } else {
        o := MaybeEnter(candle, env);
      }
    }
  }

  /** A fill on a flat book opens exactly that position on both sides, at the fill price. */
  lemma OpeningFill(p: Lot, h: Option<Holding>, f: Fill)
    requires p.quantity == 0.0 && SamePosition(p, h)
    ensures NetLot(p, f) == Lot(f.Signed(), f.price, p.realizedPnl)
    ensures NetHolding(h, f) == (Some(Holding(f.Signed(), f.price)), 0.0)
  {
    NettingAgrees(p, h, f);
  }

  /** A fill of the whole size on the other side leaves both books flat, and moves realized
      profit and cash by the same amount. */
  lemma ClosingFill(p: Lot, h: Option<Holding>, price: real)
    requires p.quantity != 0.0 && SamePosition(p, h)
    ensures var f := Fill(if p.quantity > 0.0 then SHORT else LONG, Abs(p.quantity), price);
            && NetLot(p, f)
               == Lot(0.0, 0.0, p.realizedPnl + RealizedOn(p.quantity, p.averagePrice, Abs(p.quantity), price))
            && NetHolding(h, f) == (None, RealizedOn(p.quantity, p.averagePrice, Abs(p.quantity), price))
  {
    var f := Fill(if p.quantity > 0.0 then SHORT else LONG, Abs(p.quantity), price);
    NettingAgrees(p, h, f);
    NetHoldingQuantity(h, f);
  }

  /** Both books after a market order: untouched when the quote is no price, else netted alike. */
  function Traded(c: Config, book: Book, v: Vault, direction: Direction, quantity: Quantity,
                  quote: real): (Book, Vault) {
    if quote <= 0.0 then (book, v)
    else
      var f := Fill(direction, quantity, FillPrice(c, quote, direction));
      (FillBook(book, PositionKey(c.accountId, c.symbol), f), VaultApply(v, Execution(c.symbol, f)))
  }
}
