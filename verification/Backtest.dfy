/**
The backtest engine: one local position, one equity number, candle by candle.
*/
module Backtest {
  import opened Common
  import opened Market
  import R = Risk

  datatype CostModel = CostModel(
    brokerageFlat: real,
    brokeragePct: real,
    slippagePct: real,
    spreadPct: real,
    taxesPct: real,
    contractChargesFlat: real)
  {
    function Slip(raw: real): real {
      raw * (slippagePct + spreadPct / 2.0) / 100.0
    }

    function EntryPrice(raw: real, direction: Direction): real {
      if direction.LONG? then raw + Slip(raw) else raw - Slip(raw)
    }

    function ExitPrice(raw: real, direction: Direction): real {
      if direction.LONG? then raw - Slip(raw) else raw + Slip(raw)
    }

    function RoundTripCosts(notionalEntry: real, notionalExit: real): real {
      (notionalEntry + notionalExit) * (brokeragePct + taxesPct) / 100.0 + 2.0 * brokerageFlat + contractChargesFlat
    }
  }

  const NO_COSTS := CostModel(0.0, 0.0, 0.0, 0.0, 0.0, 0.0)

  /** `rule` stands for everything the strategy derives from the candles it may see. */
  datatype Config = Config(
    rule: seq<Candle> -> Option<Setup>,
    riskPercent: real,
    minimumRr: real,
    maxPositionSize: Option<real>,
    costs: CostModel)

  datatype OpenTrade = OpenTrade(
    direction: Direction,
    entryPrice: real,
    stop: real,
    target: real,
    quantity: real,
    openedAt: int)

  datatype TradeRecord = TradeRecord(
    direction: Direction,
    entryPrice: real,
    exitPrice: real,
    quantity: real,
    pnl: real,
    rMultiple: Option<real>,
    openedAt: int,
    closedAt: int)

  datatype State = State(equity: real, open: Option<OpenTrade>, trades: seq<TradeRecord>)

  function Evaluate(c: Config, visible: seq<Candle>): Option<Signal> {
    match c.rule(visible)
    case None => None
    case Some(setup) => Bracket(setup, c.minimumRr)
  }

  /** The level a candle closes a trade at; the stop is looked at first. */
  function HitPrice(t: OpenTrade, candle: Candle): Option<real> {
    if t.direction.LONG? then
      if candle.low <= t.stop then Some(t.stop)
      else if candle.high >= t.target then Some(t.target)
      else None
    else
      if candle.high >= t.stop then Some(t.stop)
      else if candle.low <= t.target then Some(t.target)
      else None
  }

  /** `_check_exit`. */
  function CheckExit(c: Config, t: OpenTrade, candle: Candle): Option<TradeRecord> {
    match HitPrice(t, candle)
    case None => None
    case Some(hit) =>
      var exit := c.costs.ExitPrice(hit, t.direction);
      var gross := (exit - t.entryPrice) * t.quantity * t.direction.Sign();
      var pnl := gross - c.costs.RoundTripCosts(t.entryPrice * t.quantity, exit * t.quantity);
      var risk := Abs(t.entryPrice - t.stop);
      var r := if risk == 0.0 then None else Some((exit - t.entryPrice) * t.direction.Sign() / risk);
      Some(TradeRecord(t.direction, t.entryPrice, exit, t.quantity, pnl, r, t.openedAt, candle.timestamp))
  }

  /** `_open_trade`. */
  function Opened(c: Config, s: Signal, candle: Candle, equity: real): OpenTrade {
    OpenTrade(s.direction, c.costs.EntryPrice(s.entry, s.direction), s.stop, s.target,
              R.PositionSize(equity, c.riskPercent, s.entry, s.stop, c.maxPositionSize), candle.timestamp)
  }

  function TryOpen(c: Config, s: State, visible: seq<Candle>): State
    requires visible != []
  {
    var candle := visible[|visible| - 1];
    if |visible| < 3 then s
    else
      match Evaluate(c, visible)
      case None => s
      case Some(signal) =>
        if candle.low <= signal.entry <= candle.high then s.(open := Some(Opened(c, signal, candle, s.equity))) else s
  }

  /** One candle: an open trade is only checked for its exit, a flat book only for an entry. */
  function Step(c: Config, s: State, visible: seq<Candle>): State
    requires visible != []
  {
    match s.open
    case None => TryOpen(c, s, visible)
    case Some(t) =>
      match CheckExit(c, t, visible[|visible| - 1])
      case None => s
      case Some(closed) => State(s.equity + closed.pnl, None, s.trades + [closed])
  }

  function After(c: Config, startingCapital: real, candles: seq<Candle>): State {
    if candles == [] then State(startingCapital, None, [])
    else Step(c, After(c, startingCapital, candles[..|candles| - 1]), candles)
  }

  class BacktestEngine {
    const config: Config
    const startingCapital: real
    var openTrade: Option<OpenTrade>

    constructor (config: Config, startingCapital: real)
      ensures this.config == config && this.startingCapital == startingCapital && openTrade == None
    {
      this.config, this.startingCapital, openTrade := config, startingCapital, None;
    }

    /** `run`: the completed trades, and on the engine the position the data ran out on. */
    method Run(candles: seq<Candle>) returns (trades: seq<TradeRecord>, equity: real)
      modifies this
      ensures State(equity, openTrade, trades) == After(config, startingCapital, candles)
    {
      trades, equity := [], startingCapital;
      var open: Option<OpenTrade> := None;
      for i := 0 to |candles|
        invariant State(equity, open, trades) == After(config, startingCapital, candles[..i])
      {
        var visible := candles[..i + 1];
        var candle := candles[i];
        assert visible[..i] == candles[..i];
        if open.Some? {
          var closed := CheckExit(config, open.value, candle);
          if closed.Some? {
            trades := trades + [closed.value];
            equity := equity + closed.value.pnl;
            open := None;
          }
        } else if |visible| >= 3 {
          var signal := Evaluate(config, visible);
          if signal.Some? && candle.low <= signal.value.entry <= candle.high {
            open := Some(Opened(config, signal.value, candle, equity));
          }
        }
      }
      assert candles[..|candles|] == candles;
      openTrade := open;
    }
  }

  // ------------------------------------------------------------------ what a run conserves

  function PnlSum(trades: seq<TradeRecord>): real {
    if trades == [] then 0.0 else PnlSum(trades[..|trades| - 1]) + trades[|trades| - 1].pnl
  }

  /** Equity is the starting capital plus the profit of exactly the trades returned, over every
      history, strategy and cost model; what the data ran out on is not counted. */
  lemma {:induction false} EquityIsCapitalPlusTrades(c: Config, startingCapital: real, candles: seq<Candle>)
    ensures var s := After(c, startingCapital, candles); s.equity == startingCapital + PnlSum(s.trades)
  {
    if candles != [] {
      EquityIsCapitalPlusTrades(c, startingCapital, candles[..|candles| - 1]);
    }
  }

  /** The price move of a trade times its size. */
  function Gain(t: OpenTrade, exit: real): real {
    (exit - t.entryPrice) * t.quantity * t.direction.Sign()
  }

  /** Without costs a fill is at its level and a trade's profit is the price move times the size. */
  lemma NoCostsExit(c: Config, t: OpenTrade, candle: Candle)
    requires c.costs == NO_COSTS
    ensures CheckExit(c, t, candle).Some? <==> HitPrice(t, candle).Some?
    ensures HitPrice(t, candle).Some? ==>
              var r := CheckExit(c, t, candle).value;
              && r.exitPrice == HitPrice(t, candle).value
              && r.pnl == Gain(t, r.exitPrice)
  {
    if HitPrice(t, candle).Some? {
      var hit := HitPrice(t, candle).value;
      assert NO_COSTS.Slip(hit) == 0.0;
      assert NO_COSTS.RoundTripCosts(t.entryPrice * t.quantity, hit * t.quantity) == 0.0;
    }
  }

  /** The account covers what its open trade can lose: its stop costs at most the strategy's
      percentage of equity. */
  ghost predicate Solvent(c: Config, s: State) {
    && (if c.riskPercent < 100.0 then s.equity > 0.0 else s.equity >= 0.0)
    && (s.open.Some? ==>
          var t := s.open.value;
          && ValidBracket(Signal(t.direction, t.entryPrice, t.stop, t.target))
          && t.quantity >= 0.0
          && t.quantity * Abs(t.entryPrice - t.stop) <= s.equity * (c.riskPercent / 100.0))
  }

  predicate SoundConfig(c: Config) {
    && 0.0 < c.riskPercent <= 100.0 && c.minimumRr > 0.0
    && (c.maxPositionSize.Some? ==> c.maxPositionSize.value >= 0.0)
    && c.costs == NO_COSTS
  }

  /** A trade hit at its target gains; one hit at its stop loses exactly what was risked. */
  lemma BracketPnl(t: OpenTrade, hit: real)
    requires ValidBracket(Signal(t.direction, t.entryPrice, t.stop, t.target)) && t.quantity >= 0.0
    ensures hit == t.stop ==> Gain(t, hit) == -(t.quantity * Abs(t.entryPrice - t.stop))
    ensures hit == t.target ==> Gain(t, hit) >= 0.0
  {
    if hit == t.target {
      var gain := (hit - t.entryPrice) * t.direction.Sign();
      assert gain * t.quantity >= 0.0;
      assert Gain(t, hit) == gain * t.quantity;
    }
  }

  lemma LossWithinBudget(equity: real, percent: real, loss: real)
    requires equity >= 0.0 && 0.0 < percent <= 100.0 && loss <= equity * (percent / 100.0)
    ensures equity - loss >= 0.0
    ensures equity > 0.0 && percent < 100.0 ==> equity - loss > 0.0
  {
    var share := percent / 100.0;
    assert equity * (1.0 - share) >= 0.0;
    if equity > 0.0 && percent < 100.0 {
      assert equity * (1.0 - share) > 0.0;
    }
  }

  lemma ExitKeepsSolvent(c: Config, s: State, hit: real)
    requires SoundConfig(c) && Solvent(c, s) && s.open.Some?
    requires hit == s.open.value.stop || hit == s.open.value.target
    ensures var after := s.equity + Gain(s.open.value, hit);
            if c.riskPercent < 100.0 then after > 0.0 else after >= 0.0
  {
    var t := s.open.value;
    BracketPnl(t, hit);
    LossWithinBudget(s.equity, c.riskPercent, t.quantity * Abs(t.entryPrice - t.stop));
  }

  lemma EntryKeepsSolvent(c: Config, s: State, signal: Signal, candle: Candle)
    requires SoundConfig(c) && Solvent(c, s) && ValidBracket(signal)
    ensures Solvent(c, s.(open := Some(Opened(c, signal, candle, s.equity))))
  {
    assert NO_COSTS.Slip(signal.entry) == 0.0;
    R.PositionSizeIsLargestWithinBudget(s.equity, c.riskPercent, signal.entry, signal.stop, c.maxPositionSize, 0.0);
  }

  /** With no costs, for every history and every strategy risking at most its equity, the account
      never goes below zero, and stays funded when the percentage is below one hundred: the
      gate's `account_funded` check cannot be what stops such a strategy. */
  lemma {:induction false} AccountStaysSolvent(c: Config, startingCapital: real, candles: seq<Candle>)
    requires SoundConfig(c) && startingCapital > 0.0
    ensures Solvent(c, After(c, startingCapital, candles))
  {
    if candles != [] {
      var before := After(c, startingCapital, candles[..|candles| - 1]);
      AccountStaysSolvent(c, startingCapital, candles[..|candles| - 1]);
      var candle := candles[|candles| - 1];
      if before.open.Some? {
        NoCostsExit(c, before.open.value, candle);
        if HitPrice(before.open.value, candle).Some? {
          ExitKeepsSolvent(c, before, HitPrice(before.open.value, candle).value);
        }
      } else if |candles| >= 3 && Evaluate(c, candles).Some? {
        BracketIsValid(c.rule(candles).value, c.minimumRr);
        EntryKeepsSolvent(c, before, Evaluate(c, candles).value, candle);
      }
    }
  }
}
