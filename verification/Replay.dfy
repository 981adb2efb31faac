/**
Manual replay (`ReplayEngine`, `ReplayClock`, `compute_statistics`): one open trade at a time over
a clock that only moves forward, with every number bounded by what the journal's columns hold.
*/
module Replay {
  import opened Common
  import opened Market

  datatype Trade = Trade(
    direction: Direction,
    entryPrice: real,
    quantity: Quantity,
    openedIndex: nat,
    openedAt: int,
    stop: Option<real>,
    target: Option<real>,
    initialStop: Option<real>)

  datatype Closed = Closed(trade: Trade, exitPrice: real, closedIndex: nat, closedAt: int, pnl: real,
                           rMultiple: Option<real>)

  datatype Session = Session(
    starting: real,
    balance: real,
    cursor: nat,
    open: Option<Trade>,
    closed: seq<Closed>)

  datatype Refusal = ALREADY_OPEN | NO_POSITION | CANNOT_BE_RECORDED

  // ------------------------------------------------------------- the engine on values

  function PnlAt(t: Trade, exit: real): real {
    (exit - t.entryPrice) * (t.quantity as real) * t.direction.Sign()
  }

  /** The journal can hold a fill at this price. */
  predicate Recordable(balance: real, t: Trade, price: real) {
    Abs(PnlAt(t, price)) < MAX_JOURNALLED && Abs(balance + PnlAt(t, price)) < MAX_JOURNALLED
  }

  function Opened(s: Session, candle: Candle, direction: Direction, quantity: Quantity): Result<Session, Refusal> {
    if s.open.Some? then Err(ALREADY_OPEN)
    else Ok(s.(open := Some(Trade(direction, candle.close, quantity, s.cursor, candle.timestamp, None, None, None))))
  }

  function WithStop(s: Session, price: real): Result<Session, Refusal> {
    if s.open.None? then Err(NO_POSITION)
    else
      var t := s.open.value;
      if !Recordable(s.balance, t, price) then Err(CANNOT_BE_RECORDED)
      else Ok(s.(open := Some(t.(stop := Some(price),
                                 initialStop := if t.initialStop.None? then Some(price) else t.initialStop))))
  }

  function WithTarget(s: Session, price: real): Result<Session, Refusal> {
    if s.open.None? then Err(NO_POSITION)
    else if !Recordable(s.balance, s.open.value, price) then Err(CANNOT_BE_RECORDED)
    else Ok(s.(open := Some(s.open.value.(target := Some(price)))))
  }

  /** Reward in units of the risk first taken. */
  function RMultiple(t: Trade, exit: real): Option<real> {
    if t.initialStop.None? || t.entryPrice == t.initialStop.value then None
    else Some((exit - t.entryPrice) * t.direction.Sign() / Abs(t.entryPrice - t.initialStop.value))
  }

  function ClosedAt(s: Session, candle: Candle, price: Option<real>): Result<Session, Refusal> {
    if s.open.None? then Err(NO_POSITION)
    else
      var t := s.open.value;
      var exit := if price.Some? then price.value else candle.close;
      if !Recordable(s.balance, t, exit) then Err(CANNOT_BE_RECORDED)
      else
        Ok(s.(balance := s.balance + PnlAt(t, exit), open := None,
              closed := s.closed + [Closed(t, exit, s.cursor, candle.timestamp, PnlAt(t, exit), RMultiple(t, exit))]))
  }

  /** The level the candle takes the trade out at: the stop before the target. */
  function ExitLevel(t: Trade, candle: Candle): Option<real> {
    if t.direction.LONG? then
      if t.stop.Some? && candle.low <= t.stop.value then t.stop
      else if t.target.Some? && candle.high >= t.target.value then t.target
      else None
    else
      if t.stop.Some? && candle.high >= t.stop.value then t.stop
      else if t.target.Some? && candle.low <= t.target.value then t.target
      else None
  }

  function Checked(s: Session, candle: Candle): Result<Session, Refusal> {
    if s.open.None? || ExitLevel(s.open.value, candle).None? then Ok(s)
    else ClosedAt(s, candle, ExitLevel(s.open.value, candle))
  }

  /** `advance`: candle by candle, checking the trade at each; the failure of a close escapes. */
  function Advanced(s: Session, candles: seq<Candle>, steps: nat): Result<Session, Refusal>
    requires s.cursor < |candles|
    decreases steps
  {
    if steps == 0 || s.cursor + 1 >= |candles| then Ok(s)
    else
      match Checked(s.(cursor := s.cursor + 1), candles[s.cursor + 1])
      case Err(e) => Err(e)
      case Ok(next) => if next.cursor < |candles| then Advanced(next, candles, steps - 1) else Ok(next)
  }

  // ----------------------------------------------------------------- what every run keeps

  function Pnls(closed: seq<Closed>): (pnls: seq<real>)
    ensures |pnls| == |closed|
  {
    if closed == [] then [] else Pnls(closed[..|closed| - 1]) + [closed[|closed| - 1].pnl]
  }

  /** The R-multiples of the trades that have one. */
  function RMultiples(closed: seq<Closed>): seq<real> {
    if closed == [] then []
    else
      var last := closed[|closed| - 1].rMultiple;
      RMultiples(closed[..|closed| - 1]) + if last.Some? then [last.value] else []
  }

  /** A closed trade's figures follow from its prices. */
  predicate Booked(c: Closed) {
    c.pnl == PnlAt(c.trade, c.exitPrice) && Abs(c.pnl) < MAX_JOURNALLED &&
      c.rMultiple == RMultiple(c.trade, c.exitPrice)
  }

  predicate LevelsRecordable(s: Session) {
    s.open.Some? ==>
      && (s.open.value.stop.Some? ==> Recordable(s.balance, s.open.value, s.open.value.stop.value))
      && (s.open.value.target.Some? ==> Recordable(s.balance, s.open.value, s.open.value.target.value))
      && (s.open.value.stop.Some? <==> s.open.value.initialStop.Some?)
  }

  predicate Sane(s: Session, candles: seq<Candle>) {
    && s.cursor < |candles|
    && s.balance == s.starting + Sum(Pnls(s.closed))
    && Abs(s.balance) < MAX_JOURNALLED
    && LevelsRecordable(s)
    && (forall i :: 0 <= i < |s.closed| ==> Booked(s.closed[i]))
  }

  lemma ClosedKeepsSane(s: Session, candles: seq<Candle>, candle: Candle, price: Option<real>)
    requires Sane(s, candles) && ClosedAt(s, candle, price).Ok?
    ensures Sane(ClosedAt(s, candle, price).value, candles)
  {
    hide PnlAt, RMultiple, Abs, Pnls, Sum;
    var t, exit := s.open.value, if price.Some? then price.value else candle.close;
    var pnl := PnlAt(t, exit);
    var c := Closed(t, exit, s.cursor, candle.timestamp, pnl, RMultiple(t, exit));
    assert ClosedAt(s, candle, price).value == s.(balance := s.balance + pnl, open := None, closed := s.closed + [c]);
    PnlsAppend(s.closed, c);
    SumAppend(Pnls(s.closed), pnl);
    assert Booked(c);
  }

  lemma PnlsAppend(closed: seq<Closed>, c: Closed)
    ensures Pnls(closed + [c]) == Pnls(closed) + [c.pnl]
  {
    assert (closed + [c])[..|closed|] == closed;
  }

  /** A stop or a target in place was admitted by the very test the close repeats, on a balance
      that has not moved since: a candle can always be checked. */
  lemma CheckNeverRaises(s: Session, candles: seq<Candle>, candle: Candle)
    requires Sane(s, candles)
    ensures Checked(s, candle).Ok? && Sane(Checked(s, candle).value, candles)
    ensures Checked(s, candle).value.cursor == s.cursor
  {
    if s.open.Some? && ExitLevel(s.open.value, candle).Some? {
      ClosedKeepsSane(s, candles, candle, ExitLevel(s.open.value, candle));
    }
  }

  /** Advancing never raises, from any sane session by any number of steps. */
  lemma {:induction false} AdvanceNeverRaises(s: Session, candles: seq<Candle>, steps: nat)
    requires Sane(s, candles)
    ensures Advanced(s, candles, steps).Ok? && Sane(Advanced(s, candles, steps).value, candles)
    ensures Advanced(s, candles, steps).value.cursor
            == if s.cursor + steps < |candles| then s.cursor + steps else |candles| - 1
    decreases steps
  {
    if steps > 0 && s.cursor + 1 < |candles| {
      var moved := s.(cursor := s.cursor + 1);
      CheckNeverRaises(moved, candles, candles[moved.cursor]);
      AdvanceNeverRaises(Checked(moved, candles[moved.cursor]).value, candles, steps - 1);
    }
  }

  datatype Action =
    | OPEN(direction: Direction, quantity: Quantity)
    | SET_STOP(price: real)
    | SET_TARGET(price: real)
    | CLOSE(at: Option<real>)
    | ADVANCE(steps: nat)

  function Answered(s: Session, candles: seq<Candle>, a: Action): Result<Session, Refusal>
    requires s.cursor < |candles|
  {
    match a
    case OPEN(direction, quantity) => Opened(s, candles[s.cursor], direction, quantity)
    case SET_STOP(price) => WithStop(s, price)
    case SET_TARGET(price) => WithTarget(s, price)
    case CLOSE(at) => ClosedAt(s, candles[s.cursor], at)
    case ADVANCE(steps) => Advanced(s, candles, steps)
  }

  function Acted(s: Session, candles: seq<Candle>, a: Action): Session
    requires s.cursor < |candles|
  {
    var r := Answered(s, candles, a);
    if r.Ok? then r.value else s
  }

  lemma ActionKeepsSane(s: Session, candles: seq<Candle>, a: Action)
    requires Sane(s, candles)
    ensures Sane(Acted(s, candles, a), candles)
    ensures a.ADVANCE? ==> Answered(s, candles, a).Ok?
    ensures Acted(s, candles, a).cursor >= s.cursor && Acted(s, candles, a).starting == s.starting
  {
    match a
    case OPEN(_, _) =>
    case SET_STOP(price) => PnlIgnoresLevels(s);
    case SET_TARGET(price) => PnlIgnoresLevels(s);
    case CLOSE(at) =>
      if ClosedAt(s, candles[s.cursor], at).Ok? {
        ClosedKeepsSane(s, candles, candles[s.cursor], at);
      }
    case ADVANCE(steps) =>
      AdvanceNeverRaises(s, candles, steps);
      AdvanceKeepsStarting(s, candles, steps);
  }

  lemma PnlIgnoresLevels(s: Session)
    ensures s.open.Some? ==> forall stop, target, initial, price ::
              PnlAt(s.open.value.(stop := stop, target := target, initialStop := initial), price)
                == PnlAt(s.open.value, price)
  {}

  lemma {:induction false} AdvanceKeepsStarting(s: Session, candles: seq<Candle>, steps: nat)
    requires s.cursor < |candles| && Advanced(s, candles, steps).Ok?
    ensures Advanced(s, candles, steps).value.starting == s.starting
    decreases steps
  {
    if steps > 0 && s.cursor + 1 < |candles| {
      var moved := s.(cursor := s.cursor + 1);
      var next := Checked(moved, candles[moved.cursor]).value;
      AdvanceKeepsStarting(next, candles, steps - 1);
    }
  }

  function Fresh(starting: real): Session {
    Session(starting, starting, 0, None, [])
  }

  ghost predicate Reached(s: Session, candles: seq<Candle>, starting: real, actions: seq<Action>)
    decreases |actions|
  {
    if actions == [] then s == Fresh(starting)
    else exists before :: Reached(before, candles, starting, actions[..|actions| - 1]) && before.cursor < |candles|
                          && s == Acted(before, candles, actions[|actions| - 1])
  }

  /** In every reachable session the balance is the starting balance plus the closed P&Ls, it and
      every closed P&L stay below the journal's bound, and the next advance cannot raise. */
  lemma {:induction false} EveryReachedSessionIsSane(s: Session, candles: seq<Candle>, starting: real,
                                                     actions: seq<Action>)
    requires candles != [] && Abs(starting) < MAX_JOURNALLED && Reached(s, candles, starting, actions)
    ensures Sane(s, candles) && s.starting == starting
    ensures s.balance == starting + Sum(Pnls(s.closed)) && Abs(s.balance) < MAX_JOURNALLED
    ensures forall steps: nat :: Advanced(s, candles, steps).Ok?
    decreases |actions|
  {
    if actions != [] {
      var before :| Reached(before, candles, starting, actions[..|actions| - 1]) && before.cursor < |candles|
                    && s == Acted(before, candles, actions[|actions| - 1]);
      EveryReachedSessionIsSane(before, candles, starting, actions[..|actions| - 1]);
      ActionKeepsSane(before, candles, actions[|actions| - 1]);
    }
    forall steps: nat ensures Advanced(s, candles, steps).Ok? {
      AdvanceNeverRaises(s, candles, steps);
    }
  }

  /** R times the risk first taken on the whole position is the P&L, wherever the stop moved since. */
  lemma RMultipleIsPnlOverRisk(t: Trade, exit: real)
    requires RMultiple(t, exit).Some?
    ensures RMultiple(t, exit).value * Abs(t.entryPrice - t.initialStop.value) * (t.quantity as real) == PnlAt(t, exit)
  {
    var reward, risk := (exit - t.entryPrice) * t.direction.Sign(), Abs(t.entryPrice - t.initialStop.value);
    DivMul(reward, risk);
    assert reward * (t.quantity as real) == PnlAt(t, exit);
  }

  // --------------------------------------------------------------------------- the classes

  datatype Status = CREATED | PLAYING | PAUSED | FINISHED

  class ReplayClock {
    const candles: seq<Candle>
    var cursor: nat
    var status: Status

    ghost predicate Valid()
      reads this
    {
      cursor < |candles|
    }

    constructor (candles: seq<Candle>)
      requires candles != []
      ensures Valid() && this.candles == candles && cursor == 0 && status == Status.CREATED
    {
      this.candles := candles;
      cursor, status := 0, Status.CREATED;
    }

    predicate IsFinished()
      reads this
    {
      cursor + 1 >= |candles|
    }

    /** Only candles up to the cursor are ever shown. */
    function VisibleCandles(): (visible: seq<Candle>)
      requires Valid()
      reads this
      ensures visible <= candles && |visible| == cursor + 1 && visible[cursor] == candles[cursor]
    {
      candles[..cursor + 1]
    }

    method NextCandle() returns (candle: Candle)
      requires Valid()
      modifies this
      ensures Valid() && candle == candles[cursor]
      ensures cursor == if old(IsFinished()) then old(cursor) else old(cursor) + 1
      ensures status == if IsFinished() then FINISHED else old(status)
    {
      if IsFinished() {
        status := FINISHED;
        return candles[cursor];
      }
      cursor := cursor + 1;
      if IsFinished() {
        status := FINISHED;
      }
      candle := candles[cursor];
    }
  }

  class ReplayEngine {
    const clock: ReplayClock
    const startingBalance: real
    var balance: real
    var openTrade: Option<Trade>
    var closedTrades: seq<Closed>

    ghost predicate Valid()
      reads this, clock
    {
      clock.Valid()
    }

    ghost function State(): Session
      reads this, clock
    {
      Session(startingBalance, balance, clock.cursor, openTrade, closedTrades)
    }

    constructor (candles: seq<Candle>, startingBalance: real)
      requires candles != []
      ensures Valid() && fresh(clock) && clock.candles == candles && State() == Fresh(startingBalance)
    {
      clock := new ReplayClock(candles);
      this.startingBalance := startingBalance;
      balance, openTrade, closedTrades := startingBalance, None, [];
    }

    method Open(direction: Direction, quantity: Quantity) returns (r: Result<Trade, Refusal>)
      requires Valid()
      modifies this`openTrade
      ensures Valid()
      ensures match Opened(old(State()), clock.candles[clock.cursor], direction, quantity)
              case Ok(next) => State() == next && r == Ok(next.open.value)
              case Err(e) => State() == old(State()) && r == Err(e)
    {
      if openTrade.Some? {
        return Err(ALREADY_OPEN);
      }
      var candle := clock.candles[clock.cursor];
      var trade := Trade(direction, candle.close, quantity, clock.cursor, candle.timestamp, None, None, None);
      openTrade := Some(trade);
      r := Ok(trade);
    }

    method SetStop(price: real) returns (r: Result<(), Refusal>)
      requires Valid()
      modifies this`openTrade
      ensures Valid()
      ensures match WithStop(old(State()), price)
              case Ok(next) => State() == next && r.Ok?
              case Err(e) => State() == old(State()) && r == Err(e)
    {
      if openTrade.None? {
        return Err(NO_POSITION);
      }
      if !Recordable(balance, openTrade.value, price) {
        return Err(CANNOT_BE_RECORDED);
      }
      openTrade := Some(openTrade.value.(stop := Some(price)));
      if openTrade.value.initialStop.None? {
        openTrade := Some(openTrade.value.(initialStop := Some(price)));
      }
      r := Ok(());
    }

    method SetTarget(price: real) returns (r: Result<(), Refusal>)
      requires Valid()
      modifies this`openTrade
      ensures Valid()
      ensures match WithTarget(old(State()), price)
              case Ok(next) => State() == next && r.Ok?
              case Err(e) => State() == old(State()) && r == Err(e)
    {
      if openTrade.None? {
        return Err(NO_POSITION);
      }
      if !Recordable(balance, openTrade.value, price) {
        return Err(CANNOT_BE_RECORDED);
      }
      openTrade := Some(openTrade.value.(target := Some(price)));
      r := Ok(());
    }

    method Close(price: Option<real>) returns (r: Result<Closed, Refusal>)
      requires Valid()
      modifies this
      ensures Valid()
      ensures match ClosedAt(old(State()), clock.candles[clock.cursor], price)
              case Ok(next) => State() == next && r == Ok(next.closed[|next.closed| - 1])
              case Err(e) => State() == old(State()) && r == Err(e)
    {
      if openTrade.None? {
        return Err(NO_POSITION);
      }
      var candle := clock.candles[clock.cursor];
      var exit := if price.Some? then price.value else candle.close;
      var trade := openTrade.value;
      if !Recordable(balance, trade, exit) {
        return Err(CANNOT_BE_RECORDED);
      }
      var closed := Closed(trade, exit, clock.cursor, candle.timestamp, PnlAt(trade, exit), RMultiple(trade, exit));
      balance := balance + closed.pnl;
      closedTrades := closedTrades + [closed];
      openTrade := None;
      r := Ok(closed);
    }

    /** Called with the candle the clock stands at, as `advance` does. */
    method CheckStopTarget(candle: Candle) returns (r: Result<(), Refusal>)
      requires Valid() && candle == clock.candles[clock.cursor]
      modifies this
      ensures Valid()
      ensures match Checked(old(State()), candle)
              case Ok(next) => State() == next && r.Ok?
              case Err(e) => State() == old(State()) && r == Err(e)
    {
      r := Ok(());
      if openTrade.Some? {
        var trade := openTrade.value;
        var level: Option<real> := None;
        if trade.direction == LONG {
          if trade.stop.Some? && candle.low <= trade.stop.value {
            level := trade.stop;
          } else if trade.target.Some? && candle.high >= trade.target.value {
            level := trade.target;
          }
        } else {
          if trade.stop.Some? && candle.high >= trade.stop.value {
            level := trade.stop;
          } else if trade.target.Some? && candle.low <= trade.target.value {
            level := trade.target;
          }
        }
        if level.Some? {
          var closed := Close(level);
          if closed.Err? {
            r := Err(closed.error);
          }
        }
      }
    }

    /** A sane session advances to exactly the session the specification gives, without raising. */
    method Advance(steps: nat) returns (candle: Candle)
      requires Valid() && Sane(State(), clock.candles)
      modifies this, clock
      ensures Valid() && Sane(State(), clock.candles) && candle == clock.candles[clock.cursor]
      ensures Advanced(old(State()), clock.candles, steps) == Ok(State())
    {
      hide Checked, Recordable, RMultiple;
      candle := clock.candles[clock.cursor];
      ghost var start := State();
      var left := steps;
      while left > 0 && !clock.IsFinished()
        invariant Valid() && Sane(State(), clock.candles) && candle == clock.candles[clock.cursor]
        invariant start.cursor < |clock.candles|
        invariant Advanced(start, clock.candles, steps) == Advanced(State(), clock.candles, left)
      {
        ghost var before := State();
        candle := clock.NextCandle();
        assert State() == before.(cursor := before.cursor + 1);
        assert Sane(State(), clock.candles);
        CheckNeverRaises(State(), clock.candles, candle);
        var r := CheckStopTarget(candle);
        left := left - 1;
      }
    }

    /** The statistics of a sane session end at the balance the session holds. */
    method ReportStatistics() returns (s: Statistics)
      requires Valid() && Sane(State(), clock.candles)
      ensures s.startingBalance == startingBalance && s.endingBalance == balance && s.trades == |closedTrades|
      ensures IsMaxDrawdown(startingBalance, Pnls(closedTrades), |closedTrades|, s.maxDrawdown)
      ensures var rs := RMultiples(closedTrades);
              s.averageR == if rs == [] then None else Some(Sum(rs) / |rs| as real)
    {
      var rMultiples: seq<real> := [];
      for i := 0 to |closedTrades|
        invariant rMultiples == RMultiples(closedTrades[..i])
      {
        assert closedTrades[..i + 1][..i] == closedTrades[..i];
        if closedTrades[i].rMultiple.Some? {
          rMultiples := rMultiples + [closedTrades[i].rMultiple.value];
        }
      }
      assert closedTrades[..|closedTrades|] == closedTrades;
      s := ComputeStatistics(Pnls(closedTrades), startingBalance, rMultiples);
    }
  }

  // ---------------------------------------------------------------------------- statistics

  function Positive(xs: seq<real>): seq<real> {
    if xs == [] then [] else (if xs[0] > 0.0 then [xs[0]] else []) + Positive(xs[1..])
  }

  function Negative(xs: seq<real>): seq<real> {
    if xs == [] then [] else (if xs[0] < 0.0 then [xs[0]] else []) + Negative(xs[1..])
  }

  datatype Statistics = Statistics(
    startingBalance: real,
    endingBalance: real,
    netPnl: real,
    winRate: real,
    profitFactor: Option<real>,
    maxDrawdown: real,
    trades: nat,
    averageR: Option<real>,
    bestTrade: Option<real>,
    worstTrade: Option<real>)

  /** The balance after the first `n` trades. */
  function Equity(starting: real, pnls: seq<real>, n: nat): real
    requires n <= |pnls|
  {
    starting + Sum(pnls[..n])
  }

  /** The deepest fall of the balance: no fall from an earlier point to a later one is deeper, and
      one is as deep. */
  ghost predicate IsMaxDrawdown(starting: real, pnls: seq<real>, n: nat, drawdown: real)
    requires n <= |pnls|
  {
    && (forall i, j :: 0 <= i <= j <= n ==> Equity(starting, pnls, i) - Equity(starting, pnls, j) <= drawdown)
    && exists i, j :: 0 <= i <= j <= n && Equity(starting, pnls, i) - Equity(starting, pnls, j) == drawdown
  }

  lemma EquityStep(starting: real, pnls: seq<real>, n: nat)
    requires n < |pnls|
    ensures Equity(starting, pnls, n + 1) == Equity(starting, pnls, n) + pnls[n]
  {
    assert pnls[..n + 1] == pnls[..n] + [pnls[n]];
    SumAppend(pnls[..n], pnls[n]);
  }

  ghost predicate IsPeak(starting: real, pnls: seq<real>, n: nat, peak: real)
    requires n <= |pnls|
  {
    && (forall i :: 0 <= i <= n ==> Equity(starting, pnls, i) <= peak)
    && exists i :: 0 <= i <= n && Equity(starting, pnls, i) == peak
  }

  lemma PeakStep(starting: real, pnls: seq<real>, n: nat, peak: real)
    requires n < |pnls| && IsPeak(starting, pnls, n, peak)
    ensures IsPeak(starting, pnls, n + 1, Max(peak, Equity(starting, pnls, n + 1)))
  {
    var i :| 0 <= i <= n && Equity(starting, pnls, i) == peak;
    assert Equity(starting, pnls, i) == peak && Equity(starting, pnls, n + 1) == Equity(starting, pnls, n + 1);
  }

  lemma DrawdownStep(starting: real, pnls: seq<real>, n: nat, peak: real, drawdown: real)
    requires n < |pnls| && IsPeak(starting, pnls, n + 1, peak) && IsMaxDrawdown(starting, pnls, n, drawdown)
    ensures IsMaxDrawdown(starting, pnls, n + 1, Max(drawdown, peak - Equity(starting, pnls, n + 1)))
  {
    var deepest := Max(drawdown, peak - Equity(starting, pnls, n + 1));
    forall i, j | 0 <= i <= j <= n + 1 ensures Equity(starting, pnls, i) - Equity(starting, pnls, j) <= deepest {
      if j == n + 1 {
        assert Equity(starting, pnls, i) <= peak;
      }
    }
    var i, j :| 0 <= i <= j <= n && Equity(starting, pnls, i) - Equity(starting, pnls, j) == drawdown;
    var top :| 0 <= top <= n + 1 && Equity(starting, pnls, top) == peak;
    assert Equity(starting, pnls, i) - Equity(starting, pnls, j) == deepest
           || Equity(starting, pnls, top) - Equity(starting, pnls, n + 1) == deepest;
  }

  lemma CurveStarts(starting: real, pnls: seq<real>)
    ensures Equity(starting, pnls, 0) == starting
    ensures IsPeak(starting, pnls, 0, starting) && IsMaxDrawdown(starting, pnls, 0, 0.0)
  {
    assert Equity(starting, pnls, 0) - Equity(starting, pnls, 0) == 0.0;
  }

  /** The one-pass loop: equity, running peak, deepest fall from the peak. */
  method MaxDrawdown(starting: real, pnls: seq<real>) returns (equity: real, drawdown: real)
    ensures equity == starting + Sum(pnls)
    ensures IsMaxDrawdown(starting, pnls, |pnls|, drawdown)
  {
    hide IsPeak, IsMaxDrawdown, Sum;
    equity := starting;
    var peak := starting;
    drawdown := 0.0;
    CurveStarts(starting, pnls);
    for n := 0 to |pnls|
      invariant equity == Equity(starting, pnls, n)
      invariant IsPeak(starting, pnls, n, peak)
      invariant IsMaxDrawdown(starting, pnls, n, drawdown)
    {
      EquityStep(starting, pnls, n);
      PeakStep(starting, pnls, n, peak);
      equity := equity + pnls[n];
      peak := Max(peak, equity);
      assert equity == Equity(starting, pnls, n + 1);
      DrawdownStep(starting, pnls, n, peak, drawdown);
      drawdown := Max(drawdown, peak - equity);
    }
    assert pnls[..|pnls|] == pnls;
  }

  /** `compute_statistics`, before rounding. */
  method ComputeStatistics(pnls: seq<real>, starting: real, rMultiples: seq<real>) returns (s: Statistics)
    ensures s.startingBalance == starting && s.trades == |pnls| && s.netPnl == Sum(pnls) &&
            s.endingBalance == starting + Sum(pnls)
    ensures IsMaxDrawdown(starting, pnls, |pnls|, s.maxDrawdown)
    ensures s.winRate == if pnls == [] then 0.0 else |Positive(pnls)| as real / |pnls| as real
    ensures s.profitFactor
            == if Sum(Negative(pnls)) != 0.0 then Some(Sum(Positive(pnls)) / Abs(Sum(Negative(pnls)))) else None
    ensures s.averageR == if rMultiples == [] then None else Some(Sum(rMultiples) / |rMultiples| as real)
    ensures s.bestTrade == if pnls == [] then None else Some(MaxOf(pnls))
    ensures s.worstTrade == if pnls == [] then None else Some(MinOf(pnls))
  {
    var net := Sum(pnls);
    var wins, losses := Positive(pnls), Negative(pnls);
    var winRate := if pnls != [] then |wins| as real / |pnls| as real else 0.0;
    var grossProfit, grossLoss := Sum(wins), Abs(Sum(losses));
    var profitFactor := if grossLoss > 0.0 then Some(grossProfit / grossLoss) else None;
    var equity, drawdown := MaxDrawdown(starting, pnls);
    s := Statistics(starting, starting + net, net, winRate, profitFactor, drawdown, |pnls|,
                    if rMultiples == [] then None else Some(Sum(rMultiples) / |rMultiples| as real),
                    if pnls == [] then None else Some(MaxOf(pnls)),
                    if pnls == [] then None else Some(MinOf(pnls)));
  }

  /** Profits less losses is the net result, and a profit factor is undefined exactly when no trade lost. */
  lemma {:induction false} ProfitsLessLosses(pnls: seq<real>)
    ensures Sum(Positive(pnls)) + Sum(Negative(pnls)) == Sum(pnls)
    ensures Sum(Positive(pnls)) >= 0.0 && Sum(Negative(pnls)) <= 0.0
    ensures Sum(Negative(pnls)) == 0.0 <==> forall i :: 0 <= i < |pnls| ==> pnls[i] >= 0.0
    ensures |Positive(pnls)| <= |pnls|
  {
    if pnls != [] {
      ProfitsLessLosses(pnls[1..]);
      assert forall i :: 1 <= i < |pnls| ==> pnls[i] == pnls[1..][i - 1];
      assert forall xs: seq<real> :: [] + xs == xs;
    }
  }
}
