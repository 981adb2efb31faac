/**
Candles, the calendar buckets the risk counters use, and the bracket a strategy turns a
setup into (`StrategyEngine.evaluate`).
*/
module Market {
  import opened Common

  /** Timestamps are whole seconds since 1970-01-01 00:00 UTC. */
  datatype Candle = Candle(timestamp: int, open: real, high: real, low: real, close: real, volume: real)

  function Day(timestamp: int): int {
    timestamp / 86400
  }

  /** Weeks run Monday to Sunday; day 0 was a Thursday. Consecutive ISO (year, week) pairs are
      consecutive here, so comparing pairs is comparing these numbers. */
  function Week(timestamp: int): int {
    (Day(timestamp) + 3) / 7
  }

  /** What the conditions of a strategy and its entry rule produce for a visible history. */
  datatype Setup = Setup(direction: Direction, entry: real, stop: real)

  datatype Signal = Signal(direction: Direction, entry: real, stop: real, target: real)

  const MAX_JOURNALLED := 1000000000000.0

  /** The stop on the losing side of the entry, the target on the winning side. */
  predicate ValidBracket(s: Signal) {
    if s.direction.LONG? then s.stop < s.entry < s.target else s.target < s.entry < s.stop
  }

  /** `evaluate` once conditions, direction and entry zone are settled. */
  function Bracket(setup: Setup, minimumRr: real): Option<Signal> {
    if setup.entry == setup.stop then None
    else if (if setup.direction.LONG? then setup.stop > setup.entry else setup.stop < setup.entry) then None
    else
      var reward := Abs(setup.entry - setup.stop) * minimumRr;
      var target := if setup.direction.LONG? then setup.entry + reward else setup.entry - reward;
      if Abs(target) < MAX_JOURNALLED then Some(Signal(setup.direction, setup.entry, setup.stop, target)) else None
  }

  /** A strategy with a positive reward ratio only ever emits valid brackets, and refuses a
      setup exactly when its stop is not strictly on the losing side or its target cannot be
      recorded. */
  lemma BracketIsValid(setup: Setup, minimumRr: real)
    requires minimumRr > 0.0
    ensures var s := Bracket(setup, minimumRr);
            && (s.Some? ==> ValidBracket(s.value) && s.value.entry == setup.entry && s.value.stop == setup.stop
                            && Abs(s.value.target - s.value.entry) == minimumRr * Abs(s.value.entry - s.value.stop))
            && (s.None? <==>
                  || (if setup.direction.LONG? then setup.stop >= setup.entry else setup.stop <= setup.entry)
                  || Abs(setup.entry + setup.direction.Sign() * (minimumRr * Abs(setup.entry - setup.stop)))
                     >= MAX_JOURNALLED)
  {
    var risk := Abs(setup.entry - setup.stop);
    if risk > 0.0 {
      assert risk * minimumRr > 0.0;
    }
  }
}
