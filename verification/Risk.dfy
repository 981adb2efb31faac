/**
The risk engine: position sizing (`calculate_position_size`) and the gate every entry passes
(`RiskEngine.evaluate`).
*/
module Risk {
  import opened Common

  datatype Limits = Limits(
    riskPerTradePct: real,
    maxDailyLossPct: real,
    maxWeeklyLossPct: real,
    maxOpenPositions: int,
    maxTradesPerDay: int,
    maxExposurePct: real,
    maxPositionSize: Option<real>,
    maxStrategyAllocationPct: real,
    maxCorrelatedExposurePct: real,
    maxStalenessSeconds: real,
    maxRepeatedRejections: int,
    maxPriceJumpPct: real,
    maxEntryDeviationPct: real)

  datatype Proposal = Proposal(
    entry: real,
    stop: real,
    accountBalance: real,
    openPositions: int,
    tradesToday: int,
    dailyPnl: real,
    weeklyPnl: real,
    currentExposure: real,
    strategyAllocation: real,
    correlatedExposure: real,
    dataAgeSeconds: Option<real>,
    brokerHealthy: bool,
    repeatedRejections: int,
    priceJumpPct: real,
    entryDeviationPct: real,
    liquidityAcceptable: Option<bool>,
    proposedQuantity: Option<real>,
    isReducing: bool)

  datatype CheckName =
    | KillSwitch | ValidStopDistance | EntryMatchesMarket
    | AccountFunded | DailyLossLimit | WeeklyLossLimit | ExposureLimit | StrategyAllocationLimit
    | CorrelatedExposureLimit | MaxOpenPositions | MaxTradesPerDay
    | LiquidityAcceptable | MarketDataFresh | BrokerHealthy | NoRepeatedRejections | NoAbnormalPriceJump

  datatype Check = Check(name: CheckName, passed: bool)

  datatype Decision = Decision(approved: bool, checks: seq<Check>)

  /** `calculate_position_size`. */
  function PositionSize(balance: real, riskPercent: real, entry: real, stop: real, cap: Option<real>): real {
    var riskPerUnit := Abs(entry - stop);
    if riskPerUnit <= 0.0 then 0.0
    else
      var quantity := balance * (riskPercent / 100.0) / riskPerUnit;
      var capped := if cap.Some? then Min(quantity, cap.value) else quantity;
      Max(capped, 0.0)
  }

  /** The size is the largest one that risks no more than the budget between entry and stop
      and stays within the cap: it meets both bounds, and any larger size breaks one. */
  lemma PositionSizeIsLargestWithinBudget(balance: real, riskPercent: real, entry: real, stop: real,
                                          cap: Option<real>, larger: real)
    requires balance >= 0.0 && riskPercent >= 0.0 && entry != stop && (cap.Some? ==> cap.value >= 0.0)
    ensures var size := PositionSize(balance, riskPercent, entry, stop, cap);
            && size >= 0.0
            && size * Abs(entry - stop) <= balance * (riskPercent / 100.0)
            && (cap.Some? ==> size <= cap.value)
            && (larger > size ==>
                  larger * Abs(entry - stop) > balance * (riskPercent / 100.0) || (cap.Some? && larger > cap.value))
  {
    var unit := Abs(entry - stop);
    var budget := balance * (riskPercent / 100.0);
    assert budget >= 0.0;
    DivOrder(budget, unit, 0.0);
    DivOrder(budget, unit, PositionSize(balance, riskPercent, entry, stop, cap));
    DivOrder(budget, unit, larger);
  }

  function QuantityOf(limits: Limits, p: Proposal): real {
    if p.proposedQuantity.Some? then p.proposedQuantity.value
    else PositionSize(p.accountBalance, limits.riskPerTradePct, p.entry, p.stop, limits.maxPositionSize)
  }

  function Notional(limits: Limits, p: Proposal): real {
    QuantityOf(limits, p) * p.entry
  }

  /** A stop below the entry is a long. */
  function SignedNotional(limits: Limits, p: Proposal): real {
    if p.stop < p.entry then Notional(limits, p) else -Notional(limits, p)
  }

  function PctOf(amount: real, balance: real): real
    requires balance > 0.0
  {
    amount / balance * 100.0
  }

  // ----------------------------------------------------- what approval means, as one formula

  predicate GeneralChecksPass(limits: Limits, p: Proposal) {
    && p.entryDeviationPct <= limits.maxEntryDeviationPct
    && p.liquidityAcceptable != Some(false)
    && p.dataAgeSeconds.Some? && p.dataAgeSeconds.value <= limits.maxStalenessSeconds
    && p.brokerHealthy
    && p.repeatedRejections < limits.maxRepeatedRejections
    && p.priceJumpPct <= limits.maxPriceJumpPct
  }

  predicate ExposurePasses(limits: Limits, p: Proposal) {
    p.accountBalance > 0.0 &&
    PctOf(p.currentExposure + Notional(limits, p), p.accountBalance) <= limits.maxExposurePct
  }

  predicate CorrelatedPasses(limits: Limits, p: Proposal) {
    p.accountBalance > 0.0 &&
    PctOf(Abs(p.correlatedExposure + SignedNotional(limits, p)), p.accountBalance) <= limits.maxCorrelatedExposurePct
  }

  predicate LossPasses(pnl: real, balance: real, limit: real) {
    balance > 0.0 && PctOf(Max(-pnl, 0.0), balance) < limit
  }

  predicate AllocationPasses(limits: Limits, p: Proposal) {
    p.accountBalance > 0.0 &&
    PctOf(p.strategyAllocation + Notional(limits, p), p.accountBalance) <= limits.maxStrategyAllocationPct
  }

  predicate EntryChecksPass(limits: Limits, p: Proposal) {
    && LossPasses(p.dailyPnl, p.accountBalance, limits.maxDailyLossPct)
    && LossPasses(p.weeklyPnl, p.accountBalance, limits.maxWeeklyLossPct)
    && ExposurePasses(limits, p)
    && AllocationPasses(limits, p)
    && CorrelatedPasses(limits, p)
    && p.openPositions < limits.maxOpenPositions
    && p.tradesToday < limits.maxTradesPerDay
  }

  /** An entry must clear everything; an order that only reduces is excused the limits on
      taking risk and nothing else; a blocked account or a zero stop distance refuses all. */
  predicate Approves(limits: Limits, blocked: bool, p: Proposal) {
    && !blocked
    && p.entry != p.stop
    && GeneralChecksPass(limits, p)
    && (p.isReducing || EntryChecksPass(limits, p))
  }

  predicate AllPassed(checks: seq<Check>) {
    forall c :: c in checks ==> c.passed
  }

  lemma AllPassedAppend(checks: seq<Check>, c: Check)
    ensures AllPassed(checks + [c]) <==> AllPassed(checks) && c.passed
  {
    if AllPassed(checks + [c]) {
      assert c in checks + [c];
      forall d | d in checks ensures d.passed {
        assert d in checks + [c];
      }
    }
  }

  method Record(checks: seq<Check>, name: CheckName, passed: bool) returns (extended: seq<Check>)
    ensures extended == checks + [Check(name, passed)]
    ensures AllPassed(extended) <==> AllPassed(checks) && passed
  {
    extended := checks + [Check(name, passed)];
    AllPassedAppend(checks, Check(name, passed));
  }

  method LossCheck(checks: seq<Check>, name: CheckName, pnl: real, balance: real, limit: real)
    returns (extended: seq<Check>)
    requires balance > 0.0
    ensures extended == checks + [Check(name, LossPasses(pnl, balance, limit))]
    ensures AllPassed(extended) <==> AllPassed(checks) && LossPasses(pnl, balance, limit)
  {
    extended := Record(checks, name, PctOf(Max(-pnl, 0.0), balance) < limit);
  }

  method SizeChecks(limits: Limits, p: Proposal, notional: real, sofar: seq<Check>) returns (checks: seq<Check>)
    requires p.accountBalance > 0.0 && notional == Notional(limits, p)
    ensures sofar <= checks
    ensures AllPassed(checks) <==>
            AllPassed(sofar) && ExposurePasses(limits, p) && AllocationPasses(limits, p) && CorrelatedPasses(limits, p)
  {
    var exposure := PctOf(p.currentExposure + notional, p.accountBalance) <= limits.maxExposurePct;
    checks := Record(sofar, ExposureLimit, exposure);
    var allocation := PctOf(p.strategyAllocation + notional, p.accountBalance) <= limits.maxStrategyAllocationPct;
    checks := Record(checks, StrategyAllocationLimit, allocation);
    var signed := if p.stop < p.entry then notional else -notional;
    var correlated := PctOf(Abs(p.correlatedExposure + signed), p.accountBalance) <= limits.maxCorrelatedExposurePct;
    checks := Record(checks, CorrelatedExposureLimit, correlated);
  }

  method EntryChecks(limits: Limits, p: Proposal, quantity: real, sofar: seq<Check>) returns (checks: seq<Check>)
    requires quantity == QuantityOf(limits, p)
    ensures sofar <= checks
    ensures AllPassed(checks) <==> AllPassed(sofar) && EntryChecksPass(limits, p)
  {
    checks := sofar;
    if p.accountBalance <= 0.0 {
      checks := Record(checks, AccountFunded, false);
    } else {
      checks := LossCheck(checks, DailyLossLimit, p.dailyPnl, p.accountBalance, limits.maxDailyLossPct);
      checks := LossCheck(checks, WeeklyLossLimit, p.weeklyPnl, p.accountBalance, limits.maxWeeklyLossPct);
      checks := SizeChecks(limits, p, quantity * p.entry, checks);
    }
    checks := Record(checks, MaxOpenPositions, p.openPositions < limits.maxOpenPositions);
    checks := Record(checks, MaxTradesPerDay, p.tradesToday < limits.maxTradesPerDay);
  }

  method GeneralChecks(limits: Limits, p: Proposal, sofar: seq<Check>) returns (checks: seq<Check>)
    ensures sofar <= checks
    ensures AllPassed(checks) && p.entryDeviationPct <= limits.maxEntryDeviationPct
       <==> AllPassed(sofar) && GeneralChecksPass(limits, p)
  {
    checks := sofar;
    if p.liquidityAcceptable.Some? {
      checks := Record(checks, LiquidityAcceptable, p.liquidityAcceptable.value);
    }
    checks := Record(checks, MarketDataFresh,
                     p.dataAgeSeconds.Some? && p.dataAgeSeconds.value <= limits.maxStalenessSeconds);
    checks := Record(checks, BrokerHealthy, p.brokerHealthy);
    checks := Record(checks, NoRepeatedRejections, p.repeatedRejections < limits.maxRepeatedRejections);
    checks := Record(checks, NoAbnormalPriceJump, p.priceJumpPct <= limits.maxPriceJumpPct);
  }

  /** `RiskEngine.evaluate`: the verdict is exactly `Approves`, and it is "approve" exactly
      when every check recorded for the audit row passed. */
  method Evaluate(limits: Limits, blocked: bool, p: Proposal) returns (d: Decision)
    ensures d.approved <==> Approves(limits, blocked, p)
    ensures d.approved <==> AllPassed(d.checks)
    ensures d.checks != []
  {
    var checks := Record([], KillSwitch, !blocked);
    if blocked {
      return Decision(false, checks);
    }
    var riskPerUnit := Abs(p.entry - p.stop);
    checks := Record(checks, ValidStopDistance, riskPerUnit > 0.0);
    if riskPerUnit <= 0.0 {
      return Decision(false, checks);
    }
    checks := Record(checks, EntryMatchesMarket, p.entryDeviationPct <= limits.maxEntryDeviationPct);
    var quantity := QuantityOf(limits, p);
    if !p.isReducing {
      checks := EntryChecks(limits, p, quantity, checks);
    }
    checks := GeneralChecks(limits, p, checks);
    d := Decision(AllPassed(checks), checks);
  }

  /** What an approved entry is known to leave behind: a funded account whose gross exposure,
      the new notional included, is within its limit. */
  lemma ApprovedEntryWithinExposure(limits: Limits, p: Proposal)
    requires Approves(limits, false, p) && !p.isReducing
    ensures p.accountBalance > 0.0
    ensures p.currentExposure + Notional(limits, p) <= p.accountBalance * limits.maxExposurePct / 100.0
  {
    var x := p.currentExposure + Notional(limits, p);
    assert x / p.accountBalance <= limits.maxExposurePct / 100.0;
    DivOrder(x, p.accountBalance, limits.maxExposurePct / 100.0);
  }

  lemma NotionalIgnoresRejections(limits: Limits, p: Proposal, some: int, other: int)
    ensures Notional(limits, p.(repeatedRejections := some)) == Notional(limits, p.(repeatedRejections := other))
    ensures SignedNotional(limits, p.(repeatedRejections := some))
              == SignedNotional(limits, p.(repeatedRejections := other))
  {
    assert QuantityOf(limits, p.(repeatedRejections := some)) == QuantityOf(limits, p.(repeatedRejections := other));
  }

  /** The run of broker rejections is read by one check only, and not by those on taking risk. */
  lemma EntryChecksIgnoreRejections(limits: Limits, p: Proposal, some: int, other: int)
    ensures EntryChecksPass(limits, p.(repeatedRejections := some)) <==>
              EntryChecksPass(limits, p.(repeatedRejections := other))
  {
    NotionalIgnoresRejections(limits, p, some, other);
    var a, b := p.(repeatedRejections := some), p.(repeatedRejections := other);
    assert a.currentExposure + Notional(limits, a) == b.currentExposure + Notional(limits, b);
    assert a.strategyAllocation + Notional(limits, a) == b.strategyAllocation + Notional(limits, b);
    assert Abs(a.correlatedExposure + SignedNotional(limits, a))
             == Abs(b.correlatedExposure + SignedNotional(limits, b));
  }
}
