/**
The simulated broker (`MockBroker`): quotes that act as its tape, stop orders that rest
until the tape crosses them, fills that net into holdings and move cash.

Its random draws are an argument (`Luck`); a partial fill may be any positive quantity.
*/
module Broker {
  import opened Common
  import opened Netting

  datatype Request = Request(
    symbol: string,
    direction: Direction,
    orderType: OrderType,
    quantity: Quantity,
    price: Option<real>,
    triggerPrice: Option<real>)

  datatype BrokerOrder = BrokerOrder(
    symbol: string,
    direction: Direction,
    quantity: real,
    status: OrderStatus,
    filledQuantity: real,
    averageFillPrice: Option<real>)

  /** What a broker answers a placement with. */
  datatype Answer = Answer(
    brokerOrderId: nat,
    status: OrderStatus,
    filledQuantity: real,
    averageFillPrice: Option<real>,
    rejectionReason: Option<string>)

  datatype Luck = Straight | Refused | Partial(quantity: Quantity)

  datatype BrokerState = BrokerState(
    balance: real,
    slippagePct: real,
    orders: map<nat, BrokerOrder>,
    resting: map<nat, Request>,
    holdings: map<string, Holding>,
    quotes: map<string, real>,
    nextId: nat)

  function OrderOf(r: Request, status: OrderStatus, filled: real, price: Option<real>): BrokerOrder {
    BrokerOrder(r.symbol, r.direction, r.quantity, status, filled, price)
  }

  /** `_apply_fill_to_position`. */
  function FillAtBroker(s: BrokerState, symbol: string, f: Fill): BrokerState {
    var v := VaultApply(Vault(s.holdings, s.balance), Execution(symbol, f));
    s.(holdings := v.holdings, balance := v.cash)
  }

  /** Whether the tape at `ltp` is through a resting stop's trigger. */
  predicate Crossed(r: Request, ltp: real) {
    r.triggerPrice.Some? &&
    if r.direction.SHORT? then ltp <= r.triggerPrice.value else ltp >= r.triggerPrice.value
  }

  predicate Fires(s: BrokerState, id: nat, symbol: string, ltp: real) {
    id in s.resting && s.resting[id].symbol == symbol && Crossed(s.resting[id], ltp)
  }

  /** An SL fills at its own limit when it has a usable one; an SL_M at the tape. */
  function StopFillPrice(r: Request, ltp: real): real {
    if r.orderType.SL? && r.price.Some? && r.price.value > 0.0 then r.price.value else ltp
  }

  function FireOne(s: BrokerState, id: nat, ltp: real): BrokerState
    requires id in s.resting
  {
    var r := s.resting[id];
    var price := StopFillPrice(r, ltp);
    FillAtBroker(
      s.(resting := s.resting - {id}, orders := s.orders[id := OrderOf(r, FILLED, r.quantity, Some(price))]),
      r.symbol, Fill(r.direction, r.quantity, price))
  }

  /** `_trigger_resting_orders`: resting orders are visited in the order they were placed,
      which is the order of their ids. */
  function FireFrom(s: BrokerState, id: nat, symbol: string, ltp: real): BrokerState
    decreases s.nextId - id
  {
    if id >= s.nextId then s
    else FireFrom(if Fires(s, id, symbol, ltp) then FireOne(s, id, ltp) else s, id + 1, symbol, ltp)
  }

  function Trigger(s: BrokerState, symbol: string, ltp: real): BrokerState {
    FireFrom(s, 0, symbol, ltp)
  }

  /** `set_quote`; only a market print gives resting orders a chance to fire. */
  function SetQuote(s: BrokerState, symbol: string, ltp: real, isMarketPrint: bool): BrokerState {
    var quoted := s.(quotes := s.quotes[symbol := ltp]);
    if isMarketPrint then Trigger(quoted, symbol, ltp) else quoted
  }

  /** `_resolve_fill_price`: no usable price means no fill. */
  function ResolveFillPrice(s: BrokerState, r: Request): Option<real> {
    var base :=
      if r.orderType.MARKET? && r.symbol in s.quotes then Some(s.quotes[r.symbol]) else r.price;
    if base.None? || base.value <= 0.0 then
      None
    else
      Some(Slipped(base.value, s.slippagePct, r.direction))
  }

  /** A buy fills above the quote and a sell below it, by the slippage. */
  function Slipped(base: real, slippagePct: real, direction: Direction): real {
    var slippage := base * (slippagePct / 100.0);
    if direction.LONG? then base + slippage else base - slippage
  }

  predicate IsStop(r: Request) {
    (r.orderType.SL? || r.orderType.SL_M?) && r.triggerPrice.Some?
  }

  function Rejected(s: BrokerState, r: Request, reason: string): (BrokerState, Answer) {
    (s.(orders := s.orders[s.nextId := OrderOf(r, REJECTED, 0.0, None)], nextId := s.nextId + 1),
     Answer(s.nextId, REJECTED, 0.0, None, Some(reason)))
  }

  function Rested(s: BrokerState, r: Request): BrokerState {
    s.(orders := s.orders[s.nextId := OrderOf(r, ACKNOWLEDGED, 0.0, None)],
       resting := s.resting[s.nextId := r],
       nextId := s.nextId + 1)
  }

  lemma {:induction false} FireKeepsOrders(s: BrokerState, id: nat, symbol: string, ltp: real)
    ensures forall k :: k in s.orders ==> k in FireFrom(s, id, symbol, ltp).orders
    ensures FireFrom(s, id, symbol, ltp).nextId == s.nextId
    ensures FireFrom(s, id, symbol, ltp).quotes == s.quotes
    decreases s.nextId - id
  {
    if id < s.nextId {
      FireKeepsOrders(if Fires(s, id, symbol, ltp) then FireOne(s, id, ltp) else s, id + 1, symbol, ltp);
    }
  }

  function PlaceStop(s: BrokerState, r: Request): (BrokerState, Answer) {
    var rested := Rested(s, r);
    var after := if r.symbol in s.quotes then Trigger(rested, r.symbol, s.quotes[r.symbol]) else rested;
    FireKeepsOrders(rested, 0, r.symbol, if r.symbol in s.quotes then s.quotes[r.symbol] else 0.0);
    var placed := after.orders[s.nextId];
    (after, Answer(s.nextId, placed.status, placed.filledQuantity, placed.averageFillPrice, None))
  }

  function FillNow(s: BrokerState, r: Request, filled: Quantity, price: real): (BrokerState, Answer) {
    var status := if filled >= r.quantity then FILLED else PARTIALLY_FILLED;
    var booked := s.(orders := s.orders[s.nextId := OrderOf(r, status, filled, Some(price))], nextId := s.nextId + 1);
    (FillAtBroker(booked, r.symbol, Fill(r.direction, filled, price)),
     Answer(s.nextId, status, filled, Some(price), None))
  }

  /** `place_order`. */
  function Place(s: BrokerState, r: Request, luck: Luck): (BrokerState, Answer) {
    if luck.Refused? then
      Rejected(s, r, "Simulated rejection")
    else if IsStop(r) then
      PlaceStop(s, r)
    else
      match ResolveFillPrice(s, r)
      case None => Rejected(s, r, "No usable price")
      case Some(price) => FillNow(s, r, if luck.Partial? then luck.quantity else r.quantity, price)
  }

  datatype BrokerError = UnknownBrokerOrder

  /** `cancel_order`: a terminal order is reported as it stands, never un-filled. */
  function Cancel(s: BrokerState, id: nat): Result<BrokerState, BrokerError> {
    if id !in s.orders then
      Err(UnknownBrokerOrder)
    else if s.orders[id].status in {FILLED, CANCELLED, REJECTED} then
      Ok(s)
    else
      Ok(s.(resting := s.resting - {id}, orders := s.orders[id := s.orders[id].(status := CANCELLED)]))
  }

  // ------------------------------------------------------------------- what is kept

  /** Ids are issued in order, holdings are never flat, and what rests is exactly what is
      acknowledged: an order waits at the broker if and only if it can still fire. */
  ghost predicate WellFormed(s: BrokerState) {
    && (forall id :: id in s.orders ==> id < s.nextId)
    && (forall symbol :: symbol in s.holdings ==> s.holdings[symbol].quantity != 0.0)
    && (forall id :: id in s.resting ==> id in s.orders && IsStop(s.resting[id]))
    && (forall id :: id in s.orders ==> (s.orders[id].status == ACKNOWLEDGED <==> id in s.resting))
  }

  lemma FillKeepsWellFormed(s: BrokerState, symbol: string, f: Fill)
    requires WellFormed(s)
    ensures WellFormed(FillAtBroker(s, symbol, f))
  {}

  lemma FireOneKeepsWellFormed(s: BrokerState, id: nat, ltp: real)
    requires WellFormed(s) && id in s.resting
    ensures WellFormed(FireOne(s, id, ltp))
  {
    var r := s.resting[id];
    var price := StopFillPrice(r, ltp);
    FillKeepsWellFormed(
      s.(resting := s.resting - {id}, orders := s.orders[id := OrderOf(r, FILLED, r.quantity, Some(price))]),
      r.symbol, Fill(r.direction, r.quantity, price));
  }

  lemma {:induction false} FireKeepsWellFormed(s: BrokerState, id: nat, symbol: string, ltp: real)
    requires WellFormed(s)
    ensures WellFormed(FireFrom(s, id, symbol, ltp))
    decreases s.nextId - id
  {
    if id < s.nextId {
      if Fires(s, id, symbol, ltp) {
        FireOneKeepsWellFormed(s, id, ltp);
      }
      FireKeepsWellFormed(if Fires(s, id, symbol, ltp) then FireOne(s, id, ltp) else s, id + 1, symbol, ltp);
    }
  }

  /** After a market print no order the print went through is still resting. */
  lemma {:induction false} NothingCrossedStillRests(s: BrokerState, id: nat, symbol: string, ltp: real, k: nat)
    requires WellFormed(s) && id <= k
    ensures !Fires(FireFrom(s, id, symbol, ltp), k, symbol, ltp)
    decreases s.nextId - id
  {
    if id < s.nextId {
      var next := if Fires(s, id, symbol, ltp) then FireOne(s, id, ltp) else s;
      if Fires(s, id, symbol, ltp) {
        FireOneKeepsWellFormed(s, id, ltp);
      }
      if id < k {
        NothingCrossedStillRests(next, id + 1, symbol, ltp, k);
      } else {
        FireOnlyRemoves(next, id + 1, symbol, ltp);
      }
    }
  }

  lemma {:induction false} FireOnlyRemoves(s: BrokerState, id: nat, symbol: string, ltp: real)
    ensures forall k :: k in FireFrom(s, id, symbol, ltp).resting ==>
              k in s.resting && FireFrom(s, id, symbol, ltp).resting[k] == s.resting[k]
    decreases s.nextId - id
  {
    if id < s.nextId {
      FireOnlyRemoves(if Fires(s, id, symbol, ltp) then FireOne(s, id, ltp) else s, id + 1, symbol, ltp);
    }
  }

  lemma {:induction false} FireLeavesEarlier(s: BrokerState, id: nat, symbol: string, ltp: real, k: nat)
    requires k < id && k in s.orders
    ensures k in FireFrom(s, id, symbol, ltp).orders && FireFrom(s, id, symbol, ltp).orders[k] == s.orders[k]
    decreases s.nextId - id
  {
    if id < s.nextId {
      FireLeavesEarlier(if Fires(s, id, symbol, ltp) then FireOne(s, id, ltp) else s, id + 1, symbol, ltp, k);
    }
  }

  /** A limit a stop can fill at. */
  predicate UsableLimit(r: Request) {
    r.orderType.SL? && r.price.Some? && r.price.value > 0.0
  }

  /** At the trigger or worse: a sell no higher, a buy no lower. */
  predicate NoBetterThanTrigger(r: Request, price: real)
    requires r.triggerPrice.Some?
  {
    if r.direction.SHORT? then price <= r.triggerPrice.value else price >= r.triggerPrice.value
  }

  /** Every stop a print goes through is filled whole by it, and is filled at its trigger or
      worse exactly when it has no usable limit, or one no better than its trigger. */
  lemma {:induction false} FillAgainstTheTrigger(s: BrokerState, id: nat, symbol: string, ltp: real, k: nat)
    requires WellFormed(s) && id <= k && Fires(s, k, symbol, ltp)
    ensures var r := s.resting[k];
            && k in FireFrom(s, id, symbol, ltp).orders
            && var o := FireFrom(s, id, symbol, ltp).orders[k];
               && o.status == FILLED && o.filledQuantity == r.quantity && o.averageFillPrice.Some?
               && (NoBetterThanTrigger(r, o.averageFillPrice.value)
                   <==> (UsableLimit(r) ==> NoBetterThanTrigger(r, r.price.value)))
    decreases s.nextId - id
  {
    var next := if Fires(s, id, symbol, ltp) then FireOne(s, id, ltp) else s;
    if id < k {
      if Fires(s, id, symbol, ltp) {
        FireOneKeepsWellFormed(s, id, ltp);
      }
      FillAgainstTheTrigger(next, id + 1, symbol, ltp, k);
    } else {
      FireLeavesEarlier(next, id + 1, symbol, ltp, k);
    }
  }

  const NEW_BROKER := BrokerState(100000.0, 0.0, map[], map[], map[], map[], 0)

  /** The second case happens: a sell stop at 95 with a limit of 100 waits, the tape prints 94,
      and it is filled at 100. */
  lemma LimitBeatsItsTrigger()
    ensures var r := Request("A", SHORT, SL, 10.0, Some(100.0), Some(95.0));
            var waiting := Place(NEW_BROKER, r, Straight).0;
            var after := SetQuote(waiting, "A", 94.0, true);
            && waiting.resting == map[0 := r]
            && 0 in after.orders && after.orders[0].averageFillPrice == Some(100.0)
            && !NoBetterThanTrigger(r, 100.0)
  {
    var r := Request("A", SHORT, SL, 10.0, Some(100.0), Some(95.0));
    var waiting := Place(NEW_BROKER, r, Straight).0;
    assert waiting == Rested(NEW_BROKER, r);
    var quoted := waiting.(quotes := waiting.quotes["A" := 94.0]);
    assert Fires(quoted, 0, "A", 94.0);
    FireLeavesEarlier(FireOne(quoted, 0, 94.0), 1, "A", 94.0, 0);
  }

  /** A tape that crosses nothing changes nothing: fills come from nowhere else. */
  lemma {:induction false} QuietTape(s: BrokerState, id: nat, symbol: string, ltp: real)
    requires forall k :: id <= k ==> !Fires(s, k, symbol, ltp)
    ensures FireFrom(s, id, symbol, ltp) == s
    decreases s.nextId - id
  {
    if id < s.nextId {
      QuietTape(s, id + 1, symbol, ltp);
    }
  }

  lemma BookedKeepsWellFormed(s: BrokerState, o: BrokerOrder)
    requires WellFormed(s) && o.status != ACKNOWLEDGED
    ensures WellFormed(s.(orders := s.orders[s.nextId := o], nextId := s.nextId + 1))
  {}

  lemma RestedKeepsWellFormed(s: BrokerState, r: Request)
    requires WellFormed(s) && IsStop(r)
    ensures WellFormed(Rested(s, r))
  {}

  lemma FillNowKeepsWellFormed(s: BrokerState, r: Request, filled: Quantity, price: real)
    requires WellFormed(s)
    ensures WellFormed(FillNow(s, r, filled, price).0)
  {
    var status := if filled >= r.quantity then FILLED else PARTIALLY_FILLED;
    var o := OrderOf(r, status, filled, Some(price));
    BookedKeepsWellFormed(s, o);
    FillKeepsWellFormed(s.(orders := s.orders[s.nextId := o], nextId := s.nextId + 1),
                        r.symbol, Fill(r.direction, filled, price));
  }

  /** Placing, quoting and cancelling keep the broker well formed. */
  lemma PlaceKeepsWellFormed(s: BrokerState, r: Request, luck: Luck)
    requires WellFormed(s)
    ensures WellFormed(Place(s, r, luck).0)
  {
    if luck.Refused? || (!IsStop(r) && ResolveFillPrice(s, r).None?) {
      BookedKeepsWellFormed(s, OrderOf(r, REJECTED, 0.0, None));
    } else if IsStop(r) {
      RestedKeepsWellFormed(s, r);
      if r.symbol in s.quotes {
        FireKeepsWellFormed(Rested(s, r), 0, r.symbol, s.quotes[r.symbol]);
      }
    } else {
      FillNowKeepsWellFormed(s, r, if luck.Partial? then luck.quantity else r.quantity, ResolveFillPrice(s, r).value);
    }
  }

  /** An order that is not a stop is answered at once: one new record under the next id, which
      the answer repeats, and either nothing else changes or the reported fill is booked. */
  lemma PlacedAtOnce(s: BrokerState, r: Request, luck: Luck)
    requires !IsStop(r)
    ensures var (s', a) := Place(s, r, luck);
            && a.brokerOrderId == s.nextId && s'.nextId == s.nextId + 1
            && s'.resting == s.resting && s'.quotes == s.quotes
            && s'.orders == s.orders[s.nextId := OrderOf(r, a.status, a.filledQuantity, a.averageFillPrice)]
            && (a.status == REJECTED ==>
                  a.filledQuantity == 0.0 && s'.holdings == s.holdings && s'.balance == s.balance)
            && (a.status != REJECTED ==>
                  && a.filledQuantity > 0.0 && a.averageFillPrice.Some?
                  && a.status == (if a.filledQuantity >= r.quantity then FILLED else PARTIALLY_FILLED)
                  && Vault(s'.holdings, s'.balance)
                     == VaultApply(Vault(s.holdings, s.balance),
                                   Execution(r.symbol, Fill(r.direction, a.filledQuantity, a.averageFillPrice.value))))
  {}

  lemma CancelKeepsWellFormed(s: BrokerState, id: nat)
    requires WellFormed(s) && Cancel(s, id).Ok?
    ensures WellFormed(Cancel(s, id).value)
    ensures id !in Cancel(s, id).value.resting
    ensures Cancel(s, id).value.holdings == s.holdings && Cancel(s, id).value.balance == s.balance
  {}

  lemma SetQuoteKeepsWellFormed(s: BrokerState, symbol: string, ltp: real, isMarketPrint: bool)
    requires WellFormed(s)
    ensures WellFormed(SetQuote(s, symbol, ltp, isMarketPrint))
    ensures isMarketPrint ==> forall k :: !Fires(SetQuote(s, symbol, ltp, isMarketPrint), k, symbol, ltp)
  {
    var quoted := s.(quotes := s.quotes[symbol := ltp]);
    if isMarketPrint {
      FireKeepsWellFormed(quoted, 0, symbol, ltp);
      forall k: nat ensures !Fires(SetQuote(s, symbol, ltp, true), k, symbol, ltp) {
        NothingCrossedStillRests(quoted, 0, symbol, ltp, k);
      }
    }
  }

  // ------------------------------------------------------------------ the mutable form

  class MockBroker {
    var balance: real
    var slippagePct: real
    var orders: map<nat, BrokerOrder>
    var resting: map<nat, Request>
    var holdings: map<string, Holding>
    var quotes: map<string, real>
    var nextId: nat

    function State(): BrokerState
      reads this
    {
      BrokerState(balance, slippagePct, orders, resting, holdings, quotes, nextId)
    }

    constructor (startingBalance: real, slippagePct: real)
      ensures State() == BrokerState(startingBalance, slippagePct, map[], map[], map[], map[], 0)
    {
      balance, this.slippagePct := startingBalance, slippagePct;
      orders, resting, holdings, quotes, nextId := map[], map[], map[], map[], 0;
    }

    method ApplyFillToPosition(symbol: string, direction: Direction, quantity: Quantity, price: real)
      modifies this
      ensures State() == FillAtBroker(old(State()), symbol, Fill(direction, quantity, price))
    {
      var fill := Fill(direction, quantity, price);
      var signed := fill.Signed();
      if symbol !in holdings {
        holdings := holdings[symbol := Holding(signed, price)];
        return;
      }
      var position := holdings[symbol];
      var newQuantity := position.quantity + signed;
      if (position.quantity > 0.0) == (signed > 0.0) {
        var cost := position.averagePrice * position.quantity + price * signed;
        var merged := Holding(newQuantity, cost / newQuantity);
        assert merged == Averaged(position, signed, price);
        hide Averaged;
        holdings := holdings[symbol := merged];
        return;
      }
      var closed := Min(Abs(signed), Abs(position.quantity));
      var sign := if position.quantity > 0.0 then 1.0 else -1.0;
      balance := balance + (price - position.averagePrice) * closed * sign;
      var flipped := newQuantity != 0.0 && (newQuantity > 0.0) != (position.quantity > 0.0);
      if newQuantity == 0.0 {
        holdings := holdings - {symbol};
      } else {
        holdings := holdings[symbol := Holding(newQuantity, if flipped then price else position.averagePrice)];
      }
    }

    method TriggerRestingOrders(symbol: string, ltp: real)
      modifies this
      ensures State() == Trigger(old(State()), symbol, ltp)
    {
      var id := 0;
      while id < nextId
        invariant nextId == old(nextId)
        invariant FireFrom(State(), id, symbol, ltp) == Trigger(old(State()), symbol, ltp)
      {
        if id in resting && resting[id].symbol == symbol && Crossed(resting[id], ltp) {
          var request := resting[id];
          var price := StopFillPrice(request, ltp);
          resting := resting - {id};
          orders := orders[id := OrderOf(request, FILLED, request.quantity, Some(price))];
          ApplyFillToPosition(request.symbol, request.direction, request.quantity, price);
        }
        id := id + 1;
      }
    }

    method Quote(symbol: string, ltp: real, isMarketPrint: bool)
      modifies this
      ensures State() == SetQuote(old(State()), symbol, ltp, isMarketPrint)
    {
      quotes := quotes[symbol := ltp];
      if isMarketPrint {
        TriggerRestingOrders(symbol, ltp);
      }
    }

    method PlaceOrder(r: Request, luck: Luck) returns (answer: Answer)
      modifies this
      ensures (State(), answer) == Place(old(State()), r, luck)
    {
      var id := nextId;
      if luck.Refused? {
        orders := orders[id := OrderOf(r, REJECTED, 0.0, None)];
        nextId := nextId + 1;
        return Answer(id, REJECTED, 0.0, None, Some("Simulated rejection"));
      }
      if IsStop(r) {
        FireKeepsOrders(Rested(State(), r), 0, r.symbol, if r.symbol in quotes then quotes[r.symbol] else 0.0);
        orders := orders[id := OrderOf(r, ACKNOWLEDGED, 0.0, None)];
        resting := resting[id := r];
        nextId := nextId + 1;
        if r.symbol in quotes {
          TriggerRestingOrders(r.symbol, quotes[r.symbol]);
        }
        var placed := orders[id];
        return Answer(id, placed.status, placed.filledQuantity, placed.averageFillPrice, None);
      }
      var price := ResolveFillPrice(State(), r);
      nextId := nextId + 1;
      if price.None? {
        orders := orders[id := OrderOf(r, REJECTED, 0.0, None)];
        return Answer(id, REJECTED, 0.0, None, Some("No usable price"));
      }
      var filled := if luck.Partial? then luck.quantity else r.quantity;
      var status := if filled >= r.quantity then FILLED else PARTIALLY_FILLED;
      orders := orders[id := OrderOf(r, status, filled, Some(price.value))];
      ApplyFillToPosition(r.symbol, r.direction, filled, price.value);
      answer := Answer(id, status, filled, Some(price.value), None);
    }

    method CancelOrder(id: nat) returns (r: Result<OrderStatus, BrokerError>)
      modifies this
      ensures match Cancel(old(State()), id)
              case Err(e) => r == Err(e) && State() == old(State())
              case Ok(s) => r == Ok(s.orders[id].status) && State() == s
    {
      if id !in orders {
        return Err(UnknownBrokerOrder);
      }
      if orders[id].status !in {FILLED, CANCELLED, REJECTED} {
        resting := resting - {id};
        orders := orders[id := orders[id].(status := CANCELLED)];
      }
      r := Ok(orders[id].status);
    }
  }
}
