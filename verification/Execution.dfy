/**
The execution engine: a risk-approved order driven through a broker, with the order state
machine and the position book updated from the broker's answer.

`Desk` is the whole trading stack on values. `Settle` takes any answer a broker may give
(including "rejected" and "never answered"); `Submit` is the engine on the simulated broker.
*/
module Execution {
  import opened Common
  import opened Netting
  import opened Positions
  import opened Orders
  import B = Broker

  datatype Desk = Desk(orders: OrderBook, book: Book, broker: B.BrokerState)

  datatype SubmitError = UnknownOrderId | NotApproved(status: OrderStatus)

  /** An answer that reports a fill also reports its price. */
  predicate Coherent(a: B.Answer) {
    a.filledQuantity > 0.0 ==> a.averageFillPrice.Some?
  }

  function KeyOf(o: OrderValue): PositionKey {
    PositionKey(o.accountId, o.symbol)
  }

  function RequestFor(o: OrderValue): B.Request
    requires o.quantity > 0.0
  {
    B.Request(o.symbol, o.direction, o.orderType, o.quantity, o.price, None)
  }

  function Reason(a: B.Answer, default: string): string {
    if a.rejectionReason.Some? && a.rejectionReason.value != "" then a.rejectionReason.value else default
  }

  /** One transition of one order; the table allows every one asked for below. */
  function Advance(o: OrderValue, to: OrderStatus, detail: string): OrderValue {
    if to in AllowedFrom(o.status) then Moved(o, to, detail) else o
  }

  /** The fill the broker reported, recorded on the order. */
  function Filled(o: OrderValue, a: B.Answer): OrderValue {
    var recorded := o.(filledQuantity := a.filledQuantity, averageFillPrice := a.averageFillPrice);
    if a.filledQuantity >= o.quantity then
      Advance(Advance(recorded, FILLED, "filled by broker"), MONITORING, "position open")
    else
      Advance(recorded, PARTIALLY_FILLED, "filled by broker")
  }

  /** Whatever the answer, the order keeps its identity. */
  lemma SettledIdentity(o: OrderValue, a: B.Answer)
    ensures Settled(o, a).id == o.id && Settled(o, a).key == o.key
  {}

  /** What `submit` makes of an order once the broker has answered. */
  function Settled(o: OrderValue, a: B.Answer): OrderValue {
    var named := o.(brokerOrderId := Some(a.brokerOrderId));
    if a.status == REJECTED then
      Advance(named, REJECTED, Reason(a, "rejected by broker"))
    else if a.status == FAILED then
      Advance(named, FAILED, Reason(a, "broker did not answer"))
    else
      var acknowledged := Advance(named, ACKNOWLEDGED, "broker acknowledged");
      if a.filledQuantity > 0.0 then Filled(acknowledged, a) else acknowledged
  }

  /** A fill reaches the position book only with an answer the broker stands by. */
  predicate MovesPosition(a: B.Answer) {
    a.status != REJECTED && a.status != FAILED && a.filledQuantity > 0.0
  }

  function SettledBook(book: Book, o: OrderValue, a: B.Answer): Book
    requires Coherent(a)
  {
    if MovesPosition(a) then
      FillBook(book, KeyOf(o), Fill(o.direction, a.filledQuantity, a.averageFillPrice.value))
    else
      book
  }

  function With(b: OrderBook, o: OrderValue): OrderBook {
    b.(orders := b.orders[o.id := o])
  }

  /** `submit` against the simulated broker. */
  function Submit(d: Desk, id: nat, luck: B.Luck): Result<Desk, SubmitError>
    requires id in d.orders.orders ==> d.orders.orders[id].quantity > 0.0 && d.orders.orders[id].id == id
  {
    if id !in d.orders.orders then
      Err(UnknownOrderId)
    else if d.orders.orders[id].status != RISK_APPROVED then
      Err(NotApproved(d.orders.orders[id].status))
    else
      var o := Advance(d.orders.orders[id], SUBMITTED, "sent to broker");
      var (broker, answer) := B.Place(d.broker, RequestFor(o), luck);
      PlaceIsCoherent(d.broker, RequestFor(o), luck);
      Ok(Desk(With(d.orders, Settled(o, answer)), SettledBook(d.book, o, answer), broker))
  }

  lemma PlaceIsCoherent(s: B.BrokerState, r: B.Request, luck: B.Luck)
    requires !B.IsStop(r)
    ensures Coherent(B.Place(s, r, luck).1)
    ensures B.Place(s, r, luck).1.status in {REJECTED, FILLED, PARTIALLY_FILLED}
  {}

  // ------------------------------------------------------------------- what is proved

  /** Where an order ends up for each kind of answer. No branch asks for a transition the
      table forbids, so `submit` never raises `IllegalTransitionError`. */
  lemma SettledOutcome(o: OrderValue, a: B.Answer)
    requires o.status == SUBMITTED && LegalHistory(o)
    ensures var o' := Settled(o, a);
            && LegalHistory(o') && o'.id == o.id && o'.key == o.key
            && o'.brokerOrderId == Some(a.brokerOrderId)
            && (!MovesPosition(a) ==> o'.filledQuantity == o.filledQuantity)
            && (MovesPosition(a) ==> o'.filledQuantity == a.filledQuantity && o'.averageFillPrice == a.averageFillPrice)
            && o'.status ==
                 if a.status == REJECTED || a.status == FAILED then a.status
                 else if a.filledQuantity <= 0.0 then ACKNOWLEDGED
                 else if a.filledQuantity >= o.quantity then MONITORING
                 else PARTIALLY_FILLED
  {
    var named := o.(brokerOrderId := Some(a.brokerOrderId));
    assert LegalHistory(named);
    if a.status == REJECTED {
      MovedKeepsHistory(named, REJECTED, Reason(a, "rejected by broker"));
    } else if a.status == FAILED {
      MovedKeepsHistory(named, FAILED, Reason(a, "broker did not answer"));
    } else {
      MovedKeepsHistory(named, ACKNOWLEDGED, "broker acknowledged");
      if a.filledQuantity > 0.0 {
        FilledKeepsHistory(Moved(named, ACKNOWLEDGED, "broker acknowledged"), a);
      }
    }
  }

  lemma FilledKeepsHistory(o: OrderValue, a: B.Answer)
    requires o.status == ACKNOWLEDGED && LegalHistory(o)
    ensures LegalHistory(Filled(o, a))
  {
    var recorded := o.(filledQuantity := a.filledQuantity, averageFillPrice := a.averageFillPrice);
    assert LegalHistory(recorded);
    if a.filledQuantity >= o.quantity {
      MovedKeepsHistory(recorded, FILLED, "filled by broker");
      MovedKeepsHistory(Moved(recorded, FILLED, "filled by broker"), MONITORING, "position open");
    } else {
      MovedKeepsHistory(recorded, PARTIALLY_FILLED, "filled by broker");
    }
  }

  /** `submit` keeps the order book one key to one order with legal logs, and keeps the broker's
      records well formed beside it. */
  lemma SubmitKeepsWellFormed(d: Desk, id: nat, luck: B.Luck)
    requires WellFormed(d.orders) && B.WellFormed(d.broker)
    requires id in d.orders.orders && d.orders.orders[id].quantity > 0.0
    requires d.orders.orders[id].status == RISK_APPROVED
    ensures var d' := Submit(d, id, luck).value; WellFormed(d'.orders) && B.WellFormed(d'.broker)
  {
    var o := Advance(d.orders.orders[id], SUBMITTED, "sent to broker");
    MovedKeepsHistory(d.orders.orders[id], SUBMITTED, "sent to broker");
    var answer := B.Place(d.broker, RequestFor(o), luck).1;
    SettledOutcome(o, answer);
    ReplaceKeepsWellFormed(d.orders, id, Settled(o, answer));
    B.PlaceKeepsWellFormed(d.broker, RequestFor(o), luck);
  }

  /** Both books after a market order: untouched without a usable price, else netted alike. */
  function Traded(book: Book, v: Vault, o: OrderValue, price: Option<real>): (Book, Vault)
    requires o.quantity > 0.0
  {
    match price
    case None => (book, v)
    case Some(p) =>
      var f := Fill(o.direction, o.quantity, p);
      (FillBook(book, KeyOf(o), f), VaultApply(v, Execution(o.symbol, f)))
  }

  function VaultOf(broker: B.BrokerState): Vault {
    Vault(broker.holdings, broker.balance)
  }

  /** An approved market order on a quoted symbol. */
  predicate ReadyAtMarket(d: Desk, id: nat) {
    && id in d.orders.orders && d.orders.orders[id].id == id
    && d.orders.orders[id].status == RISK_APPROVED && d.orders.orders[id].orderType == MARKET
    && d.orders.orders[id].quantity > 0.0 && d.orders.orders[id].symbol in d.broker.quotes
  }

  /** Sent with no adverse draw, it trades the same on both sides, and nothing else moves. */
  lemma MarketOrderEffect(d: Desk, id: nat)
    requires ReadyAtMarket(d, id)
    ensures Submit(d, id, B.Straight).Ok?
    ensures var o := d.orders.orders[id];
            var d' := Submit(d, id, B.Straight).value;
            && d'.orders.byKey == d.orders.byKey && id in d'.orders.orders
            && d'.broker.quotes == d.broker.quotes && d'.broker.resting == d.broker.resting
            && d'.broker.slippagePct == d.broker.slippagePct
            && (o.averageFillPrice.None? ==>
                  d'.orders.orders[id].averageFillPrice == B.ResolveFillPrice(d.broker, RequestFor(o)))
            && (d'.book, VaultOf(d'.broker))
                 == Traded(d.book, VaultOf(d.broker), o, B.ResolveFillPrice(d.broker, RequestFor(o)))
  {}

  // ------------------------------------------------------------------ the mutable form

  class ExecutionEngine {
    const broker: B.MockBroker
    const orderManager: OrderManager
    const positionManager: PositionManager

    constructor (broker: B.MockBroker, orderManager: OrderManager, positionManager: PositionManager)
      ensures this.broker == broker && this.orderManager == orderManager && this.positionManager == positionManager
    {
      this.broker, this.orderManager, this.positionManager := broker, orderManager, positionManager;
    }

    predicate Valid()
      reads orderManager
    {
      orderManager.Valid()
    }

    function State(): Desk
      reads broker, orderManager, positionManager
    {
      Desk(orderManager.Book(), positionManager.positions, broker.State())
    }

    /** A transition the table allows from the order's present status. */
    method Move(ghost start: OrderBook, order: OrderValue, to: OrderStatus, detail: string) returns (moved: OrderValue)
      requires Valid() && orderManager.Book() == With(start, order) && to in AllowedFrom(order.status)
      modifies orderManager
      ensures Valid() && orderManager.Book() == With(start, moved) && moved == Moved(order, to, detail)
    {
      var r := orderManager.TransitionTo(order.id, to, detail);
      moved := r.value;
      assert With(With(start, order), moved) == With(start, moved);
    }

    /** The fill the broker reported: recorded on the order, then netted into the book. */
    method BookFill(ghost start: OrderBook, order: OrderValue, a: B.Answer) returns (filled: OrderValue)
      requires Valid() && orderManager.Book() == With(start, order)
      requires order.status == ACKNOWLEDGED && a.filledQuantity > 0.0 && a.averageFillPrice.Some?
      modifies orderManager, positionManager
      ensures Valid() && orderManager.Book() == With(start, filled) && filled == Filled(order, a)
      ensures positionManager.positions == FillBook(old(positionManager.positions), KeyOf(order),
                                                    Fill(order.direction, a.filledQuantity, a.averageFillPrice.value))
    {
      orderManager.RecordFill(order.id, a.filledQuantity, a.averageFillPrice);
      filled := orderManager.orders[order.id];
      assert With(With(start, order), filled) == With(start, filled);
      var next := if a.filledQuantity >= order.quantity then FILLED else PARTIALLY_FILLED;
      filled := Move(start, filled, next, "filled by broker");
      positionManager.ApplyFill(PositionKey(order.accountId, order.symbol), order.direction,
                                a.filledQuantity, a.averageFillPrice.value);
      if next == FILLED {
        filled := Move(start, filled, MONITORING, "position open");
      }
    }

    /** The second half of `submit`: record the answer and apply its fill. */
    method Answered(ghost start: OrderBook, order: OrderValue, a: B.Answer) returns (settled: OrderValue)
      requires Valid() && orderManager.Book() == With(start, order)
      requires order.status == SUBMITTED && Coherent(a)
      modifies orderManager, positionManager
      ensures Valid() && orderManager.Book() == With(start, settled) && settled == Settled(order, a)
      ensures positionManager.positions == SettledBook(old(positionManager.positions), order, a)
    {
      orderManager.RecordBroker(order.id, Some(a.brokerOrderId));
      settled := orderManager.orders[order.id];
      assert With(With(start, order), settled) == With(start, settled);
      if a.status == REJECTED {
        settled := Move(start, settled, REJECTED, Reason(a, "rejected by broker"));
      } else if a.status == FAILED {
        settled := Move(start, settled, FAILED, Reason(a, "broker did not answer"));
      } else {
        settled := Move(start, settled, ACKNOWLEDGED, "broker acknowledged");
        if a.filledQuantity > 0.0 {
          settled := BookFill(start, settled, a);
        }
      }
    }

    method SubmitOrder(id: nat, luck: B.Luck) returns (r: Result<OrderValue, SubmitError>)
      requires Valid()
      requires id in orderManager.orders ==> orderManager.orders[id].quantity > 0.0 && orderManager.orders[id].id == id
      modifies broker, orderManager, positionManager
      ensures Valid()
      ensures match Submit(old(State()), id, luck)
              case Ok(d) => State() == d && r == Ok(d.orders.orders[id])
              case Err(e) => r == Err(e) && State() == old(State())
    {
      hide Settled, SettledBook;
      if id !in orderManager.orders {
        return Err(UnknownOrderId);
      }
      var order := orderManager.orders[id];
      if order.status != RISK_APPROVED {
        return Err(NotApproved(order.status));
      }
      ghost var start := orderManager.Book();
      assert With(start, order) == start;
      order := Move(start, order, SUBMITTED, "sent to broker");
      var request := B.Request(order.symbol, order.direction, order.orderType, order.quantity, order.price, None);
      PlaceIsCoherent(broker.State(), request, luck);
      var answer := broker.PlaceOrder(request, luck);
      SettledIdentity(order, answer);
      order := Answered(start, order, answer);
      r := Ok(order);
    }

    /** `submit` for a market order with no adverse draw, in terms of what it trades. */
    method SubmitMarketOrder(id: nat) returns (fillPrice: Option<real>)
      requires Valid() && ReadyAtMarket(State(), id) && orderManager.orders[id].averageFillPrice.None?
      modifies broker, orderManager, positionManager
      ensures Valid() && orderManager.byKey == old(orderManager.byKey)
      ensures broker.quotes == old(broker.quotes) && broker.resting == old(broker.resting)
      ensures broker.slippagePct == old(broker.slippagePct)
      ensures (positionManager.positions, VaultOf(broker.State()))
           == Traded(old(positionManager.positions), old(VaultOf(broker.State())), old(orderManager.orders[id]),
                     old(B.ResolveFillPrice(broker.State(), RequestFor(orderManager.orders[id]))))
      ensures fillPrice == old(B.ResolveFillPrice(broker.State(), RequestFor(orderManager.orders[id])))
    {
      MarketOrderEffect(State(), id);
      var r := SubmitOrder(id, B.Straight);
      fillPrice := r.value.averageFillPrice;
    }
  }
}
