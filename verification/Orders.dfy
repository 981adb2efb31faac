/**
The order state machine and its idempotency index (`OrderManager`).

The first half is the machine on values; the classes at the end are the mutable form,
each method of which is proved to take the value step.
*/
module Orders {
  import opened Common

  /** The parts the program joins into an idempotency key, one constructor per call site. */
  datatype OrderKey =
    | RequestKey(symbol: string, direction: Direction, entry: real, stop: real, price: Option<real>)
    | EntryKey(strategy: string, timestamp: int)
    | CloseKey(symbol: string, timestamp: int)
    | LegKey(batch: nat, symbol: string)
    | UnwindKey(batch: nat, symbol: string)

  datatype OrderEvent = OrderEvent(from: Option<OrderStatus>, to: OrderStatus, detail: string)

  datatype OrderValue = OrderValue(
    id: nat,
    key: OrderKey,
    accountId: string,
    symbol: string,
    direction: Direction,
    orderType: OrderType,
    quantity: real,
    price: Option<real>,
    status: OrderStatus,
    brokerOrderId: Option<nat>,
    filledQuantity: real,
    averageFillPrice: Option<real>,
    rejectionReason: Option<string>,
    events: seq<OrderEvent>)

  /** What a caller asks for when it creates an order. */
  datatype OrderTicket = OrderTicket(
    key: OrderKey,
    accountId: string,
    symbol: string,
    direction: Direction,
    orderType: OrderType,
    quantity: real,
    price: Option<real>)

  datatype TransitionError = UnknownOrder | IllegalTransition(from: OrderStatus, to: OrderStatus)

  /** The whole book: orders by id, the key index, and the next id `uuid4` would draw. */
  datatype OrderBook = OrderBook(orders: map<nat, OrderValue>, byKey: map<OrderKey, nat>, nextId: nat)

  const EMPTY_BOOK := OrderBook(map[], map[], 0)

  function AllowedFrom(status: OrderStatus): set<OrderStatus> {
    match status
    case CREATED => {VALIDATING, REJECTED, FAILED}
    case VALIDATING => {RISK_APPROVED, REJECTED}
    case RISK_APPROVED => {SUBMITTED, REJECTED, FAILED}
    case SUBMITTED => {ACKNOWLEDGED, CANCELLED, REJECTED, FAILED}
    case ACKNOWLEDGED => {PARTIALLY_FILLED, FILLED, CANCELLED, EXPIRED}
    case PARTIALLY_FILLED => {PARTIALLY_FILLED, FILLED, CANCELLED}
    case FILLED => {MONITORING, CLOSED}
    case MONITORING => {CLOSED}
    case CLOSED | REJECTED | CANCELLED | EXPIRED | FAILED => {}
  }

  function NewOrder(id: nat, t: OrderTicket): OrderValue {
    OrderValue(id, t.key, t.accountId, t.symbol, t.direction, t.orderType, t.quantity, t.price,
               CREATED, None, 0.0, None, None, [OrderEvent(None, CREATED, "created")])
  }

  /** `create_order`: the book, the order's id, and whether it is new. */
  function Create(b: OrderBook, t: OrderTicket): (OrderBook, nat, bool) {
    if t.key in b.byKey then
      (b, b.byKey[t.key], false)
    else
      (OrderBook(b.orders[b.nextId := NewOrder(b.nextId, t)], b.byKey[t.key := b.nextId], b.nextId + 1),
       b.nextId, true)
  }

  function Moved(o: OrderValue, to: OrderStatus, detail: string): OrderValue {
    o.(status := to,
       events := o.events + [OrderEvent(Some(o.status), to, detail)],
       rejectionReason := if to == REJECTED then Some(detail) else o.rejectionReason)
  }

  /** `transition`, with its two exceptions as errors. */
  function Transition(b: OrderBook, id: nat, to: OrderStatus, detail: string): Result<OrderBook, TransitionError> {
    if id !in b.orders then
      Err(UnknownOrder)
    else if to !in AllowedFrom(b.orders[id].status) then
      Err(IllegalTransition(b.orders[id].status, to))
    else
      Ok(b.(orders := b.orders[id := Moved(b.orders[id], to, detail)]))
  }

  // ------------------------------------------------------------- what every step keeps

  /** An event log that is a path of the transition table ending at the order's status. */
  ghost predicate LegalHistory(o: OrderValue) {
    && |o.events| > 0
    && o.events[0].from == None && o.events[0].to == CREATED
    && o.events[|o.events| - 1].to == o.status
    && (forall i :: 0 < i < |o.events| ==> LegalHop(o.events[i - 1], o.events[i]))
  }

  ghost predicate LegalHop(before: OrderEvent, after: OrderEvent) {
    after.from == Some(before.to) && after.to in AllowedFrom(before.to)
  }

  /** One key, one order: the index and the orders name each other. */
  ghost predicate WellFormed(b: OrderBook) {
    && (forall id :: id in b.orders ==> id < b.nextId && b.orders[id].id == id)
    && (forall id :: id in b.orders ==> b.orders[id].key in b.byKey && b.byKey[b.orders[id].key] == id)
    && (forall k :: k in b.byKey ==> b.byKey[k] in b.orders && b.orders[b.byKey[k]].key == k)
    && (forall id :: id in b.orders ==> LegalHistory(b.orders[id]))
  }

  /** Everything a caller does to the book: create, transition, or record what the broker
      said. Recording never touches the status, the log, the identity or the key. */
  datatype Step =
    | DoCreate(ticket: OrderTicket)
    | DoTransition(id: nat, to: OrderStatus, detail: string)
    | DoRecordBroker(id: nat, brokerOrderId: Option<nat>)
    | DoRecordFill(id: nat, quantity: real, price: Option<real>)

  function Apply(b: OrderBook, s: Step): OrderBook {
    match s
    case DoCreate(t) => Create(b, t).0
    case DoTransition(id, to, detail) =>
      (match Transition(b, id, to, detail) case Ok(b') => b' case Err(_) => b)
    case DoRecordBroker(id, broker) =>
      if id in b.orders then b.(orders := b.orders[id := b.orders[id].(brokerOrderId := broker)]) else b
    case DoRecordFill(id, q, p) =>
      if id in b.orders then
        b.(orders := b.orders[id := b.orders[id].(filledQuantity := q, averageFillPrice := p)])
      else b
  }

  function Run(b: OrderBook, steps: seq<Step>): OrderBook {
    if steps == [] then b else Apply(Run(b, steps[..|steps| - 1]), steps[|steps| - 1])
  }

  lemma MovedKeepsHistory(o: OrderValue, to: OrderStatus, detail: string)
    requires LegalHistory(o) && to in AllowedFrom(o.status)
    ensures LegalHistory(Moved(o, to, detail))
  {
    var after := Moved(o, to, detail);
    forall i | 0 < i < |after.events| ensures LegalHop(after.events[i - 1], after.events[i]) {
      if i < |o.events| {
        assert LegalHop(o.events[i - 1], o.events[i]);
      }
    }
  }

  lemma ReplaceKeepsWellFormed(b: OrderBook, id: nat, o: OrderValue)
    requires WellFormed(b) && id in b.orders
    requires o.id == id && o.key == b.orders[id].key && LegalHistory(o)
    ensures WellFormed(b.(orders := b.orders[id := o]))
  {}

  lemma CreateKeepsWellFormed(b: OrderBook, t: OrderTicket)
    requires WellFormed(b)
    ensures WellFormed(Create(b, t).0)
  {
    if t.key !in b.byKey {
      var b' := Create(b, t).0;
      assert LegalHistory(NewOrder(b.nextId, t));
      forall k | k in b'.byKey ensures b'.byKey[k] in b'.orders && b'.orders[b'.byKey[k]].key == k {
        if k != t.key {
          assert b.byKey[k] < b.nextId;
        }
      }
    }
  }

  lemma ApplyKeepsWellFormed(b: OrderBook, s: Step)
    requires WellFormed(b)
    ensures WellFormed(Apply(b, s))
  {
    if s.DoCreate? {
      CreateKeepsWellFormed(b, s.ticket);
    } else if s.id in b.orders && Apply(b, s) != b {
      var o := Apply(b, s).orders[s.id];
      if s.DoTransition? {
        MovedKeepsHistory(b.orders[s.id], s.to, s.detail);
      } else {
        assert LegalHistory(b.orders[s.id]) && o.events == b.orders[s.id].events;
      }
      ReplaceKeepsWellFormed(b, s.id, o);
    }
  }

  /** Over every run: the index stays one-to-one with the orders and every event log stays a
      path of the transition table. */
  lemma {:induction false} RunKeepsWellFormed(b: OrderBook, steps: seq<Step>)
    requires WellFormed(b)
    ensures WellFormed(Run(b, steps))
  {
    if steps != [] {
      RunKeepsWellFormed(b, steps[..|steps| - 1]);
      ApplyKeepsWellFormed(Run(b, steps[..|steps| - 1]), steps[|steps| - 1]);
    }
  }

  ghost predicate Extends(before: OrderValue, after: OrderValue) {
    && after.id == before.id && after.key == before.key
    && after.symbol == before.symbol && after.direction == before.direction && after.quantity == before.quantity
    && before.events <= after.events
    && (AllowedFrom(before.status) == {} ==> after.status == before.status && after.events == before.events)
  }

  lemma ApplyExtends(b: OrderBook, s: Step, k: OrderKey)
    requires WellFormed(b) && k in b.byKey
    ensures k in Apply(b, s).byKey && Apply(b, s).byKey[k] == b.byKey[k]
    ensures b.byKey[k] in Apply(b, s).orders
    ensures Extends(b.orders[b.byKey[k]], Apply(b, s).orders[b.byKey[k]])
  {}

  /** Idempotency over every run: once a key has been seen it names the same order for ever,
      that order's identity and quantity never change, its log only grows, and once it is
      terminal neither its status nor its log moves again. A resubmit returns it as it is. */
  lemma {:induction false} KeyIsForever(b: OrderBook, steps: seq<Step>, t: OrderTicket)
    requires WellFormed(b) && t.key in b.byKey
    ensures var after := Run(b, steps);
            && t.key in after.byKey && after.byKey[t.key] == b.byKey[t.key]
            && b.byKey[t.key] in after.orders
            && Extends(b.orders[b.byKey[t.key]], after.orders[b.byKey[t.key]])
            && Create(after, t) == (after, b.byKey[t.key], false)
  {
    if steps != [] {
      var prefix := steps[..|steps| - 1];
      KeyIsForever(b, prefix, t);
      RunKeepsWellFormed(b, prefix);
      ApplyExtends(Run(b, prefix), steps[|steps| - 1], t.key);
    }
  }

  ghost predicate Passed(o: OrderValue, status: OrderStatus) {
    exists i :: 0 <= i < |o.events| && o.events[i].to == status
  }

  /** Statuses reached only through the broker. */
  predicate ReachedBroker(status: OrderStatus) {
    status in {SUBMITTED, ACKNOWLEDGED, PARTIALLY_FILLED, FILLED, MONITORING, CLOSED, CANCELLED, EXPIRED}
  }

  lemma {:induction false} ApprovedBefore(o: OrderValue, i: nat)
    requires LegalHistory(o) && i < |o.events| && ReachedBroker(o.events[i].to)
    ensures exists j :: 0 <= j < i && o.events[j].to == RISK_APPROVED
    decreases i
  {
    if i > 0 {
      assert LegalHop(o.events[i - 1], o.events[i]);
      if o.events[i - 1].to != RISK_APPROVED {
        ApprovedBefore(o, i - 1);
      }
    }
  }

  lemma {:induction false} AcknowledgedBefore(o: OrderValue, i: nat)
    requires LegalHistory(o) && i < |o.events|
    requires o.events[i].to in {PARTIALLY_FILLED, FILLED, MONITORING, CLOSED, EXPIRED}
    ensures exists j :: 0 <= j < i && o.events[j].to == ACKNOWLEDGED
    decreases i
  {
    if i > 0 {
      assert LegalHop(o.events[i - 1], o.events[i]);
      if o.events[i - 1].to != ACKNOWLEDGED {
        AcknowledgedBefore(o, i - 1);
      }
    }
  }

  /** No order reaches the broker without the risk engine's approval on its log, and none
      is filled without an acknowledgement, after any run from an empty book. */
  lemma NothingSubmittedUnapproved(steps: seq<Step>, id: nat)
    requires id in Run(EMPTY_BOOK, steps).orders
    ensures var o := Run(EMPTY_BOOK, steps).orders[id];
            && (ReachedBroker(o.status) ==> Passed(o, RISK_APPROVED))
            && (o.status in {PARTIALLY_FILLED, FILLED, MONITORING, CLOSED, EXPIRED} ==> Passed(o, ACKNOWLEDGED))
  {
    RunKeepsWellFormed(EMPTY_BOOK, steps);
    var o := Run(EMPTY_BOOK, steps).orders[id];
    if ReachedBroker(o.status) {
      ApprovedBefore(o, |o.events| - 1);
    }
    if o.status in {PARTIALLY_FILLED, FILLED, MONITORING, CLOSED, EXPIRED} {
      AcknowledgedBefore(o, |o.events| - 1);
    }
  }

  // ------------------------------------------------------------------ the mutable form

  /** Both dictionaries of the manager are fields its methods reassign; an order record is a
      value filed under its id. */
  class OrderManager {
    var orders: map<nat, OrderValue>
    var byKey: map<OrderKey, nat>
    var nextId: nat

    /** The index never points outside the book. */
    predicate Valid()
      reads this
    {
      forall k :: k in byKey ==> byKey[k] in orders
    }

    function Book(): OrderBook
      reads this
    {
      OrderBook(orders, byKey, nextId)
    }

    constructor ()
      ensures Valid() && Book() == EMPTY_BOOK
    {
      orders, byKey, nextId := map[], map[], 0;
    }

    method CreateOrder(t: OrderTicket) returns (order: OrderValue, created: bool)
      requires Valid()
      modifies this
      ensures Valid()
      ensures var (book, id, isNew) := Create(old(Book()), t);
              Book() == book && created == isNew && id in orders && order == orders[id]
    {
      if t.key in byKey {
        return orders[byKey[t.key]], false;
      }
      order := NewOrder(nextId, t);
      orders := orders[nextId := order];
      byKey := byKey[t.key := nextId];
      nextId := nextId + 1;
      created := true;
    }

    method TransitionTo(id: nat, to: OrderStatus, detail: string) returns (r: Result<OrderValue, TransitionError>)
      requires Valid()
      modifies this
      ensures Valid()
      ensures match Transition(old(Book()), id, to, detail)
              case Ok(b) => Book() == b && r == Ok(orders[id])
              case Err(e) => r == Err(e) && Book() == old(Book())
    {
      if id !in orders {
        return Err(UnknownOrder);
      }
      var order := orders[id];
      if to !in AllowedFrom(order.status) {
        return Err(IllegalTransition(order.status, to));
      }
      order := order.(events := order.events + [OrderEvent(Some(order.status), to, detail)], status := to);
      if to == REJECTED {
        order := order.(rejectionReason := Some(detail));
      }
      orders := orders[id := order];
      r := Ok(order);
    }

    /** `order.broker_order_id = ...`, as the execution engine assigns it. */
    method RecordBroker(id: nat, brokerOrderId: Option<nat>)
      requires Valid() && id in orders
      modifies this
      ensures Valid() && Book() == Apply(old(Book()), DoRecordBroker(id, brokerOrderId))
    {
      orders := orders[id := orders[id].(brokerOrderId := brokerOrderId)];
    }

    method RecordFill(id: nat, quantity: real, price: Option<real>)
      requires Valid() && id in orders
      modifies this
      ensures Valid() && Book() == Apply(old(Book()), DoRecordFill(id, quantity, price))
    {
      orders := orders[id := orders[id].(filledQuantity := quantity, averageFillPrice := price)];
    }
  }
}
