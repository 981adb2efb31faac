/**
Reconciling the application's books with the broker's (`reconcile_orders`,
`reconcile_positions`, `reconcile`), and the theorem that the reconciler is silent on every
state the trading stack can reach by itself: a mismatch always means that something happened
outside it.
*/
module Reconciliation {
  import opened Common
  import opened Netting
  import opened Positions
  import O = Orders
  import B = Broker
  import E = Execution

  const TOLERANCE := 0.000000001

  datatype OrderMismatch =
    | NeverSubmitted(order: nat)
    | NotFound(order: nat, broker: nat)
    | StatusMismatch(order: nat, local: OrderStatus, atBroker: OrderStatus)
    | FilledMismatch(order: nat, localFilled: real, brokerFilled: real)
    | UnknownLocally(broker: nat)

  datatype PositionMismatch =
    | MissingAtBroker(symbol: string)
    | QuantityMismatch(symbol: string)
    | NotTracked(symbol: string)

  datatype Report = Report(orderMismatches: seq<OrderMismatch>, positionMismatches: seq<PositionMismatch>) {
    predicate InSync() {
      orderMismatches == [] && positionMismatches == []
    }
  }

  /** One line of `get_orders`. */
  datatype Listed = Listed(id: nat, order: B.BrokerOrder)

  predicate OpenStatus(s: OrderStatus) {
    s in {SUBMITTED, ACKNOWLEDGED, PARTIALLY_FILLED}
  }

  predicate LiveStatus(s: OrderStatus) {
    s in {SUBMITTED, ACKNOWLEDGED, PARTIALLY_FILLED, FILLED}
  }

  /** `{o.broker_order_id: o for o in broker_orders}`: a repeated id keeps its last line. */
  function ById(listing: seq<Listed>): map<nat, B.BrokerOrder> {
    if listing == [] then map[]
    else ById(listing[..|listing| - 1])[listing[|listing| - 1].id := listing[|listing| - 1].order]
  }

  /** The ids this system knows: those its orders carry and those its positions hold. */
  function Known(local: seq<O.OrderValue>, protective: set<nat>): set<nat> {
    (set o | o in local && o.brokerOrderId.Some? :: o.brokerOrderId.value) + protective
  }

  // ------------------------------------------------------------------- what agreement is

  predicate OrderAgrees(o: O.OrderValue, byId: map<nat, B.BrokerOrder>) {
    OpenStatus(o.status) ==>
      && o.brokerOrderId.Some? && o.brokerOrderId.value in byId
      && byId[o.brokerOrderId.value].status == o.status
      && Abs(byId[o.brokerOrderId.value].filledQuantity - o.filledQuantity) <= TOLERANCE
  }

  predicate ListingKnown(l: Listed, known: set<nat>) {
    LiveStatus(l.order.status) ==> l.id in known
  }

  ghost predicate OrdersAgree(local: seq<O.OrderValue>, listing: seq<Listed>, protective: set<nat>) {
    && (forall o :: o in local ==> OrderAgrees(o, ById(listing)))
    && (forall l :: l in listing ==> ListingKnown(l, Known(local, protective)))
  }

  /** `local` holds the open positions only. */
  ghost predicate PositionsAgree(local: map<string, real>, atBroker: map<string, real>) {
    && (forall s :: s in local ==> s in atBroker && Abs(atBroker[s] - local[s]) <= TOLERANCE)
    && (forall s :: s in atBroker && s !in local ==> atBroker[s] == 0.0)
  }

  // ------------------------------------------------------------------------ the reporters

  /** Reports nothing exactly when the two order books agree, and one line per order that
      does not agree otherwise. */
  method ReconcileOrders(local: seq<O.OrderValue>, listing: seq<Listed>, protective: set<nat>)
    returns (mismatches: seq<OrderMismatch>)
    ensures mismatches == [] <==> OrdersAgree(local, listing, protective)
    ensures |mismatches| == |Disagreeing(local, ById(listing))| + |Strangers(listing, Known(local, protective))|
  {
    mismatches := [];
    var byId := ById(listing);
    for i := 0 to |local|
      invariant |mismatches| == |Disagreeing(local[..i], byId)|
    {
      var o := local[i];
      assert local[..i + 1][..i] == local[..i];
      if OpenStatus(o.status) {
        if o.brokerOrderId.None? {
          mismatches := mismatches + [NeverSubmitted(o.id)];
        } else if o.brokerOrderId.value !in byId {
          mismatches := mismatches + [NotFound(o.id, o.brokerOrderId.value)];
        } else {
          var b := byId[o.brokerOrderId.value];
          if b.status != o.status {
            mismatches := mismatches + [StatusMismatch(o.id, o.status, b.status)];
          } else if Abs(b.filledQuantity - o.filledQuantity) > TOLERANCE {
            mismatches := mismatches + [FilledMismatch(o.id, o.filledQuantity, b.filledQuantity)];
          }
        }
      }
    }
    assert local[..|local|] == local;
    var known := Known(local, protective);
    for i := 0 to |listing|
      invariant |mismatches| == |Disagreeing(local, byId)| + |Strangers(listing[..i], known)|
    {
      assert listing[..i + 1][..i] == listing[..i];
      if listing[i].id !in known && LiveStatus(listing[i].order.status) {
        mismatches := mismatches + [UnknownLocally(listing[i].id)];
      }
    }
    assert listing[..|listing|] == listing;
    DisagreeingEmpty(local, byId);
    StrangersEmpty(listing, known);
  }

  function Disagreeing(local: seq<O.OrderValue>, byId: map<nat, B.BrokerOrder>): seq<O.OrderValue> {
    if local == [] then []
    else
      Disagreeing(local[..|local| - 1], byId) +
      if OrderAgrees(local[|local| - 1], byId) then [] else [local[|local| - 1]]
  }

  function Strangers(listing: seq<Listed>, known: set<nat>): seq<Listed> {
    if listing == [] then []
    else
      Strangers(listing[..|listing| - 1], known) +
      if ListingKnown(listing[|listing| - 1], known) then [] else [listing[|listing| - 1]]
  }

  lemma {:induction false} DisagreeingEmpty(local: seq<O.OrderValue>, byId: map<nat, B.BrokerOrder>)
    ensures Disagreeing(local, byId) == [] <==> forall o :: o in local ==> OrderAgrees(o, byId)
  {
    if local != [] {
      DisagreeingEmpty(local[..|local| - 1], byId);
      assert local == local[..|local| - 1] + [local[|local| - 1]];
    }
  }

  lemma {:induction false} StrangersEmpty(listing: seq<Listed>, known: set<nat>)
    ensures Strangers(listing, known) == [] <==> forall l :: l in listing ==> ListingKnown(l, known)
  {
    if listing != [] {
      StrangersEmpty(listing[..|listing| - 1], known);
      assert listing == listing[..|listing| - 1] + [listing[|listing| - 1]];
    }
  }

  /** The comparison of the two position dictionaries; symbols are visited in any order. */
  method ReconcilePositions(local: map<string, real>, atBroker: map<string, real>)
    returns (mismatches: seq<PositionMismatch>)
    ensures mismatches == [] <==> PositionsAgree(local, atBroker)
  {
    mismatches := [];
    var todo := local.Keys;
    while todo != {}
      invariant todo <= local.Keys
      invariant mismatches == [] <==>
                forall s :: s in local && s !in todo ==> s in atBroker && Abs(atBroker[s] - local[s]) <= TOLERANCE
    {
      var s :| s in todo;
      if s !in atBroker {
        mismatches := mismatches + [MissingAtBroker(s)];
      } else if Abs(atBroker[s] - local[s]) > TOLERANCE {
        mismatches := mismatches + [QuantityMismatch(s)];
      }
      todo := todo - {s};
    }
    todo := atBroker.Keys;
    ghost var first := mismatches;
    while todo != {}
      invariant todo <= atBroker.Keys
      invariant mismatches == [] <==>
                first == [] && forall s :: s in atBroker && s !in todo && s !in local ==> atBroker[s] == 0.0
    {
      var s :| s in todo;
      if s !in local && atBroker[s] != 0.0 {
        mismatches := mismatches + [NotTracked(s)];
      }
      todo := todo - {s};
    }
  }

  /** `reconcile`: in sync exactly when both pairs of books agree, resting protective stops
      counting as known because the positions hold their ids. */
  method Reconcile(local: seq<O.OrderValue>, listing: seq<Listed>, protective: set<nat>,
                   localOpen: map<string, real>, atBroker: map<string, real>)
    returns (report: Report)
    ensures report.InSync() <==> OrdersAgree(local, listing, protective) && PositionsAgree(localOpen, atBroker)
  {
    var orders := ReconcileOrders(local, listing, protective);
    var positions := ReconcilePositions(localOpen, atBroker);
    report := Report(orders, positions);
  }

  // -------------------------------------------------------------- the stack's own moves

  /** Everything the stack does on one account while no stop fires. `Protect` replaces the
      resting stop of a position at a stop price (none to leave the position bare). */
  datatype Action =
    | Create(ticket: O.OrderTicket)
    | Advance(id: nat, to: OrderStatus, detail: string)
    | Send(id: nat, luck: B.Luck)
    | Protect(symbol: string, stop: Option<real>, luck: B.Luck)
    | Quote(symbol: string, ltp: real, isMarketPrint: bool)

  function GuardRequest(symbol: string, quantity: real, stop: real): B.Request
    requires quantity != 0.0
  {
    B.Request(symbol, if quantity > 0.0 then SHORT else LONG, SL_M, Abs(quantity), None, Some(stop))
  }

  /** `cancel_protective_stop` on the simulated broker, which always answers; an order it does not
      list is not resting, so its id is forgotten as well. */
  function Withdraw(d: E.Desk, key: PositionKey): E.Desk {
    var p := PositionOf(d.book, key);
    if key !in d.book || p.protectiveOrderId.None? then d
    else
      var forgotten := d.(book := d.book[key := p.(protectiveOrderId := None)]);
      match B.Cancel(d.broker, p.protectiveOrderId.value)
      case Err(_) => forgotten
      case Ok(broker) => forgotten.(broker := broker)
  }

  /** `ensure_protective_stop` on the simulated broker, after the position's stop is set. */
  function Guard(d: E.Desk, key: PositionKey, stop: Option<real>, luck: B.Luck): E.Desk {
    if key !in d.book then d
    else
      var withdrawn := Withdraw(d.(book := d.book[key := d.book[key].(stop := stop)]), key);
      var p := PositionOf(withdrawn.book, key);
      if !p.IsOpen() || stop.None? then withdrawn
      else
        var (broker, answer) := B.Place(withdrawn.broker, GuardRequest(key.symbol, p.lot.quantity, stop.value), luck);
        if answer.status == REJECTED then withdrawn.(broker := broker)
        else E.Desk(withdrawn.orders,
                    withdrawn.book[key := p.(protectiveOrderId := Some(answer.brokerOrderId))],
                    broker)
  }

  function Act(account: string, d: E.Desk, a: Action): E.Desk {
    match a
    case Create(t) => d.(orders := O.Create(d.orders, t).0)
    case Advance(id, to, detail) => d.(orders := O.Apply(d.orders, O.DoTransition(id, to, detail)))
    case Send(id, luck) =>
      if id in d.orders.orders && d.orders.orders[id].quantity > 0.0 && d.orders.orders[id].id == id then
        (match E.Submit(d, id, luck) case Ok(d') => d' case Err(_) => d)
      else d
    case Protect(symbol, stop, luck) => Guard(d, PositionKey(account, symbol), stop, luck)
    case Quote(symbol, ltp, isPrint) => d.(broker := B.SetQuote(d.broker, symbol, ltp, isPrint))
  }

  /** The action is one the stack takes by itself, and it fires no stop: tickets are for this
      account, nobody but `submit` moves an order to the broker or beyond, a print crosses
      nothing that rests and a new stop is not already through the market. */
  ghost predicate Quiet(account: string, d: E.Desk, a: Action) {
    match a
    case Create(t) => t.accountId == account
    case Advance(_, to, _) => to in {VALIDATING, RISK_APPROVED, REJECTED}
    case Send(_, _) => true
    case Protect(symbol, stop, _) =>
      var p := PositionOf(d.book, PositionKey(account, symbol));
      p.IsOpen() && stop.Some? && symbol in d.broker.quotes ==>
        !B.Crossed(GuardRequest(symbol, p.lot.quantity, stop.value), d.broker.quotes[symbol])
    case Quote(symbol, ltp, isPrint) => isPrint ==> forall k :: !B.Fires(d.broker, k, symbol, ltp)
  }

  function Run(account: string, start: E.Desk, actions: seq<Action>): E.Desk {
    if actions == [] then start
    else Act(account, Run(account, start, actions[..|actions| - 1]), actions[|actions| - 1])
  }

  ghost predicate QuietRun(account: string, start: E.Desk, actions: seq<Action>) {
    forall i :: 0 <= i < |actions| ==> Quiet(account, Run(account, start, actions[..i]), actions[i])
  }

  // -------------------------------------------------------------------- the invariant

  /** An order not yet sent has no broker id; one still open locally is partly filled, and the
      broker says exactly the same. */
  ghost predicate OrderSynced(o: O.OrderValue, orders: map<nat, B.BrokerOrder>) {
    && (o.status in {CREATED, VALIDATING, RISK_APPROVED} ==> o.brokerOrderId.None?)
    && (OpenStatus(o.status) ==>
          && o.status == PARTIALLY_FILLED
          && o.brokerOrderId.Some? && o.brokerOrderId.value in orders
          && orders[o.brokerOrderId.value].status == PARTIALLY_FILLED
          && orders[o.brokerOrderId.value].filledQuantity == o.filledQuantity)
  }

  ghost predicate NamedByOrder(orders: O.OrderBook, b: nat) {
    exists id :: id in orders.orders && orders.orders[id].brokerOrderId == Some(b)
  }

  ghost predicate OrdersSynced(account: string, orders: O.OrderBook, atBroker: map<nat, B.BrokerOrder>) {
    && (forall id :: id in orders.orders ==>
          orders.orders[id].accountId == account && OrderSynced(orders.orders[id], atBroker))
    && (forall b :: b in atBroker && atBroker[b].status in {SUBMITTED, PARTIALLY_FILLED, FILLED} ==>
          NamedByOrder(orders, b))
  }

  /** What rests is exactly what positions hold: one stop per symbol, named by its position. */
  ghost predicate StopsSynced(account: string, book: Book, resting: map<nat, B.Request>) {
    && (forall k :: k in book ==> k.accountId == account)
    && (forall k :: k in book && book[k].protectiveOrderId.Some? ==>
          && book[k].protectiveOrderId.value in resting
          && resting[book[k].protectiveOrderId.value].symbol == k.symbol)
    && (forall b :: b in resting ==>
          PositionOf(book, PositionKey(account, resting[b].symbol)).protectiveOrderId == Some(b))
  }

  ghost predicate PositionsSynced(account: string, book: Book, holdings: map<string, Holding>) {
    forall s :: SamePosition(PositionOf(book, PositionKey(account, s)).lot, HoldingOf(holdings, s))
  }

  ghost predicate Synced(account: string, d: E.Desk) {
    && O.WellFormed(d.orders) && B.WellFormed(d.broker)
    && OrdersSynced(account, d.orders, d.broker.orders)
    && StopsSynced(account, d.book, d.broker.resting)
    && PositionsSynced(account, d.book, d.broker.holdings)
  }

  /** Adding or replacing an order, and with it at most one new order at the broker, keeps
      the order books in step when the new versions agree and no broker id is dropped. */
  lemma PutKeepsOrdersSynced(account: string, orders: O.OrderBook, after: O.OrderBook, o: O.OrderValue,
                             atBroker: map<nat, B.BrokerOrder>, atBroker': map<nat, B.BrokerOrder>)
    requires OrdersSynced(account, orders, atBroker)
    requires after.orders == orders.orders[o.id := o]
    requires forall b :: b in atBroker ==> b in atBroker' && atBroker'[b] == atBroker[b]
    requires forall b :: b in atBroker' && b !in atBroker && LiveStatus(atBroker'[b].status) ==>
               o.brokerOrderId == Some(b)
    requires o.accountId == account && OrderSynced(o, atBroker')
    requires o.id in orders.orders && orders.orders[o.id].brokerOrderId.Some? ==>
               o.brokerOrderId == orders.orders[o.id].brokerOrderId
    ensures OrdersSynced(account, after, atBroker')
  {
    forall b: nat | NamedByOrder(orders, b) ensures NamedByOrder(after, b) {
      var id :| id in orders.orders && orders.orders[id].brokerOrderId == Some(b);
      assert id in after.orders && after.orders[id].brokerOrderId == Some(b);
    }
    assert o.brokerOrderId.Some? ==> NamedByOrder(after, o.brokerOrderId.value) by {
      assert after.orders[o.id] == o;
    }
  }

  lemma CreateKeepsOrdersSynced(account: string, orders: O.OrderBook,
                                atBroker: map<nat, B.BrokerOrder>, t: O.OrderTicket)
    requires OrdersSynced(account, orders, atBroker) && O.WellFormed(orders) && t.accountId == account
    ensures OrdersSynced(account, O.Create(orders, t).0, atBroker)
  {
    if t.key !in orders.byKey {
      PutKeepsOrdersSynced(account, orders, O.Create(orders, t).0, O.NewOrder(orders.nextId, t), atBroker, atBroker);
    }
  }

  lemma AdvanceKeepsOrdersSynced(account: string, orders: O.OrderBook, atBroker: map<nat, B.BrokerOrder>,
                                 id: nat, to: OrderStatus, detail: string)
    requires OrdersSynced(account, orders, atBroker) && O.WellFormed(orders)
    requires to in {VALIDATING, RISK_APPROVED, REJECTED}
    ensures OrdersSynced(account, O.Apply(orders, O.DoTransition(id, to, detail)), atBroker)
  {
    if id in orders.orders && to in O.AllowedFrom(orders.orders[id].status) {
      var o := O.Moved(orders.orders[id], to, detail);
      PutKeepsOrdersSynced(account, orders, orders.(orders := orders.orders[id := o]), o, atBroker, atBroker);
    }
  }

  /** Sending an approved order: whatever the answer, both sides record the same fill. */
  lemma SendKeepsOrdersSynced(account: string, orders: O.OrderBook, atBroker: map<nat, B.BrokerOrder>,
                              sent: O.OrderValue, a: B.Answer, record: B.BrokerOrder)
    requires OrdersSynced(account, orders, atBroker)
    requires sent.id in orders.orders && orders.orders[sent.id].status == RISK_APPROVED
    requires sent.status == SUBMITTED && sent.accountId == account && O.LegalHistory(sent)
    requires a.brokerOrderId !in atBroker
    requires record.status == a.status && record.filledQuantity == a.filledQuantity
    requires a.status == REJECTED
          || (a.filledQuantity > 0.0
              && a.status == if a.filledQuantity >= sent.quantity then FILLED else PARTIALLY_FILLED)
    ensures OrdersSynced(account, E.With(orders, E.Settled(sent, a)), atBroker[a.brokerOrderId := record])
  {
    var o := E.Settled(sent, a);
    E.SettledOutcome(sent, a);
    assert o.accountId == account;
    PutKeepsOrdersSynced(account, orders, E.With(orders, o), o, atBroker, atBroker[a.brokerOrderId := record]);
  }

  lemma FillKeepsPositionsSynced(account: string, book: Book, holdings: map<string, Holding>, cash: real,
                                 symbol: string, f: Fill)
    requires PositionsSynced(account, book, holdings)
    ensures PositionsSynced(account, FillBook(book, PositionKey(account, symbol), f),
                            VaultApply(Vault(holdings, cash), Execution(symbol, f)).holdings)
  {
    var key := PositionKey(account, symbol);
    NettingAgrees(PositionOf(book, key).lot, HoldingOf(holdings, symbol), f);
    var book' := FillBook(book, key, f);
    var holdings' := VaultApply(Vault(holdings, cash), Execution(symbol, f)).holdings;
    forall s ensures SamePosition(PositionOf(book', PositionKey(account, s)).lot, HoldingOf(holdings', s)) {
      if s == symbol {
        assert HoldingOf(holdings', s) == NetHolding(HoldingOf(holdings, s), f).0;
      } else {
        assert SamePosition(PositionOf(book, PositionKey(account, s)).lot, HoldingOf(holdings, s));
      }
    }
  }

  /** Rewriting a position's protective id and stop leaves the agreement of positions alone. */
  lemma MarkingKeepsPositionsSynced(account: string, book: Book, holdings: map<string, Holding>, key: PositionKey,
                                    p: PositionValue)
    requires PositionsSynced(account, book, holdings) && key in book && p.lot == book[key].lot
    ensures PositionsSynced(account, book[key := p], holdings)
  {
    forall s ensures SamePosition(PositionOf(book[key := p], PositionKey(account, s)).lot, HoldingOf(holdings, s)) {
      assert SamePosition(PositionOf(book, PositionKey(account, s)).lot, HoldingOf(holdings, s));
    }
  }

  lemma WithdrawKeepsStopsSynced(account: string, book: Book, resting: map<nat, B.Request>, key: PositionKey)
    requires StopsSynced(account, book, resting) && key in book && book[key].protectiveOrderId.Some?
    ensures StopsSynced(account, book[key := book[key].(protectiveOrderId := None)],
                        resting - {book[key].protectiveOrderId.value})
  {}

  lemma CancelKeepsOrdersSynced(account: string, orders: O.OrderBook, atBroker: map<nat, B.BrokerOrder>, id: nat)
    requires OrdersSynced(account, orders, atBroker) && id in atBroker && atBroker[id].status == ACKNOWLEDGED
    ensures OrdersSynced(account, orders, atBroker[id := atBroker[id].(status := CANCELLED)])
  {}

  /** Replacing a stop first withdraws the old one; between the two calls the books agree. */
  lemma WithdrawKeepsSynced(account: string, d: E.Desk, key: PositionKey)
    requires Synced(account, d) && key in d.book
    ensures Synced(account, Withdraw(d, key))
    ensures Withdraw(d, key).book == d.book[key := d.book[key].(protectiveOrderId := None)]
    ensures Withdraw(d, key).broker.quotes == d.broker.quotes
  {
    var p := d.book[key];
    if p.protectiveOrderId.Some? {
      var id := p.protectiveOrderId.value;
      assert d.broker.orders[id].status == ACKNOWLEDGED;
      B.CancelKeepsWellFormed(d.broker, id);
      CancelKeepsOrdersSynced(account, d.orders, d.broker.orders, id);
      WithdrawKeepsStopsSynced(account, d.book, d.broker.resting, key);
      MarkingKeepsPositionsSynced(account, d.book, d.broker.holdings, key, p.(protectiveOrderId := None));
    } else {
      assert d.book[key := p] == d.book;
    }
  }

  lemma RestKeepsStopsSynced(account: string, book: Book, resting: map<nat, B.Request>, key: PositionKey, id: nat,
                             r: B.Request)
    requires StopsSynced(account, book, resting) && key in book && book[key].protectiveOrderId.None?
    requires id !in resting && r.symbol == key.symbol
    ensures StopsSynced(account, book[key := book[key].(protectiveOrderId := Some(id))], resting[id := r])
  {}

  lemma NewRecordKeepsOrdersSynced(account: string, orders: O.OrderBook, atBroker: map<nat, B.BrokerOrder>, id: nat,
                                   record: B.BrokerOrder)
    requires OrdersSynced(account, orders, atBroker) && id !in atBroker
    requires record.status in {ACKNOWLEDGED, REJECTED}
    ensures OrdersSynced(account, orders, atBroker[id := record])
  {}

  /** The guard is not through the market and no other stop rests on its symbol, so placing it
      fires nothing. */
  lemma GuardRestsQuietly(account: string, book: Book, broker: B.BrokerState, key: PositionKey, r: B.Request)
    requires StopsSynced(account, book, broker.resting) && key.accountId == account
    requires PositionOf(book, key).protectiveOrderId.None?
    requires r.symbol == key.symbol && B.IsStop(r)
    requires r.symbol in broker.quotes ==> !B.Crossed(r, broker.quotes[r.symbol])
    ensures B.PlaceStop(broker, r).0 == B.Rested(broker, r)
    ensures B.PlaceStop(broker, r).1.status == ACKNOWLEDGED && B.PlaceStop(broker, r).1.brokerOrderId == broker.nextId
  {
    if r.symbol in broker.quotes {
      B.QuietTape(B.Rested(broker, r), 0, r.symbol, broker.quotes[r.symbol]);
    }
  }

  /** Placing the guard of a bare open position, refused or resting. */
  lemma PlaceGuardKeepsSynced(account: string, d: E.Desk, key: PositionKey, r: B.Request, luck: B.Luck)
    requires Synced(account, d) && key in d.book && d.book[key].protectiveOrderId.None?
    requires r.symbol == key.symbol && B.IsStop(r)
    requires r.symbol in d.broker.quotes ==> !B.Crossed(r, d.broker.quotes[r.symbol])
    ensures var (broker, a) := B.Place(d.broker, r, luck);
            Synced(account,
                   if a.status == REJECTED then d.(broker := broker)
                   else E.Desk(d.orders, d.book[key := d.book[key].(protectiveOrderId := Some(a.brokerOrderId))],
                               broker))
  {
    var (broker, a) := B.Place(d.broker, r, luck);
    B.PlaceKeepsWellFormed(d.broker, r, luck);
    var id := d.broker.nextId;
    if luck.Refused? {
      NewRecordKeepsOrdersSynced(account, d.orders, d.broker.orders, id, B.OrderOf(r, REJECTED, 0.0, None));
    } else {
      GuardRestsQuietly(account, d.book, d.broker, key, r);
      NewRecordKeepsOrdersSynced(account, d.orders, d.broker.orders, id, B.OrderOf(r, ACKNOWLEDGED, 0.0, None));
      RestKeepsStopsSynced(account, d.book, d.broker.resting, key, id, r);
      MarkingKeepsPositionsSynced(account, d.book, d.broker.holdings, key, d.book[key].(protectiveOrderId := Some(id)));
    }
  }

  lemma StopPriceKeepsSynced(account: string, d: E.Desk, key: PositionKey, stop: Option<real>)
    requires Synced(account, d) && key in d.book
    ensures Synced(account, d.(book := d.book[key := d.book[key].(stop := stop)]))
  {
    hide OrdersSynced, PositionsSynced, B.WellFormed, O.WellFormed;
    MarkingKeepsPositionsSynced(account, d.book, d.broker.holdings, key, d.book[key].(stop := stop));
  }

  lemma GuardKeepsSynced(account: string, d: E.Desk, symbol: string, stop: Option<real>, luck: B.Luck)
    requires Synced(account, d) && Quiet(account, d, Protect(symbol, stop, luck))
    ensures Synced(account, Guard(d, PositionKey(account, symbol), stop, luck))
  {
    hide Synced, Withdraw, B.Place;
    var key := PositionKey(account, symbol);
    if key in d.book {
      var priced := d.(book := d.book[key := d.book[key].(stop := stop)]);
      StopPriceKeepsSynced(account, d, key, stop);
      WithdrawKeepsSynced(account, priced, key);
      var bare := Withdraw(priced, key);
      var p := bare.book[key];
      if p.IsOpen() && stop.Some? {
        PlaceGuardKeepsSynced(account, bare, key, GuardRequest(symbol, p.lot.quantity, stop.value), luck);
      }
    }
  }

  lemma SendKeepsStopsSynced(account: string, book: Book, resting: map<nat, B.Request>, symbol: string, f: Fill)
    requires StopsSynced(account, book, resting)
    ensures StopsSynced(account, FillBook(book, PositionKey(account, symbol), f), resting)
  {}

  lemma SendKeepsSynced(account: string, d: E.Desk, id: nat, luck: B.Luck)
    requires Synced(account, d)
    requires id in d.orders.orders && d.orders.orders[id].quantity > 0.0 && d.orders.orders[id].status == RISK_APPROVED
    ensures Synced(account, E.Submit(d, id, luck).value)
  {
    E.SubmitKeepsWellFormed(d, id, luck);
    var order := d.orders.orders[id];
    var sent := E.Advance(order, SUBMITTED, "sent to broker");
    O.MovedKeepsHistory(order, SUBMITTED, "sent to broker");
    var r := E.RequestFor(sent);
    var a := B.Place(d.broker, r, luck).1;
    B.PlacedAtOnce(d.broker, r, luck);
    SendKeepsOrdersSynced(account, d.orders, d.broker.orders, sent, a,
                          B.OrderOf(r, a.status, a.filledQuantity, a.averageFillPrice));
    if a.status != REJECTED {
      var f := Fill(sent.direction, a.filledQuantity, a.averageFillPrice.value);
      FillKeepsPositionsSynced(account, d.book, d.broker.holdings, d.broker.balance, sent.symbol, f);
      SendKeepsStopsSynced(account, d.book, d.broker.resting, sent.symbol, f);
    }
  }

  lemma QuietQuote(s: B.BrokerState, symbol: string, ltp: real, isPrint: bool)
    requires B.WellFormed(s)
    requires isPrint ==> forall k :: !B.Fires(s, k, symbol, ltp)
    ensures B.WellFormed(B.SetQuote(s, symbol, ltp, isPrint))
    ensures B.SetQuote(s, symbol, ltp, isPrint) == s.(quotes := s.quotes[symbol := ltp])
  {
    var quoted := s.(quotes := s.quotes[symbol := ltp]);
    if isPrint {
      forall k: nat ensures !B.Fires(quoted, k, symbol, ltp) {
        assert !B.Fires(s, k, symbol, ltp);
      }
      B.QuietTape(quoted, 0, symbol, ltp);
    }
  }

  lemma ActKeepsSynced(account: string, d: E.Desk, a: Action)
    requires Synced(account, d) && Quiet(account, d, a)
    ensures Synced(account, Act(account, d, a))
  {
    match a {
      case Create(t) =>
        O.CreateKeepsWellFormed(d.orders, t);
        CreateKeepsOrdersSynced(account, d.orders, d.broker.orders, t);
      case Advance(id, to, detail) =>
        O.ApplyKeepsWellFormed(d.orders, O.DoTransition(id, to, detail));
        AdvanceKeepsOrdersSynced(account, d.orders, d.broker.orders, id, to, detail);
      case Send(id, luck) =>
        if id in d.orders.orders && d.orders.orders[id].quantity > 0.0 && d.orders.orders[id].status == RISK_APPROVED {
          SendKeepsSynced(account, d, id, luck);
        }
      case Protect(symbol, stop, luck) =>
        GuardKeepsSynced(account, d, symbol, stop, luck);
      case Quote(symbol, ltp, isPrint) =>
        QuietQuote(d.broker, symbol, ltp, isPrint);
    }
  }

  lemma {:induction false} QuietRunStaysSynced(account: string, start: E.Desk, actions: seq<Action>)
    requires Synced(account, start) && QuietRun(account, start, actions)
    ensures Synced(account, Run(account, start, actions))
  {
    if actions != [] {
      var before := actions[..|actions| - 1];
      forall i | 0 <= i < |before| ensures Quiet(account, Run(account, start, before[..i]), before[i]) {
        assert before[..i] == actions[..i];
      }
      QuietRunStaysSynced(account, start, before);
      assert Quiet(account, Run(account, start, actions[..|actions| - 1]), actions[|actions| - 1]);
      ActKeepsSynced(account, Run(account, start, before), actions[|actions| - 1]);
    }
  }

  // ------------------------------------------------------------------------- silence

  /** The lists the reconciler is handed: every local order, and every order at the broker
      listed once. */
  ghost predicate ListsOf(d: E.Desk, local: seq<O.OrderValue>, listing: seq<Listed>) {
    && (forall o :: o in local <==> o.id in d.orders.orders && d.orders.orders[o.id] == o)
    && (forall l :: l in listing <==> l.id in d.broker.orders && d.broker.orders[l.id] == l.order)
  }

  ghost function ProtectiveIds(book: Book): set<nat> {
    set k | k in book && book[k].protectiveOrderId.Some? :: book[k].protectiveOrderId.value
  }

  function OpenQuantities(account: string, book: Book): map<string, real>
    requires forall k :: k in book ==> k.accountId == account
  {
    map k | k in book && book[k].IsOpen() :: k.symbol := book[k].lot.quantity
  }

  function BrokerQuantities(holdings: map<string, Holding>): map<string, real> {
    map s | s in holdings :: holdings[s].quantity
  }

  lemma {:induction false} ByIdFindsAll(listing: seq<Listed>, orders: map<nat, B.BrokerOrder>)
    requires forall l :: l in listing ==> l.id in orders && orders[l.id] == l.order
    ensures forall id :: id in ById(listing) <==> exists l :: l in listing && l.id == id
    ensures forall id :: id in ById(listing) ==> id in orders && ById(listing)[id] == orders[id]
  {
    if listing != [] {
      var last := listing[|listing| - 1];
      var before := listing[..|listing| - 1];
      assert listing == before + [last];
      ByIdFindsAll(before, orders);
      assert last in listing;
      forall id ensures id in ById(listing) <==> exists l :: l in listing && l.id == id {
        if exists l :: l in before && l.id == id {
          var l :| l in before && l.id == id;
          assert l in listing;
        }
      }
    }
  }

  /** On a synced stack both comparisons come back clean. */
  lemma SyncedIsSilent(account: string, d: E.Desk, local: seq<O.OrderValue>, listing: seq<Listed>)
    requires Synced(account, d) && ListsOf(d, local, listing)
    ensures OrdersAgree(local, listing, ProtectiveIds(d.book))
    ensures PositionsAgree(OpenQuantities(account, d.book), BrokerQuantities(d.broker.holdings))
  {
    ByIdFindsAll(listing, d.broker.orders);
    forall o | o in local ensures OrderAgrees(o, ById(listing)) {
      assert OrderSynced(d.orders.orders[o.id], d.broker.orders);
      if OpenStatus(o.status) {
        var b := o.brokerOrderId.value;
        assert Listed(b, d.broker.orders[b]) in listing;
      }
    }
    forall l | l in listing ensures ListingKnown(l, Known(local, ProtectiveIds(d.book))) {
      LiveOrderIsKnown(account, d, local, l.id);
    }
    forall s ensures
      && (s in OpenQuantities(account, d.book) ==>
            s in d.broker.holdings && d.broker.holdings[s].quantity == OpenQuantities(account, d.book)[s])
      && (s in d.broker.holdings ==> s in OpenQuantities(account, d.book))
    {
      assert SamePosition(PositionOf(d.book, PositionKey(account, s)).lot, HoldingOf(d.broker.holdings, s));
      if s in d.broker.holdings {
        assert PositionKey(account, s) in d.book && d.book[PositionKey(account, s)].IsOpen();
      }
    }
  }

  lemma LiveOrderIsKnown(account: string, d: E.Desk, local: seq<O.OrderValue>, b: nat)
    requires Synced(account, d) && b in d.broker.orders
    requires forall o :: o in local <==> o.id in d.orders.orders && d.orders.orders[o.id] == o
    ensures LiveStatus(d.broker.orders[b].status) ==> b in Known(local, ProtectiveIds(d.book))
  {
    if d.broker.orders[b].status == ACKNOWLEDGED {
      var key := PositionKey(account, d.broker.resting[b].symbol);
      assert PositionOf(d.book, key).protectiveOrderId == Some(b);
      assert key in d.book;
    } else if LiveStatus(d.broker.orders[b].status) {
      assert NamedByOrder(d.orders, b);
      var id :| id in d.orders.orders && d.orders.orders[id].brokerOrderId == Some(b);
      assert d.orders.orders[id] in local;
    }
  }

  ghost function FreshDesk(startingBalance: real, slippagePct: real): E.Desk {
    E.Desk(O.EMPTY_BOOK, map[], B.BrokerState(startingBalance, slippagePct, map[], map[], map[], map[], 0))
  }

  /** From a fresh stack, after any run of its own moves in which no stop fires (orders created,
      approved, refused, filled in full or in part, rejected by the broker, stops placed,
      refused, replaced and withdrawn, quotes recorded), the reconciler reports nothing. */
  lemma SilentOnEveryQuietRun(account: string, startingBalance: real, slippagePct: real, actions: seq<Action>,
                              local: seq<O.OrderValue>, listing: seq<Listed>)
    requires QuietRun(account, FreshDesk(startingBalance, slippagePct), actions)
    requires ListsOf(Run(account, FreshDesk(startingBalance, slippagePct), actions), local, listing)
    ensures var d := Run(account, FreshDesk(startingBalance, slippagePct), actions);
            && (forall k :: k in d.book ==> k.accountId == account)
            && OrdersAgree(local, listing, ProtectiveIds(d.book))
            && PositionsAgree(OpenQuantities(account, d.book), BrokerQuantities(d.broker.holdings))
  {
    var start := FreshDesk(startingBalance, slippagePct);
    QuietRunStaysSynced(account, start, actions);
    SyncedIsSilent(account, Run(account, start, actions), local, listing);
  }

  /** The other direction: from a synced stack, a print that takes out a resting stop of more
      than the tolerance leaves the position books disagreeing, so the reconciler speaks. */
  lemma FiredStopIsReported(account: string, d: E.Desk, symbol: string, ltp: real, id: nat)
    requires Synced(account, d) && B.Fires(d.broker, id, symbol, ltp)
    requires d.broker.resting[id].quantity > TOLERANCE
    ensures !PositionsAgree(OpenQuantities(account, d.book),
                            BrokerQuantities(B.SetQuote(d.broker, symbol, ltp, true).holdings))
  {
    StopFiresAlone(account, d.book, d.broker, symbol, ltp, id);
    var r := d.broker.resting[id];
    UnmatchedFillShows(account, d.book, d.broker.holdings, B.SetQuote(d.broker, symbol, ltp, true).holdings, symbol,
                       Fill(r.direction, r.quantity, B.StopFillPrice(r, ltp)));
  }

  lemma StopFiresAlone(account: string, book: Book, broker: B.BrokerState, symbol: string, ltp: real, id: nat)
    requires B.WellFormed(broker) && StopsSynced(account, book, broker.resting) && B.Fires(broker, id, symbol, ltp)
    ensures HoldingOf(B.SetQuote(broker, symbol, ltp, true).holdings, symbol)
         == NetHolding(HoldingOf(broker.holdings, symbol),
                       Fill(broker.resting[id].direction, broker.resting[id].quantity,
                            B.StopFillPrice(broker.resting[id], ltp))).0
  {
    var quoted := broker.(quotes := broker.quotes[symbol := ltp]);
    OnlyStopFires(quoted, 0, symbol, ltp, id);
  }

  /** A fill netted at the broker alone shows up as a position mismatch. */
  lemma UnmatchedFillShows(account: string, book: Book, holdings: map<string, Holding>, after: map<string, Holding>,
                           symbol: string, f: Fill)
    requires forall k :: k in book ==> k.accountId == account
    requires PositionsSynced(account, book, holdings) && f.quantity > TOLERANCE
    requires HoldingOf(after, symbol) == NetHolding(HoldingOf(holdings, symbol), f).0
    ensures !PositionsAgree(OpenQuantities(account, book), BrokerQuantities(after))
  {
    var key := PositionKey(account, symbol);
    assert SamePosition(PositionOf(book, key).lot, HoldingOf(holdings, symbol));
    NetHoldingQuantity(HoldingOf(holdings, symbol), f);
    var local, atBroker := OpenQuantities(account, book), BrokerQuantities(after);
    if key in book && book[key].IsOpen() {
      assert symbol in local && local[symbol] == book[key].lot.quantity;
    }
  }

  /** At most one stop rests per symbol, so a print fires exactly the one it crosses. */
  lemma {:induction false} OnlyStopFires(s: B.BrokerState, from: nat, symbol: string, ltp: real, id: nat)
    requires B.WellFormed(s) && B.Fires(s, id, symbol, ltp) && from <= id
    requires forall k :: k in s.resting && s.resting[k].symbol == symbol ==> k == id
    ensures B.FireFrom(s, from, symbol, ltp) == B.FireOne(s, id, ltp)
    decreases s.nextId - from
  {
    assert id < s.nextId;
    if from == id {
      var fired := B.FireOne(s, id, ltp);
      B.QuietTape(fired, from + 1, symbol, ltp);
    } else {
      OnlyStopFires(s, from + 1, symbol, ltp, id);
    }
  }
}
