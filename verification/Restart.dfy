/**
A user's trading stack and its journal: what `POST /orders` writes as it goes (`persist_order`,
`persist_position`, `record_trade`), and what a restarted process rebuilds from it (`_stack_for`
and the loaders), compared at every point of every run with the process that never stopped.
*/
module Restart {
  import opened Common
  import opened Market
  import opened Netting
  import opened Positions
  import opened Orders
  import B = Broker
  import E = Execution
  import R = Risk

  const DAY_SECONDS := 86400
  const ORDER_REHYDRATION_WINDOW := 86400

  // ------------------------------------------------------------------------------- state

  /** The counters the risk gate reads and the window they are for. */
  datatype Counters = Counters(
    tradesToday: int,
    dailyPnl: real,
    weeklyPnl: real,
    riskDay: Option<int>,
    riskWeek: Option<int>)

  /** The in-memory stack: orders under their idempotency keys, the position book, the counters. */
  datatype Stack = Stack(known: map<OrderKey, OrderValue>, book: Book, counters: Counters, repeatedRejections: int)

  datatype OrderRow = OrderRow(saved: OrderValue, createdAt: int)

  datatype TradeRow = TradeRow(pnl: real, closedAt: int)

  /** The tables: order rows with their events, the open position rows, the trade journal. */
  datatype Journal = Journal(
    rows: map<OrderKey, OrderRow>,
    openRows: map<PositionKey, PositionValue>,
    trades: seq<TradeRow>)

  // -------------------------------------------------------------------------- the window

  function DayStart(now: int): int {
    Day(now) * DAY_SECONDS
  }

  function WeekStart(now: int): int {
    (7 * Week(now) - 3) * DAY_SECONDS
  }

  /** `_roll_risk_window`. */
  function RolledTo(c: Counters, now: int): Counters {
    var byDay :=
      if c.riskDay.Some? && c.riskDay.value != Day(now) then c.(tradesToday := 0, dailyPnl := 0.0) else c;
    var byWeek :=
      if c.riskWeek.Some? && c.riskWeek.value != Week(now) then byDay.(weeklyPnl := 0.0) else byDay;
    byWeek.(riskDay := Some(Day(now)), riskWeek := Some(Week(now)))
  }

  // --------------------------------------------------------------------- writing the journal

  /** The columns of an order row: what was filled is not one of them. */
  function Columns(o: OrderValue): OrderValue {
    o.(filledQuantity := 0.0, averageFillPrice := None)
  }

  /** `persist_order`: one row per key; on an update, status, broker id, reason, and the events
      beyond those already there. */
  function PersistOrder(rows: map<OrderKey, OrderRow>, o: OrderValue, now: int): map<OrderKey, OrderRow> {
    if o.key !in rows then rows[o.key := OrderRow(Columns(o), now)]
    else
      var row := rows[o.key];
      var count := |row.saved.events|;
      rows[o.key := row.(saved := row.saved.(
                           status := o.status, brokerOrderId := o.brokerOrderId, rejectionReason := o.rejectionReason,
                           events := row.saved.events + if count <= |o.events| then o.events[count..] else []))]
  }

  /** `persist_position`: the open row of this position, kept up to date or closed. */
  function PersistPosition(openRows: map<PositionKey, PositionValue>, key: PositionKey,
                           p: PositionValue): map<PositionKey, PositionValue> {
    if p.IsOpen() then openRows[key := p] else openRows - {key}
  }

  // -------------------------------------------------------------------------- placing orders

  /** A `POST /orders`, with what the outside decides: the gate's verdict, the broker's answer and
      the id of the protective order in force afterwards. */
  datatype Request = Request(
    now: int,
    id: nat,
    ticket: OrderTicket,
    stop: real,
    approved: bool,
    answer: B.Answer,
    protective: Option<nat>)

  function PositionKeyOf(r: Request): PositionKey {
    PositionKey(r.ticket.accountId, r.ticket.symbol)
  }

  function SentOrder(r: Request): OrderValue {
    Moved(Moved(Moved(NewOrder(r.id, r.ticket), VALIDATING, ""), RISK_APPROVED, ""), SUBMITTED, "sent to broker")
  }

  predicate IsNew(known: map<OrderKey, OrderValue>, r: Request) {
    r.ticket.key !in known
  }

  /** The order this request ends with: settled if new, else the one its key names. */
  function FinalOrder(known: map<OrderKey, OrderValue>, r: Request): OrderValue {
    if IsNew(known, r) then E.Settled(SentOrder(r), r.answer) else known[r.ticket.key]
  }

  function FilledBook(book: Book, r: Request, isNew: bool): Book
    requires E.Coherent(r.answer)
  {
    if isNew then E.SettledBook(book, SentOrder(r), r.answer) else book
  }

  predicate JustFilled(status: OrderStatus, isNew: bool) {
    isNew && status in {FILLED, PARTIALLY_FILLED, MONITORING}
  }

  /** The stop and the protective order written on the position after the fill. */
  function Guarded(p: PositionValue, r: Request, justFilled: bool): PositionValue {
    var stopped := if p.IsOpen() && p.IsLong() == r.ticket.direction.LONG? then p.(stop := Some(r.stop)) else p;
    if justFilled then stopped.(protectiveOrderId := r.protective) else stopped
  }

  function BookAfterRequest(book: Book, r: Request, status: OrderStatus, isNew: bool): Book
    requires E.Coherent(r.answer)
  {
    var filled, key := FilledBook(book, r, isNew), PositionKeyOf(r);
    if key in filled then filled[key := Guarded(filled[key], r, JustFilled(status, isNew))] else filled
  }

  /** What the request realized; nothing if there was no position before. */
  function RealizedDelta(before: Book, after: Book, key: PositionKey): real {
    if key in before && key in after then after[key].lot.realizedPnl - before[key].lot.realizedPnl else 0.0
  }

  function Counted(c: Counters, isNew: bool, delta: real): Counters {
    c.(tradesToday := c.tradesToday + (if isNew then 1 else 0), dailyPnl := c.dailyPnl + delta,
       weeklyPnl := c.weeklyPnl + delta)
  }

  function Journalled(trades: seq<TradeRow>, delta: real, now: int): seq<TradeRow> {
    if delta != 0.0 then trades + [TradeRow(delta, now)] else trades
  }

  /** The stack after an order the gate approved, from one already rolled. */
  function StackPlaced(s: Stack, r: Request): Stack
    requires E.Coherent(r.answer)
  {
    var isNew, order := IsNew(s.known, r), FinalOrder(s.known, r);
    var book := BookAfterRequest(s.book, r, order.status, isNew);
    Stack(s.known[r.ticket.key := order], book,
          Counted(s.counters, isNew, RealizedDelta(s.book, book, PositionKeyOf(r))),
          if isNew then (if order.status == REJECTED then s.repeatedRejections + 1 else 0) else s.repeatedRejections)
  }

  function JournalPlaced(j: Journal, s: Stack, r: Request): Journal
    requires E.Coherent(r.answer)
  {
    var isNew, order, key := IsNew(s.known, r), FinalOrder(s.known, r), PositionKeyOf(r);
    var book := BookAfterRequest(s.book, r, order.status, isNew);
    Journal(PersistOrder(j.rows, order, r.now),
            if key in book then PersistPosition(j.openRows, key, book[key]) else j.openRows,
            Journalled(j.trades, RealizedDelta(s.book, book, key), r.now))
  }

  function StackAfter(s: Stack, r: Request): Stack
    requires E.Coherent(r.answer)
  {
    var rolled := s.(counters := RolledTo(s.counters, r.now));
    if r.approved then StackPlaced(rolled, r) else rolled
  }

  function JournalAfter(j: Journal, s: Stack, r: Request): Journal
    requires E.Coherent(r.answer)
  {
    if r.approved then JournalPlaced(j, s, r) else j
  }

  // -------------------------------------------------------------------------- rebuilding

  predicate Recent(row: OrderRow, now: int) {
    row.createdAt >= now - ORDER_REHYDRATION_WINDOW
  }

  /** `load_recent_orders` into an empty manager. */
  function RecentOrders(rows: map<OrderKey, OrderRow>, now: int): map<OrderKey, OrderValue> {
    map k | k in rows && Recent(rows[k], now) :: rows[k].saved
  }

  /** `load_orders_placed_since`. */
  function PlacedSince(rows: map<OrderKey, OrderRow>, since: int): nat {
    |set k | k in rows && rows[k].createdAt >= since|
  }

  /** `load_realized_pnl_since`. */
  function RealizedSince(trades: seq<TradeRow>, since: int): real {
    if trades == [] then 0.0
    else
      var last := trades[|trades| - 1];
      RealizedSince(trades[..|trades| - 1], since) + if last.closedAt >= since then last.pnl else 0.0
  }

  /** The stack a fresh process builds. */
  function Rebuilt(j: Journal, now: int): Stack {
    Stack(RecentOrders(j.rows, now), j.openRows,
          Counters(PlacedSince(j.rows, DayStart(now)), RealizedSince(j.trades, DayStart(now)),
                   RealizedSince(j.trades, WeekStart(now)),
                   Some(Day(now)), Some(Week(now))),
          0)
  }

  // ------------------------------------------------------------------------------- runs

  datatype Step =
    | PLACE(request: Request)
    | ROLL(now: int)
    | MOVE(key: OrderKey, to: OrderStatus, detail: string)   // a cancel or expiry, persisted at once
    | RESTART(now: int)

  /** The live stack, its journal, and the latest time anything happened. */
  datatype System = System(stack: Stack, journal: Journal, now: int)

  /** Time does not run backwards, and a key the journal knows is one the process still remembers:
      an identical order is not resubmitted more than a day later across a restart. */
  predicate Allowed(s: System, step: Step) {
    match step
    case PLACE(r) => r.now >= s.now && E.Coherent(r.answer) &&
      (r.ticket.key in s.journal.rows ==> r.ticket.key in s.stack.known)
    case ROLL(now) => now >= s.now
    case MOVE(_, _, _) => true
    case RESTART(now) => now >= s.now
  }

  function Next(s: System, step: Step): System
    requires Allowed(s, step)
  {
    match step
    case PLACE(r) => System(StackAfter(s.stack, r), JournalAfter(s.journal, s.stack, r), r.now)
    case ROLL(now) => System(s.stack.(counters := RolledTo(s.stack.counters, now)), s.journal, now)
    case MOVE(key, to, detail) =>
      if key in s.stack.known && to in AllowedFrom(s.stack.known[key].status) then
        var o := Moved(s.stack.known[key], to, detail);
        System(s.stack.(known := s.stack.known[key := o]), s.journal.(rows := PersistOrder(s.journal.rows, o, s.now)),
               s.now)
      else s
    case RESTART(now) => System(Rebuilt(s.journal, now), s.journal, now)
  }

  // ------------------------------------------------------------------ what every run keeps

  /** The journal holds every order the process knows, as it is, and the process knows every order
      of the last day. */
  predicate OrdersMirrored(known: map<OrderKey, OrderValue>, rows: map<OrderKey, OrderRow>, now: int) {
    && (forall k :: k in known ==> k in rows && rows[k].saved == Columns(known[k]) && known[k].key == k)
    && (forall k :: k in rows && Recent(rows[k], now) ==> k in known)
    && (forall k :: k in rows ==> rows[k].createdAt <= now && rows[k].saved.key == k)
    && (forall k :: k in rows ==> rows[k].saved == Columns(rows[k].saved))
  }

  /** A position with the one field that is only a mark left out. */
  function Durable(p: PositionValue): PositionValue {
    p.(unrealizedPnl := 0.0)
  }

  function OpenBook(book: Book): Book {
    map k | k in book && book[k].IsOpen() :: Durable(book[k])
  }

  predicate BookMirrored(book: Book, openRows: map<PositionKey, PositionValue>) {
    OpenBook(book) == OpenBook(openRows) && forall k :: k in openRows ==> openRows[k].IsOpen()
  }

  predicate CountersMirrored(c: Counters, j: Journal, now: int) {
    && c.riskDay == Some(Day(now)) && c.riskWeek == Some(Week(now))
    && c.tradesToday == PlacedSince(j.rows, DayStart(now))
    && c.dailyPnl == RealizedSince(j.trades, DayStart(now))
    && c.weeklyPnl == RealizedSince(j.trades, WeekStart(now))
    && (forall i :: 0 <= i < |j.trades| ==> j.trades[i].closedAt <= now)
  }

  predicate InStep(s: System) {
    && OrdersMirrored(s.stack.known, s.journal.rows, s.now)
    && BookMirrored(s.stack.book, s.journal.openRows)
    && CountersMirrored(s.stack.counters, s.journal, s.now)
  }

  lemma {:induction false} NothingSinceLater(trades: seq<TradeRow>, since: int)
    requires forall i :: 0 <= i < |trades| ==> trades[i].closedAt < since
    ensures RealizedSince(trades, since) == 0.0
  {
    if trades != [] {
      NothingSinceLater(trades[..|trades| - 1], since);
    }
  }

  lemma NoOrdersSinceLater(rows: map<OrderKey, OrderRow>, since: int)
    requires forall k :: k in rows ==> rows[k].createdAt < since
    ensures PlacedSince(rows, since) == 0
  {
    assert (set k | k in rows && rows[k].createdAt >= since) == {};
  }

  lemma WindowBounds(earlier: int, now: int)
    requires earlier <= now
    ensures Day(earlier) <= Day(now) && Week(earlier) <= Week(now)
    ensures DayStart(now) <= now && WeekStart(now) <= now
    ensures Day(earlier) != Day(now) ==> earlier < DayStart(now)
    ensures Week(earlier) != Week(now) ==> earlier < WeekStart(now)
    ensures Day(earlier) == Day(now) ==> DayStart(earlier) == DayStart(now)
    ensures Week(earlier) == Week(now) ==> WeekStart(earlier) == WeekStart(now)
  {}

  /** Rolling is what counting from the new window's start comes to. */
  lemma RollKeepsCounters(c: Counters, j: Journal, before: int, now: int)
    requires CountersMirrored(c, j, before) && before <= now
    requires forall k :: k in j.rows ==> j.rows[k].createdAt <= before
    ensures CountersMirrored(RolledTo(c, now), j, now)
  {
    WindowBounds(before, now);
    if Day(before) != Day(now) {
      NothingSinceLater(j.trades, DayStart(now));
      NoOrdersSinceLater(j.rows, DayStart(now));
    }
    if Week(before) != Week(now) {
      NothingSinceLater(j.trades, WeekStart(now));
    }
  }

  lemma RealizedAppend(trades: seq<TradeRow>, delta: real, now: int, since: int)
    requires since <= now
    ensures RealizedSince(Journalled(trades, delta, now), since) == RealizedSince(trades, since) + delta
  {
    if delta != 0.0 {
      assert (trades + [TradeRow(delta, now)])[..|trades|] == trades;
    }
  }

  lemma PlacedAfterPersist(rows: map<OrderKey, OrderRow>, o: OrderValue, now: int, since: int)
    requires since <= now
    ensures PlacedSince(PersistOrder(rows, o, now), since) == PlacedSince(rows, since) + if o.key in rows then 0 else 1
  {
    var after := PersistOrder(rows, o, now);
    var was := set k | k in rows && rows[k].createdAt >= since;
    var counted := set k | k in after && after[k].createdAt >= since;
    if o.key in rows {
      assert counted == was;
    } else {
      assert counted == was + {o.key};
    }
  }

  /** An order that only grew since it was persisted is persisted exactly. */
  lemma PersistOrderIsExact(rows: map<OrderKey, OrderRow>, o: OrderValue, now: int)
    requires o.key in rows ==>
               && rows[o.key].saved.events <= o.events
               && Columns(o) == rows[o.key].saved.(status := o.status, brokerOrderId := o.brokerOrderId,
                                                   rejectionReason := o.rejectionReason, events := o.events)
    ensures var after := PersistOrder(rows, o, now);
            && after.Keys == rows.Keys + {o.key} && after[o.key].saved == Columns(o)
            && after[o.key].createdAt == (if o.key in rows then rows[o.key].createdAt else now)
            && forall k :: k in rows && k != o.key ==> after[k] == rows[k]
  {
    if o.key in rows {
      var events := rows[o.key].saved.events;
      assert events + o.events[|events|..] == o.events;
    }
  }

  lemma LaterStillMirrored(known: map<OrderKey, OrderValue>, rows: map<OrderKey, OrderRow>, before: int, now: int)
    requires OrdersMirrored(known, rows, before) && before <= now
    ensures OrdersMirrored(known, rows, now)
  {}

  lemma KnownWith(known: map<OrderKey, OrderValue>, rows: map<OrderKey, OrderRow>, o: OrderValue, now: int)
    requires OrdersMirrored(known, rows, now) && (o.key in rows ==> o.key in known)
    requires o.key in known ==>
               && known[o.key].events <= o.events
               && Columns(o) == Columns(known[o.key]).(status := o.status, brokerOrderId := o.brokerOrderId,
                                                       rejectionReason := o.rejectionReason, events := o.events)
    ensures OrdersMirrored(known[o.key := o], PersistOrder(rows, o, now), now)
    ensures o.key in rows <==> o.key in known
  {
    assert o.key in rows ==> rows[o.key].saved == Columns(known[o.key]);
    PersistOrderIsExact(rows, o, now);
    hide PersistOrder, Columns;
    RowsWith(known, rows, PersistOrder(rows, o, now), o, now);
  }

  lemma RowsWith(known: map<OrderKey, OrderValue>, rows: map<OrderKey, OrderRow>, after: map<OrderKey, OrderRow>,
                 o: OrderValue, now: int)
    requires OrdersMirrored(known, rows, now) && (o.key in rows ==> o.key in known)
    requires after.Keys == rows.Keys + {o.key} && after[o.key].saved == Columns(o)
    requires after[o.key].createdAt == (if o.key in rows then rows[o.key].createdAt else now)
    requires forall k :: k in rows && k != o.key ==> after[k] == rows[k]
    ensures OrdersMirrored(known[o.key := o], after, now)
  {
    assert Columns(Columns(o)) == Columns(o) && Columns(o).key == o.key;
    hide Columns;
  }

  lemma PlaceKeepsOrders(s: System, r: Request)
    requires Allowed(s, PLACE(r)) && OrdersMirrored(s.stack.known, s.journal.rows, s.now) && r.approved
    ensures OrdersMirrored(StackAfter(s.stack, r).known, JournalAfter(s.journal, s.stack, r).rows, r.now)
    ensures r.ticket.key in s.journal.rows <==> !IsNew(s.stack.known, r)
  {
    LaterStillMirrored(s.stack.known, s.journal.rows, s.now, r.now);
    E.SettledIdentity(SentOrder(r), r.answer);
    KnownWith(s.stack.known, s.journal.rows, FinalOrder(s.stack.known, r), r.now);
  }

  /** Counting one order and what it realized keeps the counters those of the journal. */
  lemma CountedKeepsMirror(c: Counters, j: Journal, isNew: bool, o: OrderValue, delta: real,
                           openRows: map<PositionKey, PositionValue>, now: int)
    requires CountersMirrored(c, j, now) && (isNew <==> o.key !in j.rows)
    ensures CountersMirrored(Counted(c, isNew, delta),
                             Journal(PersistOrder(j.rows, o, now), openRows, Journalled(j.trades, delta, now)), now)
  {
    hide PersistOrder, PlacedSince, RealizedSince, Day, Week, DayStart, WeekStart, Journalled;
    WindowBounds(now, now);
    PlacedAfterPersist(j.rows, o, now, DayStart(now));
    RealizedAppend(j.trades, delta, now, DayStart(now));
    RealizedAppend(j.trades, delta, now, WeekStart(now));
    JournalledByNow(j.trades, delta, now);
  }

  lemma JournalledByNow(trades: seq<TradeRow>, delta: real, now: int)
    requires forall i :: 0 <= i < |trades| ==> trades[i].closedAt <= now
    ensures var after := Journalled(trades, delta, now); forall i :: 0 <= i < |after| ==> after[i].closedAt <= now
  {}

  lemma PlaceKeepsCounters(s: System, r: Request)
    requires Allowed(s, PLACE(r)) && InStep(s) && r.approved
    ensures CountersMirrored(StackAfter(s.stack, r).counters, JournalAfter(s.journal, s.stack, r), r.now)
  {
    var isNew, order := IsNew(s.stack.known, r), FinalOrder(s.stack.known, r);
    RollKeepsCounters(s.stack.counters, s.journal, s.now, r.now);
    E.SettledIdentity(SentOrder(r), r.answer);
    PlaceKeepsOrders(s, r);
    assert order.key == r.ticket.key;
    hide FinalOrder, IsNew, BookAfterRequest, CountersMirrored, RolledTo, PersistOrder, Journalled, RealizedDelta,
      Counted;
    var book := BookAfterRequest(s.stack.book, r, order.status, isNew);
    var delta := RealizedDelta(s.stack.book, book, PositionKeyOf(r));
    CountedKeepsMirror(RolledTo(s.stack.counters, r.now), s.journal, isNew, order, delta,
                       JournalAfter(s.journal, s.stack, r).openRows, r.now);
  }

  lemma PersistKeepsBook(book: Book, openRows: map<PositionKey, PositionValue>, key: PositionKey, p: PositionValue)
    requires BookMirrored(book, openRows)
    ensures BookMirrored(book[key := p], PersistPosition(openRows, key, p))
  {
    var now, rows := book[key := p], PersistPosition(openRows, key, p);
    forall k ensures k in OpenBook(now) <==> k in OpenBook(rows) {
      assert k in OpenBook(book) <==> k in OpenBook(openRows);
    }
    forall k | k in OpenBook(now) ensures OpenBook(now)[k] == OpenBook(rows)[k] {
      if k != key {
        assert OpenBook(book)[k] == OpenBook(openRows)[k];
      }
    }
  }

  lemma PlaceKeepsBook(s: System, r: Request)
    requires Allowed(s, PLACE(r)) && BookMirrored(s.stack.book, s.journal.openRows) && r.approved
    ensures BookMirrored(StackAfter(s.stack, r).book, JournalAfter(s.journal, s.stack, r).openRows)
  {
    var key, order := PositionKeyOf(r), FinalOrder(s.stack.known, r);
    var book := BookAfterRequest(s.stack.book, r, order.status, IsNew(s.stack.known, r));
    OnlyThisPositionMoves(s.stack.book, r, order.status, IsNew(s.stack.known, r));
    if key in book {
      PersistKeepsBook(s.stack.book, s.journal.openRows, key, book[key]);
    }
  }

  lemma OnlyThisPositionMoves(book: Book, r: Request, status: OrderStatus, isNew: bool)
    requires E.Coherent(r.answer)
    ensures var after, key := BookAfterRequest(book, r, status, isNew), PositionKeyOf(r);
            if key in after then after == book[key := after[key]] else after == book
  {}

  lemma RebuiltInStep(j: Journal, now: int)
    requires forall k :: k in j.rows ==>
               j.rows[k].createdAt <= now && j.rows[k].saved.key == k && j.rows[k].saved == Columns(j.rows[k].saved)
    requires forall k :: k in j.openRows ==> j.openRows[k].IsOpen()
    requires forall i :: 0 <= i < |j.trades| ==> j.trades[i].closedAt <= now
    ensures InStep(System(Rebuilt(j, now), j, now))
  {}

  /** Every step of a run keeps the journal and the stack in step. */
  lemma NextKeepsInStep(s: System, step: Step)
    requires InStep(s) && Allowed(s, step)
    ensures InStep(Next(s, step))
  {
    match step
    case PLACE(r) =>
      if r.approved {
        PlaceKeepsOrders(s, r);
        PlaceKeepsBook(s, r);
        PlaceKeepsCounters(s, r);
      } else {
        LaterStillMirrored(s.stack.known, s.journal.rows, s.now, r.now);
        RollKeepsCounters(s.stack.counters, s.journal, s.now, r.now);
      }
    case ROLL(now) =>
      LaterStillMirrored(s.stack.known, s.journal.rows, s.now, now);
      RollKeepsCounters(s.stack.counters, s.journal, s.now, now);
    case MOVE(key, to, detail) =>
      if key in s.stack.known && to in AllowedFrom(s.stack.known[key].status) {
        MoveKeepsInStep(s, key, to, detail);
      }
    case RESTART(now) => RebuiltInStep(s.journal, now);
  }

  lemma MoveKeepsInStep(s: System, key: OrderKey, to: OrderStatus, detail: string)
    requires InStep(s) && key in s.stack.known && to in AllowedFrom(s.stack.known[key].status)
    ensures InStep(Next(s, MOVE(key, to, detail)))
  {
    var o := Moved(s.stack.known[key], to, detail);
    KnownWith(s.stack.known, s.journal.rows, o, s.now);
    WindowBounds(s.now, s.now);
    PlacedAfterPersist(s.journal.rows, o, s.now, DayStart(s.now));
  }

  /** The system after a run of allowed steps; none if a step was not allowed. */
  function Run(start: System, steps: seq<Step>): Option<System> {
    if steps == [] then Some(start)
    else
      match Run(start, steps[..|steps| - 1])
      case None => None
      case Some(before) => if Allowed(before, steps[|steps| - 1]) then Some(Next(before, steps[|steps| - 1])) else None
  }

  /** A stack just built on an empty journal. */
  predicate Fresh(s: System) {
    s.journal == Journal(map[], map[], []) && s.stack == Rebuilt(s.journal, s.now)
  }

  lemma {:induction false} EveryRunStaysInStep(start: System, steps: seq<Step>, end: System)
    requires Fresh(start) && Run(start, steps) == Some(end)
    ensures InStep(end)
    decreases |steps|
  {
    if steps == [] {
      RebuiltInStep(start.journal, start.now);
    } else {
      var before := Run(start, steps[..|steps| - 1]).value;
      EveryRunStaysInStep(start, steps[..|steps| - 1], before);
      NextKeepsInStep(before, steps[|steps| - 1]);
    }
  }

  // ------------------------------------------------------------------- the restart theorem

  /** At every point of every run, and at any later moment, the rebuilt stack is the one that never
      stopped, rolled to that moment: the same open book, the same counters and window, and, for
      every order of the last day, the same record with the same event log under the same key. */
  lemma RestartIsInvisible(start: System, steps: seq<Step>, end: System, now: int)
    requires Fresh(start) && Run(start, steps) == Some(end) && now >= end.now
    ensures var live, rebuilt := end.stack.(counters := RolledTo(end.stack.counters, now)), Rebuilt(end.journal, now);
            && rebuilt.counters == live.counters
            && OpenBook(rebuilt.book) == OpenBook(live.book)
            && (forall k :: k in rebuilt.known ==> k in live.known && rebuilt.known[k] == Columns(live.known[k]))
            && (forall k :: k in end.journal.rows && Recent(end.journal.rows[k], now) ==> k in rebuilt.known)
  {
    EveryRunStaysInStep(start, steps, end);
    RollKeepsCounters(end.stack.counters, end.journal, end.now, now);
    LaterStillMirrored(end.stack.known, end.journal.rows, end.now, now);
  }

  function NotionalOf(p: PositionValue): real {
    Abs(p.lot.quantity) * p.lot.averagePrice
  }

  ghost function OpenNotionals(book: Book): map<PositionKey, real> {
    map k | k in OpenBook(book) :: NotionalOf(OpenBook(book)[k])
  }

  ghost function Exposure(book: Book): real {
    Total(OpenNotionals(book))
  }

  /** What the gate is told about an order by a stack; `facts` is everything that is not its own,
      the account balance included. */
  ghost function ProposalOf(s: Stack, facts: R.Proposal, elsewhere: real): R.Proposal {
    facts.(openPositions := |OpenBook(s.book)|, tradesToday := s.counters.tradesToday, dailyPnl := s.counters.dailyPnl,
           weeklyPnl := s.counters.weeklyPnl, currentExposure := Exposure(s.book) + elsewhere,
           repeatedRejections := s.repeatedRejections)
  }

  lemma RejectionsOnlyMatterThere(limits: R.Limits, blocked: bool, p: R.Proposal, repeated: int)
    requires limits.maxRepeatedRejections > 0
    ensures R.Approves(limits, blocked, p.(repeatedRejections := repeated)) <==>
            R.Approves(limits, blocked, p.(repeatedRejections := 0)) && repeated < limits.maxRepeatedRejections
  {
    R.EntryChecksIgnoreRejections(limits, p, repeated, 0);
  }

  /** The gate cannot tell the restarted process from the one that never stopped, except for one
      count the journal does not hold: the run of consecutive broker rejections starts again. */
  lemma GateSeesTheRestartOnlyInRejections(start: System, steps: seq<Step>, end: System, now: int,
                                           limits: R.Limits, blocked: bool, facts: R.Proposal, elsewhere: real)
    requires Fresh(start) && Run(start, steps) == Some(end) && now >= end.now && limits.maxRepeatedRejections > 0
    ensures var live, rebuilt := end.stack.(counters := RolledTo(end.stack.counters, now)), Rebuilt(end.journal, now);
            R.Approves(limits, blocked, ProposalOf(live, facts, elsewhere)) <==>
            R.Approves(limits, blocked, ProposalOf(rebuilt, facts, elsewhere)) &&
              live.repeatedRejections < limits.maxRepeatedRejections
  {
    var live, rebuilt := end.stack.(counters := RolledTo(end.stack.counters, now)), Rebuilt(end.journal, now);
    RestartIsInvisible(start, steps, end, now);
    var p := ProposalOf(rebuilt, facts, elsewhere);
    assert ProposalOf(live, facts, elsewhere) == p.(repeatedRejections := live.repeatedRejections);
    RejectionsOnlyMatterThere(limits, blocked, p, live.repeatedRejections);
  }

  /** What the day's window on the order index costs: resubmitted to a restarted process, an order
      the journal holds is recognised if and only if its row is at most a day old; otherwise it is
      placed again, counted in memory, and leaves no row of its own. */
  lemma ResubmittedAfterRestart(j: Journal, r: Request)
    requires r.approved && E.Coherent(r.answer) && r.ticket.key in j.rows &&
             j.rows[r.ticket.key].saved.key == r.ticket.key
    ensures var s, row := Rebuilt(j, r.now), j.rows[r.ticket.key];
            var placed := PlacedSince(JournalAfter(j, s, r).rows, DayStart(r.now));
            && (IsNew(s.known, r) <==> !Recent(row, r.now))
            && placed == s.counters.tradesToday
            && (StackAfter(s, r).counters.tradesToday == placed <==> Recent(row, r.now))
  {
    E.SettledIdentity(SentOrder(r), r.answer);
    WindowBounds(r.now, r.now);
    PlacedAfterPersist(j.rows, FinalOrder(Rebuilt(j, r.now).known, r), r.now, DayStart(r.now));
  }

  // ------------------------------------------------------------ the two differences, reached

  /** An order the gate lets through and the broker turns down. */
  function TurnedDown(n: nat, now: int): Request {
    Request(now, n, OrderTicket(EntryKey("sweep", n), "user", "A", LONG, MARKET, 1.0, None), 0.5, true,
            B.Answer(n, REJECTED, 0.0, None, Some("refused")), None)
  }

  function Rejections(count: nat, now: int): (steps: seq<Step>)
    ensures |steps| == count
  {
    seq(count, (i: nat) => PLACE(TurnedDown(i, now)))
  }

  /** After that many rejections in a row from a fresh start: they are counted, nothing is held. */
  ghost predicate AfterRejections(s: System, count: nat, now: int) {
    && s.now == now && s.stack.repeatedRejections == count && s.stack.book == map[] && s.journal.openRows == map[]
    && s.stack.counters == Counters(count, 0.0, 0.0, Some(Day(now)), Some(Week(now)))
    && (forall k :: k in s.stack.known || k in s.journal.rows ==>
          exists i: nat :: i < count && k == EntryKey("sweep", i))
  }

  lemma RejectionCounts(s: System, count: nat, now: int)
    requires AfterRejections(s, count, now)
    ensures Allowed(s, PLACE(TurnedDown(count, now)))
    ensures AfterRejections(Next(s, PLACE(TurnedDown(count, now))), count + 1, now)
  {
    var r := TurnedDown(count, now);
    E.SettledIdentity(SentOrder(r), r.answer);
    assert FinalOrder(s.stack.known, r).status == REJECTED;
    var after := Next(s, PLACE(r));
    forall k | k in after.stack.known || k in after.journal.rows
      ensures exists i: nat :: i < count + 1 && k == EntryKey("sweep", i)
    {
      if k != r.ticket.key {
        var i: nat :| i < count && k == EntryKey("sweep", i);
        assert i < count + 1;
      }
    }
  }

  lemma {:induction false} RejectionsAreReached(start: System, count: nat)
    requires Fresh(start)
    ensures Run(start, Rejections(count, start.now)).Some?
    ensures AfterRejections(Run(start, Rejections(count, start.now)).value, count, start.now)
  {
    if count == 0 {
      FreshCounters(start);
    } else {
      RejectionsAreReached(start, count - 1);
      var steps, last := Rejections(count - 1, start.now), PLACE(TurnedDown(count - 1, start.now));
      assert Rejections(count, start.now) == steps + [last];
      hide Run, AfterRejections, Next, Allowed, Rejections;
      var before := Run(start, steps).value;
      RejectionCounts(before, count - 1, start.now);
      RunAppend(start, steps, last, before);
    }
  }

  lemma FreshCounters(start: System)
    requires Fresh(start)
    ensures AfterRejections(start, 0, start.now)
  {
    assert start.stack.known == map[];
    NoOrdersSinceLater(start.journal.rows, DayStart(start.now));
  }

  const THREE_REJECTIONS := R.Limits(1.0, 5.0, 10.0, 5, 10, 100.0, None, 100.0, 100.0, 60.0, 3, 5.0, 5.0)

  /** One unit at 1 with a stop at half, on a balance of 100 and fresh data. */
  const SMALL_ENTRY := R.Proposal(1.0, 0.5, 100.0, 0, 0, 0.0, 0.0, 0.0, 0.0, 0.0, Some(0.0), true, 0, 0.0, 0.0, None,
                                  Some(1.0), false)

  lemma SmallEntryPasses()
    ensures R.Approves(THREE_REJECTIONS, false, SMALL_ENTRY.(tradesToday := 3))
  {
    assert R.PctOf(1.0, 100.0) == 1.0 && R.PctOf(0.0, 100.0) == 0.0;
  }

  lemma NothingHeld(s: Stack)
    requires s.book == map[]
    ensures OpenBook(s.book) == map[] && Exposure(s.book) == 0.0
  {
    assert OpenNotionals(s.book) == map[];
  }

  /** A restart between a run of rejections and the next order decides it: three orders in a row are
      turned down, and the live process refuses what the restarted one approves. */
  lemma RestartForgetsRejections(start: System)
    requires Fresh(start)
    ensures var steps := Rejections(3, start.now);
            && Run(start, steps).Some?
            && Run(start, steps + [RESTART(start.now)]).Some?
            && var live := Run(start, steps).value.stack;
               var restarted := Run(start, steps + [RESTART(start.now)]).value.stack;
               && !R.Approves(THREE_REJECTIONS, false, ProposalOf(live, SMALL_ENTRY, 0.0))
               && R.Approves(THREE_REJECTIONS, false, ProposalOf(restarted, SMALL_ENTRY, 0.0))
  {
    var steps := Rejections(3, start.now);
    RejectionsAreReached(start, 3);
    var end := Run(start, steps).value;
    assert Allowed(end, RESTART(start.now)) && Next(end, RESTART(start.now)).stack == Rebuilt(end.journal, end.now);
    hide Run, AfterRejections, Next, Allowed, R.Approves, ProposalOf, Rebuilt, Rejections;
    RunAppend(start, steps, RESTART(start.now), end);
    AfterThree(start, steps, end);
  }

  lemma RunAppend(start: System, steps: seq<Step>, step: Step, before: System)
    requires Run(start, steps) == Some(before) && Allowed(before, step)
    ensures Run(start, steps + [step]) == Some(Next(before, step))
  {
    assert (steps + [step])[..|steps|] == steps;
  }

  lemma AfterThree(start: System, steps: seq<Step>, end: System)
    requires Fresh(start) && Run(start, steps) == Some(end) && AfterRejections(end, 3, start.now)
    ensures !R.Approves(THREE_REJECTIONS, false, ProposalOf(end.stack, SMALL_ENTRY, 0.0))
    ensures R.Approves(THREE_REJECTIONS, false, ProposalOf(Rebuilt(end.journal, end.now), SMALL_ENTRY, 0.0))
  {
    var rebuilt := Rebuilt(end.journal, end.now);
    assert RolledTo(end.stack.counters, end.now) == end.stack.counters;
    RestartIsInvisible(start, steps, end, end.now);
    NothingHeld(end.stack);
    NothingHeld(rebuilt);
    SmallEntryPasses();
    hide R.Approves, OpenBook, Exposure;
    assert ProposalOf(rebuilt, SMALL_ENTRY, 0.0) == SMALL_ENTRY.(tradesToday := 3);
    GateSeesTheRestartOnlyInRejections(start, steps, end, end.now, THREE_REJECTIONS, false, SMALL_ENTRY, 0.0);
  }

  /** And every order ever placed can be forgotten: restarted more than a day later, the process takes
      the same request for a new one, places it again, and counts a trade its journal does not have. */
  lemma ForgottenOrderIsPlacedAgain(start: System, r: Request, later: int)
    requires Fresh(start) && r.approved && E.Coherent(r.answer) && r.now >= start.now
    requires later > r.now + ORDER_REHYDRATION_WINDOW
    ensures Run(start, [PLACE(r), RESTART(later)]).Some?
    ensures var s, again := Run(start, [PLACE(r), RESTART(later)]).value, r.(now := later);
            && IsNew(s.stack.known, again)
            && StackAfter(s.stack, again).counters.tradesToday
               == PlacedSince(JournalAfter(s.journal, s.stack, again).rows, DayStart(later)) + 1
  {
    var again := r.(now := later);
    PlacedFirst(start, r);
    var placed := Next(start, PLACE(r));
    assert [PLACE(r)] + [RESTART(later)] == [PLACE(r), RESTART(later)];
    assert Next(placed, RESTART(later)) == System(Rebuilt(placed.journal, later), placed.journal, later);
    hide Run, Rebuilt, JournalAfter, PlacedSince;
    RunAppend(start, [PLACE(r)], RESTART(later), placed);
    ResubmittedAfterRestart(placed.journal, again);
    OneMore(placed.journal, again);
  }

  lemma PlacedFirst(start: System, r: Request)
    requires Fresh(start) && r.approved && E.Coherent(r.answer) && r.now >= start.now
    ensures Allowed(start, PLACE(r)) && Run(start, [PLACE(r)]) == Some(Next(start, PLACE(r)))
    ensures var rows := Next(start, PLACE(r)).journal.rows;
            r.ticket.key in rows && rows[r.ticket.key].createdAt == r.now &&
              rows[r.ticket.key].saved.key == r.ticket.key
    ensures Next(start, PLACE(r)).now == r.now
  {
    E.SettledIdentity(SentOrder(r), r.answer);
    assert SentOrder(r).key == r.ticket.key && start.stack.known == map[];
    hide E.Settled, SentOrder;
    assert [PLACE(r)][..0] == [];
  }

  /** A new key counts one more trade in the stack just rebuilt. */
  lemma OneMore(j: Journal, r: Request)
    requires r.approved && E.Coherent(r.answer) && IsNew(Rebuilt(j, r.now).known, r)
    ensures StackAfter(Rebuilt(j, r.now), r).counters.tradesToday == Rebuilt(j, r.now).counters.tradesToday + 1
  {
    RolledIsItself(j, r.now);
  }

  lemma RolledIsItself(j: Journal, now: int)
    ensures RolledTo(Rebuilt(j, now).counters, now) == Rebuilt(j, now).counters
  {}

  // ---------------------------------------------------------------------- the mutable form

  class TradingJournal {
    var rows: map<OrderKey, OrderRow>
    var openRows: map<PositionKey, PositionValue>
    var trades: seq<TradeRow>

    function State(): Journal
      reads this
    {
      Journal(rows, openRows, trades)
    }

    method SaveOrder(order: OrderValue, now: int)
      modifies this
      ensures State() == old(State()).(rows := PersistOrder(old(rows), order, now))
    {
      if order.key !in rows {
        rows := rows[order.key := OrderRow(order.(filledQuantity := 0.0, averageFillPrice := None), now)];
      } else {
        var row := rows[order.key];
        var persisted := |row.saved.events|;
        var events := row.saved.events;
        var i := persisted;
        while i < |order.events|
          invariant persisted <= i && (i <= |order.events| || i == persisted)
          invariant events == row.saved.events + if persisted <= |order.events| then order.events[persisted..i] else []
        {
          events := events + [order.events[i]];
          i := i + 1;
        }
        assert persisted <= |order.events| ==> order.events[persisted..i] == order.events[persisted..];
        assert events == row.saved.events + if persisted <= |order.events| then order.events[persisted..] else [];
        rows := rows[order.key := row.(saved := row.saved.(status := order.status, brokerOrderId := order.brokerOrderId,
                                                           rejectionReason := order.rejectionReason,
                                                           events := events))];
      }
    }

    method SavePosition(key: PositionKey, p: PositionValue)
      modifies this
      ensures State() == old(State()).(openRows := PersistPosition(old(openRows), key, p))
    {
      if p.IsOpen() {
        openRows := openRows[key := p];
      } else {
        openRows := openRows - {key};
      }
    }

    method RecordTrade(pnl: real, now: int)
      modifies this
      ensures State() == old(State()).(trades := old(trades) + [TradeRow(pnl, now)])
    {
      trades := trades + [TradeRow(pnl, now)];
    }

    method LoadRealizedPnlSince(since: int) returns (total: real)
      ensures total == RealizedSince(trades, since)
    {
      total := 0.0;
      for i := 0 to |trades|
        invariant total == RealizedSince(trades[..i], since)
      {
        assert trades[..i + 1][..i] == trades[..i];
        if trades[i].closedAt >= since {
          total := total + trades[i].pnl;
        }
      }
      assert trades[..|trades|] == trades;
    }
  }

  class UserTradingStack {
    var known: map<OrderKey, OrderValue>
    var book: Book
    var tradesToday: int
    var dailyPnl: real
    var weeklyPnl: real
    var repeatedRejections: int
    var riskDay: Option<int>
    var riskWeek: Option<int>

    function CountersNow(): Counters
      reads this
    {
      Counters(tradesToday, dailyPnl, weeklyPnl, riskDay, riskWeek)
    }

    function State(): Stack
      reads this
    {
      Stack(known, book, CountersNow(), repeatedRejections)
    }

    /** The rebuild in `_stack_for`. */
    constructor Rebuild(journal: TradingJournal, now: int)
      ensures State() == Rebuilt(journal.State(), now)
    {
      known := RecentOrders(journal.rows, now);
      book := journal.openRows;
      tradesToday := PlacedSince(journal.rows, DayStart(now));
      dailyPnl := RealizedSince(journal.trades, DayStart(now));
      weeklyPnl := RealizedSince(journal.trades, WeekStart(now));
      repeatedRejections := 0;
      riskDay, riskWeek := Some(Day(now)), Some(Week(now));
    }

    method RollRiskWindow(now: int)
      modifies this
      ensures State() == old(State()).(counters := RolledTo(old(CountersNow()), now))
    {
      if riskDay.Some? && Day(now) != riskDay.value {
        tradesToday, dailyPnl := 0, 0.0;
      }
      if riskWeek.Some? && Week(now) != riskWeek.value {
        weeklyPnl := 0.0;
      }
      riskDay, riskWeek := Some(Day(now)), Some(Week(now));
    }

    /** Create and settle the order, if its key is new. */
    method Settle(r: Request) returns (order: OrderValue, created: bool)
      requires E.Coherent(r.answer)
      modifies this
      ensures order == FinalOrder(old(known), r) && created == IsNew(old(known), r)
      ensures known == old(known)[r.ticket.key := order] && book == FilledBook(old(book), r, created)
      ensures CountersNow() == old(CountersNow()).(tradesToday := old(tradesToday) + if created then 1 else 0)
      ensures repeatedRejections
                == if created then (if order.status == REJECTED then old(repeatedRejections) + 1 else 0)
                  else old(repeatedRejections)
    {
      created := r.ticket.key !in known;
      order := if created then E.Settled(SentOrder(r), r.answer) else known[r.ticket.key];
      if created {
        book := E.SettledBook(book, SentOrder(r), r.answer);
        tradesToday := tradesToday + 1;
        repeatedRejections := if order.status == REJECTED then repeatedRejections + 1 else 0;
      }
      known := known[r.ticket.key := order];
    }

    /** Guard the position, mirror it, and journal what the fill realized. */
    method KeepPosition(journal: TradingJournal, r: Request, key: PositionKey, justFilled: bool, existed: bool,
                        realizedBefore: real)
      requires key in book
      modifies this, journal
      ensures var p := Guarded(old(book)[key], r, justFilled);
              var delta := if existed then p.lot.realizedPnl - realizedBefore else 0.0;
              && State() == old(State()).(book := old(book)[key := p],
                                          counters := old(CountersNow()).(dailyPnl := old(dailyPnl) + delta,
                                                                          weeklyPnl := old(weeklyPnl) + delta))
              && journal.State() == Journal(old(journal.rows), PersistPosition(old(journal.openRows), key, p),
                                            Journalled(old(journal.trades), delta, r.now))
    {
      var position := book[key];
      if position.IsOpen() && position.IsLong() == (r.ticket.direction == LONG) {
        position := position.(stop := Some(r.stop));
      }
      if justFilled {
        position := position.(protectiveOrderId := r.protective);
      }
      book := book[key := position];
      journal.SavePosition(key, position);
      var delta := position.lot.realizedPnl - realizedBefore;
      if delta != 0.0 && existed {
        dailyPnl, weeklyPnl := dailyPnl + delta, weeklyPnl + delta;
        journal.RecordTrade(delta, r.now);
      }
    }

    /** `place_order`, with the gate's verdict and the broker's answer in the request. */
    method PlaceOrder(journal: TradingJournal, r: Request)
      requires E.Coherent(r.answer)
      modifies this, journal
      ensures State() == StackAfter(old(State()), r)
      ensures journal.State() == JournalAfter(old(journal.State()), old(State()), r)
    {
      RollRiskWindow(r.now);
      if r.approved {
        PlaceApproved(journal, r);
      }
    }

    /** What follows the gate's approval. */
    method PlaceApproved(journal: TradingJournal, r: Request)
      requires E.Coherent(r.answer)
      modifies this, journal
      ensures State() == StackPlaced(old(State()), r)
      ensures journal.State() == JournalPlaced(old(journal.State()), old(State()), r)
    {
      hide FinalOrder, FilledBook, PersistOrder, StackPlaced, JournalPlaced, Guarded;
      ghost var s, j := State(), journal.State();
      var key := PositionKey(r.ticket.accountId, r.ticket.symbol);
      var existed := key in book;
      var realizedBefore := if existed then book[key].lot.realizedPnl else 0.0;
      var order, created := Settle(r);
      ghost var filled := book;
      journal.SaveOrder(order, r.now);
      PlacedByParts(s, j, r, order, created, filled);
      if key in book {
        KeepPosition(journal, r, key, JustFilled(order.status, created), existed, realizedBefore);
      } else {
        PositionsAreKept(s.book, r, created);
      }
    }
  }

  /** The parts a placed order is made of, in the order the code makes them. */
  lemma PlacedByParts(s: Stack, j: Journal, r: Request, order: OrderValue, created: bool, filled: Book)
    requires E.Coherent(r.answer) && order == FinalOrder(s.known, r) && created == IsNew(s.known, r)
    requires filled == FilledBook(s.book, r, created)
    ensures var key := PositionKeyOf(r);
            var book :=
              if key in filled then filled[key := Guarded(filled[key], r, JustFilled(order.status, created))]
              else filled;
            var delta := RealizedDelta(s.book, book, key);
            && StackPlaced(s, r) ==
               Stack(s.known[r.ticket.key := order], book, Counted(s.counters, created, delta),
                     if created then (if order.status == REJECTED then s.repeatedRejections + 1 else 0)
                       else s.repeatedRejections)
            && JournalPlaced(j, s, r) ==
               Journal(PersistOrder(j.rows, order, r.now),
                       if key in book then PersistPosition(j.openRows, key, book[key]) else j.openRows,
                       Journalled(j.trades, delta, r.now))
  {}

  lemma PositionsAreKept(book: Book, r: Request, isNew: bool)
    requires E.Coherent(r.answer)
    ensures forall k :: k in book ==> k in FilledBook(book, r, isNew)
  {}
}
