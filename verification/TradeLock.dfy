/**
Two engines on one account (`POST /orders` and the auto-trader) behind the per-account trade lock
(`acquire_trade_lock`, `release_trade_lock`). Each keeps its own book in memory and mirrors it into
the shared table; each gates its entries on its own book plus the other's mirror.

A run is any interleaving of their steps. The lock expires on its own, and an engine is never told:
it only remembers the lease it took. That such an engine still owns the key until its lease runs
out is proved from SET NX and compare-and-delete, and mutual exclusion from that.
*/
module TradeLock {
  import opened Common
  import opened Netting
  import R = Risk

  datatype Engine = MANUAL | AUTO {
    function Other(): Engine {
      if MANUAL? then AUTO else MANUAL
    }
  }

  const TTL := 8

  // ----------------------------------------------------------------------------- the lock

  /** The key's value and when it expires. */
  datatype Lease = Lease(token: nat, expiresAt: int)

  predicate Free(lock: Option<Lease>, now: int) {
    lock.None? || lock.value.expiresAt <= now
  }

  /** SET NX PX: take the key if it is free. */
  function Taken(lock: Option<Lease>, now: int, token: nat): Option<Lease> {
    if Free(lock, now) then Some(Lease(token, now + TTL)) else lock
  }

  /** Compare and delete. */
  function ReleasedBy(lock: Option<Lease>, now: int, token: nat): Option<Lease> {
    if !Free(lock, now) && lock.value.token == token then None else lock
  }

  class TradeLockKey {
    var lock: Option<Lease>

    constructor ()
      ensures lock == None
    {
      lock := None;
    }

    /** One turn of the polling loop of `acquire_trade_lock`. */
    method TryAcquire(now: int, token: nat) returns (acquired: bool)
      modifies this
      ensures lock == Taken(old(lock), now, token) && acquired == old(Free(lock, now))
    {
      acquired := lock.None? || lock.value.expiresAt <= now;
      if acquired {
        lock := Some(Lease(token, now + TTL));
      }
    }

    /** `release_trade_lock`: a holder whose lease ran out leaves the next holder's lock alone. */
    method Release(now: int, token: nat)
      modifies this
      ensures lock == ReleasedBy(old(lock), now, token)
      ensures !old(Free(lock, now)) && old(lock).value.token != token ==> lock == old(lock)
    {
      if lock.Some? && now < lock.value.expiresAt && lock.value.token == token {
        lock := None;
      }
    }
  }

  // ------------------------------------------------------------------- the books and exposure

  type Book = map<string, Lot>

  function NotionalOf(p: Lot): real {
    Abs(p.quantity) * p.averagePrice
  }

  ghost function Notionals(book: Book): map<string, real> {
    map s | s in book :: NotionalOf(book[s])
  }

  /** Gross exposure of one book. */
  ghost function Gross(book: Book): real {
    Total(Notionals(book))
  }

  predicate Priced(book: Book) {
    forall s :: s in book ==> book[s].averagePrice >= 0.0
  }

  lemma GrossUpdate(book: Book, symbol: string, p: Lot)
    ensures Gross(book[symbol := p]) == Gross(book) - NotionalOf(LotOf(book, symbol)) + NotionalOf(p)
  {
    hide NotionalOf, Total;
    NotionalsUpdate(book, symbol, p);
    NotionalAt(book, symbol);
    hide Notionals, LotOf;
    TotalUpdate(Notionals(book), symbol, NotionalOf(p));
  }

  lemma NotionalAt(book: Book, symbol: string)
    ensures NotionalOf(LotOf(book, symbol)) == if symbol in Notionals(book) then Notionals(book)[symbol] else 0.0
  {}

  lemma NotionalsUpdate(book: Book, symbol: string, p: Lot)
    ensures Notionals(book[symbol := p]) == Notionals(book)[symbol := NotionalOf(p)]
  {
    hide NotionalOf;
  }

  predicate Opposes(p: Lot, direction: Direction) {
    p.quantity != 0.0 && (p.quantity > 0.0) != direction.LONG?
  }

  lemma DivideBackAbs(cost: real, q: real)
    requires q != 0.0
    ensures cost >= 0.0 && q > 0.0 ==> Abs(q) * (cost / q) == cost && cost / q >= 0.0
    ensures cost <= 0.0 && q < 0.0 ==> Abs(q) * (cost / q) == -cost && cost / q >= 0.0
  {
    DivideBack(cost, q);
    if q > 0.0 {
      DivOrder(cost, q, 0.0);
    } else {
      DivOrder(-cost, -q, 0.0);
      assert cost / q == -cost / -q;
    }
  }

  /** An entry adds exactly its own notional. */
  lemma EntryAddsNotional(p: Lot, f: Fill)
    requires !Opposes(p, f.direction) && p.averagePrice >= 0.0 && f.price >= 0.0
    ensures NotionalOf(NetLot(p, f)) == NotionalOf(p) + (f.quantity as real) * f.price
    ensures NetLot(p, f).averagePrice >= 0.0
  {
    var signed := f.Signed();
    var cost := p.averagePrice * p.quantity + f.price * signed;
    if f.direction.LONG? {
      assert p.averagePrice * p.quantity >= 0.0 && f.price * signed >= 0.0;
    } else {
      assert p.averagePrice * p.quantity <= 0.0 && f.price * signed <= 0.0;
    }
    DivideBackAbs(cost, p.quantity + signed);
  }

  /** A reduction clamped to the position never raises it. */
  lemma ReductionLowersNotional(p: Lot, f: Fill)
    requires Opposes(p, f.direction) && f.quantity <= Abs(p.quantity) && p.averagePrice >= 0.0
    ensures NotionalOf(NetLot(p, f)) <= NotionalOf(p) && NetLot(p, f).averagePrice >= 0.0
  {
    ReducingNeverFlips(p, f);
    var after := NetLot(p, f);
    if after.quantity != 0.0 {
      assert NotionalOf(after) == NotionalOf(p) - (f.quantity as real) * p.averagePrice;
      assert (f.quantity as real) * p.averagePrice >= 0.0;
    } else {
      assert NotionalOf(after) == 0.0;
      assert NotionalOf(p) >= 0.0;
    }
  }

  // ------------------------------------------------------------------------ the step system

  datatype Order = Order(symbol: string, direction: Direction, quantity: Quantity, entry: real)

  /** Where an engine stands in its critical section, with the lease it took on the way in. */
  datatype Phase =
    | IDLE
    | LOCKED(lease: Lease)
    | INFORMED(lease: Lease, elsewhere: real)
    | APPROVED(lease: Lease, order: Order)
    | FILLED(lease: Lease)
    | RELEASING(lease: Lease)

  /** One of something for each engine. */
  datatype Both<T> = Both(manual: T, auto: T) {
    function Of(e: Engine): T {
      if e.MANUAL? then manual else auto
    }

    function With(e: Engine, t: T): Both<T> {
      if e.MANUAL? then Both(t, auto) else Both(manual, t)
    }
  }

  /** `bound` is the exposure limit on the balance the last approved entry was gated on. */
  datatype State = State(
    now: int,
    lock: Option<Lease>,
    nextToken: nat,
    phases: Both<Phase>,
    live: Both<Book>,
    mirror: Both<Book>,
    bound: real)

  datatype Step =
    | TICK(until: int)
    | ACQUIRE(engine: Engine)
    | LOOK(engine: Engine)
    | GATE(engine: Engine, symbol: string, direction: Direction, quantity: Quantity, limits: R.Limits,
           facts: R.Proposal)
    | FILL(engine: Engine, filled: Quantity, price: real)
    | REJECT(engine: Engine)
    | PERSIST(engine: Engine)
    | RELEASE(engine: Engine)

  ghost function TotalGross(s: State): real {
    Gross(s.live.manual) + Gross(s.live.auto)
  }

  function PhaseOf(s: State, e: Engine): Phase {
    s.phases.Of(e)
  }

  function At(s: State, e: Engine, phase: Phase): State {
    s.(phases := s.phases.With(e, phase))
  }

  /** An opposing order is clamped to what is open. */
  function Sized(p: Lot, direction: Direction, quantity: Quantity): Quantity {
    if Opposes(p, direction) && Abs(p.quantity) < quantity then Abs(p.quantity) else quantity
  }

  /** The proposal the gate evaluates: the engine's own book and what it read of the other's. */
  ghost function ProposalFor(own: Book, elsewhere: real, symbol: string, direction: Direction, quantity: Quantity,
                             facts: R.Proposal): R.Proposal {
    var p := LotOf(own, symbol);
    facts.(currentExposure := Gross(own) + elsewhere, isReducing := Opposes(p, direction),
           proposedQuantity := Some(Sized(p, direction, quantity)))
  }

  function LimitOn(balance: real, pct: real): real {
    balance * pct / 100.0
  }

  function Acquired(s: State, e: Engine): State {
    At(s, e, LOCKED(Lease(s.nextToken, s.now + TTL))).(lock := Taken(s.lock, s.now, s.nextToken),
                                                       nextToken := s.nextToken + 1)
  }

  function Approved(s: State, e: Engine, o: Order, bound: real): State
    requires !PhaseOf(s, e).IDLE?
  {
    At(s, e, APPROVED(PhaseOf(s, e).lease, o)).(bound := bound)
  }

  ghost function Gated(s: State, e: Engine, symbol: string, direction: Direction, quantity: Quantity, limits: R.Limits,
                       facts: R.Proposal): State
    requires PhaseOf(s, e).INFORMED?
  {
    var proposal := ProposalFor(s.live.Of(e), PhaseOf(s, e).elsewhere, symbol, direction, quantity, facts);
    if !R.Approves(limits, false, proposal) then At(s, e, RELEASING(PhaseOf(s, e).lease))
    else
      Approved(s, e, Order(symbol, direction, proposal.proposedQuantity.value, facts.entry),
               if proposal.isReducing then s.bound else LimitOn(facts.accountBalance, limits.maxExposurePct))
  }

  function AfterFill(s: State, e: Engine, filled: Quantity, price: real): State
    requires PhaseOf(s, e).APPROVED?
  {
    var o := PhaseOf(s, e).order;
    At(s, e, Phase.FILLED(PhaseOf(s, e).lease))
    .(live := s.live.With(e, BookApply(s.live.Of(e), Execution(o.symbol, Fill(o.direction, filled, price)))))
  }

  ghost function Next(s: State, step: Step): State {
    match step
    case TICK(until) => if until >= s.now then s.(now := until) else s
    case ACQUIRE(e) => if PhaseOf(s, e).IDLE? && Free(s.lock, s.now) then Acquired(s, e) else s
    case LOOK(e) =>
      if PhaseOf(s, e).LOCKED? then At(s, e, INFORMED(PhaseOf(s, e).lease, Gross(s.mirror.Of(e.Other())))) else s
    case GATE(e, symbol, direction, quantity, limits, facts) =>
      if PhaseOf(s, e).INFORMED? && facts.entry > 0.0 then Gated(s, e, symbol, direction, quantity, limits, facts)
        else s
    case FILL(e, filled, price) =>
      if PhaseOf(s, e).APPROVED? && filled <= PhaseOf(s, e).order.quantity && price > 0.0
      then AfterFill(s, e, filled, price) else s
    case REJECT(e) => if PhaseOf(s, e).APPROVED? then At(s, e, RELEASING(PhaseOf(s, e).lease)) else s
    case PERSIST(e) =>
      if PhaseOf(s, e).FILLED? then At(s, e, RELEASING(PhaseOf(s, e).lease)).(mirror := s.mirror.With(e, s.live.Of(e)))
        else s
    case RELEASE(e) =>
      if PhaseOf(s, e).RELEASING? then At(s, e, IDLE).(lock := ReleasedBy(s.lock, s.now, PhaseOf(s, e).lease.token))
        else s
  }

  // ----------------------------------------------------------------------- mutual exclusion

  predicate Inside(s: State, e: Engine) {
    !PhaseOf(s, e).IDLE?
  }

  /** The lease the engine remembers has not run out. */
  predicate InTime(s: State, e: Engine)
    requires Inside(s, e)
  {
    s.now < PhaseOf(s, e).lease.expiresAt
  }

  /** No hold has outlived its lease. Nothing is said of the key. */
  predicate Timely(s: State) {
    && (Inside(s, MANUAL) ==> InTime(s, MANUAL))
    && (Inside(s, AUTO) ==> InTime(s, AUTO))
  }

  /** An engine inside and in time: the key holds its lease. */
  predicate OwnsWhileInTime(s: State, e: Engine) {
    Inside(s, e) && InTime(s, e) ==> s.lock == Some(PhaseOf(s, e).lease)
  }

  predicate TokensFresh(s: State) {
    && (s.lock.Some? ==> s.lock.value.token < s.nextToken)
    && (Inside(s, MANUAL) ==> s.phases.manual.lease.token < s.nextToken)
    && (Inside(s, AUTO) ==> s.phases.auto.lease.token < s.nextToken)
    && (Inside(s, MANUAL) && Inside(s, AUTO) ==> s.phases.manual.lease.token != s.phases.auto.lease.token)
  }

  /** What the lock protocol keeps, whatever the clock does. */
  predicate Locking(s: State) {
    TokensFresh(s) && OwnsWhileInTime(s, MANUAL) && OwnsWhileInTime(s, AUTO)
  }

  lemma AcquiringKeepsLocking(s: State, e: Engine)
    requires Locking(s) && !Inside(s, e) && Free(s.lock, s.now)
    ensures Locking(Acquired(s, e))
  {
    assert OwnsWhileInTime(s, e.Other());
  }

  lemma ReleasingKeepsLocking(s: State, e: Engine)
    requires Locking(s) && Inside(s, e)
    ensures Locking(At(s, e, IDLE).(lock := ReleasedBy(s.lock, s.now, PhaseOf(s, e).lease.token)))
  {
    assert OwnsWhileInTime(s, e.Other());
  }

  /** Steps inside keep the lease the engine came in with, and do not touch the key. */
  lemma WorkingKeepsLocking(s: State, after: State, e: Engine)
    requires Locking(s) && Inside(s, e) && Inside(after, e)
    requires PhaseOf(after, e).lease == PhaseOf(s, e).lease && PhaseOf(after, e.Other()) == PhaseOf(s, e.Other())
    requires after.lock == s.lock && after.now == s.now && after.nextToken == s.nextToken
    ensures Locking(after)
  {
    assert OwnsWhileInTime(s, e) && OwnsWhileInTime(s, e.Other());
  }

  /** Taking the key only when it is free and deleting it only under one's own token is what keeps
      an engine the owner of the key for as long as its lease runs: over every step, with no
      assumption on how long anyone takes. */
  lemma NextKeepsLocking(s: State, step: Step)
    requires Locking(s)
    ensures Locking(Next(s, step))
  {
    match step
    case TICK(_) =>
    case ACQUIRE(e) =>
      if !Inside(s, e) && Free(s.lock, s.now) {
        AcquiringKeepsLocking(s, e);
      }
    case RELEASE(e) =>
      if PhaseOf(s, e).RELEASING? {
        ReleasingKeepsLocking(s, e);
      }
    case LOOK(e) => WorkingStep(s, step, e);
    case REJECT(e) => WorkingStep(s, step, e);
    case PERSIST(e) => WorkingStep(s, step, e);
    case FILL(e, _, _) => WorkingStep(s, step, e);
    case GATE(e, _, _, _, _, _) => WorkingStep(s, step, e);
  }

  lemma WorkingStep(s: State, step: Step, e: Engine)
    requires Locking(s) && !step.TICK? && !step.ACQUIRE? && !step.RELEASE? && step.engine == e
    ensures Locking(Next(s, step))
  {
    if Next(s, step) != s {
      WorkingKeepsLocking(s, Next(s, step), e);
    }
  }

  ghost function Run(s: State, steps: seq<Step>): State {
    if steps == [] then s else Next(Run(s, steps[..|steps| - 1]), steps[|steps| - 1])
  }

  /** Neither engine holding anything, nothing in flight. */
  predicate Opening(s: State) {
    && s.lock == None && s.bound == 0.0 && s.phases == Both(IDLE, IDLE)
    && s.live == Both(map[], map[]) && s.mirror == Both(map[], map[])
  }

  /** After every run, timely or not, an engine inside whose lease still runs owns the key; so when
      no hold has outlived its lease, at most one engine is in its critical section. */
  lemma {:induction false} AtMostOneInside(s: State, steps: seq<Step>)
    requires Opening(s)
    ensures Locking(Run(s, steps))
    ensures Timely(Run(s, steps)) ==> !Inside(Run(s, steps), MANUAL) || !Inside(Run(s, steps), AUTO)
  {
    if steps != [] {
      AtMostOneInside(s, steps[..|steps| - 1]);
      NextKeepsLocking(Run(s, steps[..|steps| - 1]), steps[|steps| - 1]);
    }
    LockingExcludes(Run(s, steps));
  }

  lemma LockingExcludes(s: State)
    requires Locking(s)
    ensures Timely(s) ==> !Inside(s, MANUAL) || !Inside(s, AUTO)
  {
    assert OwnsWhileInTime(s, MANUAL) && OwnsWhileInTime(s, AUTO);
  }

  /** A release, however late, never removes the lock of a holder whose lease still runs. */
  lemma StaleReleaseIsHarmless(s: State, e: Engine)
    requires Locking(s) && Inside(s, e.Other()) && InTime(s, e.Other())
    ensures Next(s, RELEASE(e)).lock == s.lock == Some(PhaseOf(s, e.Other()).lease)
  {
    assert OwnsWhileInTime(s, e.Other());
  }

  /** Once a lease has run out the other engine can get in while the first is still at work. */
  lemma OutlivedLeaseLetsBothIn(s: State, e: Engine)
    requires Locking(s) && Inside(s, e) && InTime(s, e) && !Inside(s, e.Other())
    ensures var late := Next(Next(s, TICK(PhaseOf(s, e).lease.expiresAt)), ACQUIRE(e.Other()));
            Inside(late, e) && Inside(late, e.Other()) && !Timely(late)
  {
    assert OwnsWhileInTime(s, e);
  }

  // ------------------------------------------------------------------------ the exposure limit

  /** Outside the moment between a fill and its mirroring, the mirror is the book. */
  predicate Mirrored(s: State) {
    forall e: Engine :: !PhaseOf(s, e).FILLED? ==> s.mirror.Of(e) == s.live.Of(e)
  }

  /** What an engine read of the other still stands while it is inside. */
  ghost predicate Current(s: State) {
    forall e: Engine :: PhaseOf(s, e).INFORMED? ==> PhaseOf(s, e).elsewhere == Gross(s.live.Of(e.Other()))
  }

  function Cost(quantity: real, price: real): real {
    quantity * price
  }

  /** An approved order fits: a reduction is clamped, an entry leaves the exposure within the bound. */
  ghost predicate Room(s: State, e: Engine) {
    PhaseOf(s, e).APPROVED? ==>
      var o := PhaseOf(s, e).order;
      && o.entry > 0.0
      && (if Opposes(LotOf(s.live.Of(e), o.symbol), o.direction)
          then o.quantity <= Abs(LotOf(s.live.Of(e), o.symbol).quantity)
          else TotalGross(s) + Cost(o.quantity as real, o.entry) <= s.bound)
  }

  ghost predicate Bounded(s: State) {
    TotalGross(s) <= s.bound && Room(s, MANUAL) && Room(s, AUTO)
  }

  predicate AllPriced(s: State) {
    Priced(s.live.manual) && Priced(s.live.auto)
  }

  ghost predicate Safe(s: State) {
    Locking(s) && Timely(s) && Mirrored(s) && Current(s) && AllPriced(s) && Bounded(s)
  }

  lemma CostPositive(quantity: real, price: real)
    requires quantity >= 0.0 && price >= 0.0
    ensures Cost(quantity, price) >= 0.0
  {}

  lemma EntryWithinLimit(limits: R.Limits, p: R.Proposal, quantity: real)
    requires R.Approves(limits, false, p) && !p.isReducing && p.proposedQuantity == Some(quantity)
    ensures p.currentExposure + Cost(quantity, p.entry) <= LimitOn(p.accountBalance, limits.maxExposurePct)
  {
    R.ApprovedEntryWithinExposure(limits, p);
  }

  lemma ApprovedKeepsBounded(s: State, e: Engine, o: Order, bound: real)
    requires Bounded(s) && PhaseOf(s, e).INFORMED? && !Inside(s, e.Other()) && o.entry > 0.0
    requires if Opposes(LotOf(s.live.Of(e), o.symbol), o.direction)
             then bound == s.bound && o.quantity <= Abs(LotOf(s.live.Of(e), o.symbol).quantity)
             else TotalGross(s) + Cost(o.quantity as real, o.entry) <= bound
    ensures Bounded(Approved(s, e, o, bound))
  {
    CostPositive(o.quantity as real, o.entry);
  }

  lemma GatedKeepsBounded(s: State, e: Engine, symbol: string, direction: Direction, quantity: Quantity,
                          limits: R.Limits, facts: R.Proposal)
    requires Bounded(s) && Current(s) && PhaseOf(s, e).INFORMED? && !Inside(s, e.Other()) && facts.entry > 0.0
    ensures Bounded(Gated(s, e, symbol, direction, quantity, limits, facts))
  {
    var proposal := ProposalFor(s.live.Of(e), PhaseOf(s, e).elsewhere, symbol, direction, quantity, facts);
    if R.Approves(limits, false, proposal) {
      var size := proposal.proposedQuantity.value;
      if !proposal.isReducing {
        EntryWithinLimit(limits, proposal, size);
      }
      ApprovedKeepsBounded(s, e, Order(symbol, direction, size, facts.entry),
                           if proposal.isReducing then s.bound
                             else LimitOn(facts.accountBalance, limits.maxExposurePct));
    }
  }

  lemma LotPriced(book: Book, symbol: string)
    requires Priced(book)
    ensures LotOf(book, symbol).averagePrice >= 0.0
  {}

  /** What a fill of an order adds to gross exposure at most: its own cost, or nothing if it reduces. */
  function AddedBy(p: Lot, o: Order, filled: Quantity, price: real): real {
    if Opposes(p, o.direction) then 0.0 else Cost(filled as real, price)
  }

  /** The fill costs no more than the gate was told: at or below the gated price, whichever side, or
      for less than the whole quantity. An exit may come at any price. */
  predicate WithinGate(p: Lot, o: Order, filled: Quantity, price: real) {
    Opposes(p, o.direction) || Cost(filled as real, price) <= Cost(o.quantity as real, o.entry)
  }

  lemma FillAdds(book: Book, o: Order, filled: Quantity, price: real)
    requires Priced(book) && filled <= o.quantity && price > 0.0
    requires Opposes(LotOf(book, o.symbol), o.direction) ==> o.quantity <= Abs(LotOf(book, o.symbol).quantity)
    ensures var p, after := LotOf(book, o.symbol), NetLot(LotOf(book, o.symbol), Fill(o.direction, filled, price));
            && after.averagePrice >= 0.0
            && NotionalOf(after) <= NotionalOf(p) + AddedBy(p, o, filled, price)
            && (!Opposes(p, o.direction) ==> NotionalOf(after) == NotionalOf(p) + AddedBy(p, o, filled, price))
  {
    var p, f := LotOf(book, o.symbol), Fill(o.direction, filled, price);
    LotPriced(book, o.symbol);
    if Opposes(p, o.direction) {
      ReductionLowersNotional(p, f);
    } else {
      EntryAddsNotional(p, f);
      assert Cost(filled as real, price) == (f.quantity as real) * f.price;
    }
  }

  lemma BookWith(book: Book, symbol: string, p: Lot)
    requires Priced(book) && p.averagePrice >= 0.0
    ensures Priced(book[symbol := p])
    ensures Gross(book[symbol := p]) == Gross(book) - NotionalOf(LotOf(book, symbol)) + NotionalOf(p)
  {
    GrossUpdate(book, symbol, p);
  }

  /** The account's gross exposure after a fill: an entry adds exactly its cost, a clamped reduction
      nothing. */
  lemma FillMovesGross(s: State, e: Engine, filled: Quantity, price: real)
    requires AllPriced(s) && PhaseOf(s, e).APPROVED? && Room(s, e) && filled <= PhaseOf(s, e).order.quantity &&
             price > 0.0
    ensures var p, after := LotOf(s.live.Of(e), PhaseOf(s, e).order.symbol), AfterFill(s, e, filled, price);
            && AllPriced(after)
            && TotalGross(after) <= TotalGross(s) + AddedBy(p, PhaseOf(s, e).order, filled, price)
            && (!Opposes(p, PhaseOf(s, e).order.direction) ==>
                  TotalGross(after) == TotalGross(s) + AddedBy(p, PhaseOf(s, e).order, filled, price))
  {
    var o, book := PhaseOf(s, e).order, s.live.Of(e);
    FillAdds(book, o, filled, price);
    BookWith(book, o.symbol, NetLot(LotOf(book, o.symbol), Fill(o.direction, filled, price)));
  }

  /** A fill leaves the exposure within the bound if and only if it reduces or its own cost fits
      under it, at whatever price it came. */
  lemma FillFitsIff(s: State, e: Engine, filled: Quantity, price: real)
    requires AllPriced(s) && PhaseOf(s, e).APPROVED? && Bounded(s) && filled <= PhaseOf(s, e).order.quantity &&
             price > 0.0
    ensures var p, o := LotOf(s.live.Of(e), PhaseOf(s, e).order.symbol), PhaseOf(s, e).order;
            TotalGross(AfterFill(s, e, filled, price)) <= s.bound <==>
            Opposes(p, o.direction) || TotalGross(s) + Cost(filled as real, price) <= s.bound
  {
    assert Room(s, e);
    FillMovesGross(s, e, filled, price);
  }

  lemma FillKeepsBounded(s: State, e: Engine, filled: Quantity, price: real)
    requires Bounded(s) && AllPriced(s) && PhaseOf(s, e).APPROVED? && !Inside(s, e.Other())
    requires filled <= PhaseOf(s, e).order.quantity && price > 0.0
    requires WithinGate(LotOf(s.live.Of(e), PhaseOf(s, e).order.symbol), PhaseOf(s, e).order, filled, price)
    ensures Bounded(AfterFill(s, e, filled, price)) && AllPriced(AfterFill(s, e, filled, price))
  {
    assert Room(s, e);
    FillMovesGross(s, e, filled, price);
  }

  /** The gate is told a quantity at an entry; with no room to spare, a full fill keeps the exposure
      within the bound exactly when it comes at or below that price. For a short a fill above its
      entry is the better price, and breaks the bound all the same. */
  lemma FullFillWithNoSlack(s: State, e: Engine, price: real)
    requires AllPriced(s) && Bounded(s) && PhaseOf(s, e).APPROVED? && price > 0.0
    requires !Opposes(LotOf(s.live.Of(e), PhaseOf(s, e).order.symbol), PhaseOf(s, e).order.direction)
    requires TotalGross(s) + Cost(PhaseOf(s, e).order.quantity as real, PhaseOf(s, e).order.entry) == s.bound
    ensures TotalGross(AfterFill(s, e, PhaseOf(s, e).order.quantity, price)) <= s.bound <==>
              price <= PhaseOf(s, e).order.entry
  {
    var o := PhaseOf(s, e).order;
    FillFitsIff(s, e, o.quantity, price);
    CostOrder(o.quantity as real, price, o.entry);
  }

  /** An account of 100 at a 100% limit, a first entry of one unit at 100. */
  predicate TightEntry(limits: R.Limits, facts: R.Proposal) {
    && limits.maxExposurePct == 100.0 && limits.maxStrategyAllocationPct == 100.0 &&
       limits.maxCorrelatedExposurePct == 100.0
    && limits.maxDailyLossPct > 0.0 && limits.maxWeeklyLossPct > 0.0 && limits.maxOpenPositions > 0 &&
       limits.maxTradesPerDay > 0
    && facts.entry == 100.0 && facts.stop == 105.0 && facts.accountBalance == 100.0
    && facts.dailyPnl == 0.0 && facts.weeklyPnl == 0.0 && facts.openPositions == 0 && facts.tradesToday == 0
    && facts.strategyAllocation == 0.0 && facts.correlatedExposure == 0.0
    && R.GeneralChecksPass(limits, facts)
  }

  const TIGHT_LIMITS := R.Limits(1.0, 5.0, 10.0, 5, 10, 100.0, None, 100.0, 100.0, 60.0, 3, 5.0, 5.0)

  const TIGHT_FACTS :=
    R.Proposal(100.0, 105.0, 100.0, 0, 0, 0.0, 0.0, 0.0, 0.0, 0.0, Some(0.0), true, 0, 0.0, 0.0, None, None, false)

  /** There are such limits and such an entry. */
  lemma TightEntryExists()
    ensures TightEntry(TIGHT_LIMITS, TIGHT_FACTS)
  {}

  lemma TightNotional(limits: R.Limits, p: R.Proposal)
    requires p.proposedQuantity == Some(1.0) && p.entry == 100.0 && p.stop == 105.0
    ensures R.Notional(limits, p) == 100.0 && R.SignedNotional(limits, p) == -100.0
  {}

  lemma WholeAndNothing()
    ensures R.PctOf(100.0, 100.0) == 100.0 && R.PctOf(0.0, 100.0) == 0.0
  {}

  lemma TightEntryIsApproved(limits: R.Limits, facts: R.Proposal)
    requires TightEntry(limits, facts)
    ensures R.Approves(limits, false,
                       facts.(currentExposure := 0.0, isReducing := false, proposedQuantity := Some(1.0)))
  {
    hide R.Notional, R.SignedNotional, R.PctOf;
    var p := facts.(currentExposure := 0.0, isReducing := false, proposedQuantity := Some(1.0));
    TightNotional(limits, p);
    WholeAndNothing();
  }

  /** Such a short, filled one above its entry, takes the account over its limit: a run in which the
      lock was held throughout and the gate approved exactly what the limit allows. */
  lemma ShortFilledHigherOverruns(s: State, limits: R.Limits, facts: R.Proposal)
    requires Opening(s) && TightEntry(limits, facts)
    ensures var gated := Next(Next(Next(s, ACQUIRE(MANUAL)), LOOK(MANUAL)),
                              GATE(MANUAL, "A", SHORT, 1.0, limits, facts));
            var filled := Next(gated, FILL(MANUAL, 1.0, 101.0));
            && PhaseOf(filled, MANUAL).FILLED? && Timely(filled) && Safe(gated)
            && TotalGross(filled) > filled.bound
  {
    OpeningIsSafe(s);
    var empty: Book := map[];
    assert Notionals(empty) == map[] && Gross(empty) == 0.0;
    var informed := Next(Next(s, ACQUIRE(MANUAL)), LOOK(MANUAL));
    NextKeepsSafe(s, ACQUIRE(MANUAL));
    NextKeepsSafe(Next(s, ACQUIRE(MANUAL)), LOOK(MANUAL));
    TightEntryIsApproved(limits, facts);
    var gated := Next(informed, GATE(MANUAL, "A", SHORT, 1.0, limits, facts));
    assert ProposalFor(empty, 0.0, "A", SHORT, 1.0, facts)
        == facts.(currentExposure := 0.0, isReducing := false, proposedQuantity := Some(1.0));
    assert gated == Approved(informed, MANUAL, Order("A", SHORT, 1.0, 100.0), LimitOn(100.0, 100.0));
    NextKeepsSafe(informed, GATE(MANUAL, "A", SHORT, 1.0, limits, facts));
    hide R.Approves;
    FullFillWithNoSlack(gated, MANUAL, 101.0);
  }

  lemma CostOrder(quantity: real, price: real, other: real)
    requires quantity > 0.0
    ensures Cost(quantity, price) <= Cost(quantity, other) <==> price <= other
  {
    if price <= other {
      assert quantity * (other - price) >= 0.0;
    } else {
      assert quantity * (price - other) > 0.0;
    }
  }

  /** A step that is not an entry filled for more than it was gated at. */
  predicate FillsWithinGate(s: State, step: Step) {
    step.FILL? && PhaseOf(s, step.engine).APPROVED? && step.filled <= PhaseOf(s, step.engine).order.quantity ==>
      WithinGate(LotOf(s.live.Of(step.engine), PhaseOf(s, step.engine).order.symbol), PhaseOf(s, step.engine).order,
                 step.filled, step.price)
  }

  lemma NextKeepsBounded(s: State, step: Step)
    requires Safe(s) && FillsWithinGate(s, step)
    ensures Bounded(Next(s, step)) && AllPriced(Next(s, step))
  {
    LockingExcludes(s);
    match step
    case TICK(_) => case ACQUIRE(_) => case LOOK(_) => case REJECT(_) => case PERSIST(_) => case RELEASE(_) =>
    case GATE(e, symbol, direction, quantity, limits, facts) =>
      if PhaseOf(s, e).INFORMED? && facts.entry > 0.0 {
        GatedKeepsBounded(s, e, symbol, direction, quantity, limits, facts);
        GateTouchesNoBook(s, e, symbol, direction, quantity, limits, facts);
      }
    case FILL(e, filled, price) =>
      if PhaseOf(s, e).APPROVED? && filled <= PhaseOf(s, e).order.quantity && price > 0.0 {
        FillKeepsBounded(s, e, filled, price);
      }
  }

  lemma GateTouchesNoBook(s: State, e: Engine, symbol: string, direction: Direction, quantity: Quantity,
                          limits: R.Limits, facts: R.Proposal)
    requires PhaseOf(s, e).INFORMED?
    ensures var after := Gated(s, e, symbol, direction, quantity, limits, facts);
            && after.live == s.live && after.mirror == s.mirror && after.lock == s.lock && after.now == s.now
            && PhaseOf(after, e.Other()) == PhaseOf(s, e.Other())
            && (PhaseOf(after, e).APPROVED? || PhaseOf(after, e).RELEASING?)
  {}

  lemma NextKeepsBooksInStep(s: State, step: Step)
    requires Safe(s)
    ensures Mirrored(Next(s, step)) && Current(Next(s, step))
  {
    LockingExcludes(s);
    match step
    case TICK(_) => case ACQUIRE(_) => case LOOK(_) => case REJECT(_) => case PERSIST(_) => case RELEASE(_) =>
    case FILL(_, _, _) =>
    case GATE(e, symbol, direction, quantity, limits, facts) =>
      if PhaseOf(s, e).INFORMED? && facts.entry > 0.0 {
        GateTouchesNoBook(s, e, symbol, direction, quantity, limits, facts);
      }
  }

  lemma NextKeepsSafe(s: State, step: Step)
    requires Safe(s) && FillsWithinGate(s, step) && Timely(Next(s, step))
    ensures Safe(Next(s, step))
  {
    NextKeepsLocking(s, step);
    NextKeepsBooksInStep(s, step);
    NextKeepsBounded(s, step);
  }

  /** All along the run no hold outlives its lease and no entry fills for more than it was gated at. */
  ghost predicate Orderly(s: State, steps: seq<Step>)
    decreases |steps|
  {
    && Timely(Run(s, steps))
    && (steps != [] ==>
          Orderly(s, steps[..|steps| - 1]) && FillsWithinGate(Run(s, steps[..|steps| - 1]), steps[|steps| - 1]))
  }

  lemma OpeningIsSafe(s: State)
    requires Opening(s)
    ensures Safe(s)
  {
    var empty: Book := map[];
    assert Notionals(empty) == map[];
    assert Gross(empty) == 0.0;
  }

  /** In every interleaving of the two engines in which no hold outlives its lease and no entry
      fills for more than it was gated at, the account's gross exposure, both books together, is
      within the exposure limit on the balance the last approved entry was gated on. */
  lemma {:induction false} ExposureStaysWithinLimit(s: State, steps: seq<Step>)
    requires Opening(s) && Orderly(s, steps)
    ensures Safe(Run(s, steps)) && TotalGross(Run(s, steps)) <= Run(s, steps).bound
    decreases |steps|
  {
    if steps == [] {
      OpeningIsSafe(s);
    } else {
      ExposureStaysWithinLimit(s, steps[..|steps| - 1]);
      NextKeepsSafe(Run(s, steps[..|steps| - 1]), steps[|steps| - 1]);
    }
  }
}
