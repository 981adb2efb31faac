/**
A multi-leg options batch (`_submit_leg`, the leg loop of `execute_options_strategy` and
`_remediate_partial_batch`): each leg is its own order, the batch measures what it newly opens,
and a batch that only partly executed gives exactly that back.

A broker may answer each order in any way; its answers are parameters.
*/
module OptionsBatch {
  import opened Common
  import opened Netting
  import opened Positions
  import opened Orders
  import E = Execution
  import B = Broker

  datatype Leg = Leg(symbol: string, direction: Direction, quantity: Quantity)

  /** The account's two books. */
  datatype Account = Account(orders: OrderBook, book: Book)

  /** What one leg newly opened, and so what has to be given back. */
  datatype Opening = Opening(symbol: string, direction: Direction, quantity: real)

  datatype LegResult = LegResult(symbol: string, status: OrderStatus)

  datatype LegOutcome = LegOutcome(account: Account, status: OrderStatus, newly: real)

  predicate Indexed(b: OrderBook) {
    forall k :: k in b.byKey ==> b.byKey[k] in b.orders
  }

  // --------------------------------------------------------------------------- one leg

  function SignedHeld(book: Book, user: string, symbol: string): real {
    PositionOf(book, PositionKey(user, symbol)).lot.quantity
  }

  /** Brand-new exposure, from the position's quantities before and after a fill. */
  function OpenedBetween(before: real, after: real): real {
    if after == 0.0 then 0.0
    else if before == 0.0 || (before > 0.0) != (after > 0.0) then Abs(after)
    else Max(0.0, Abs(after) - Abs(before))
  }

  function Approved(o: OrderValue, reason: string): OrderValue {
    Moved(Moved(Moved(o, VALIDATING, ""), RISK_APPROVED, reason), SUBMITTED, "sent to broker")
  }

  /** `_submit_leg`: a key seen before changes nothing and opens nothing. */
  function SubmitLeg(a: Account, t: OrderTicket, reason: string, answer: B.Answer): LegOutcome
    requires Indexed(a.orders) && E.Coherent(answer)
  {
    var (orders, id, created) := Create(a.orders, t);
    if !created then LegOutcome(a, a.orders.orders[id].status, 0.0)
    else
      var o := Approved(NewOrder(id, t), reason);
      var settled := E.Settled(o, answer);
      var book := E.SettledBook(a.book, o, answer);
      LegOutcome(Account(E.With(orders, settled), book), settled.status,
                 if E.MovesPosition(answer)
                 then OpenedBetween(SignedHeld(a.book, t.accountId, t.symbol), SignedHeld(book, t.accountId, t.symbol))
                 else 0.0)
  }

  /** `now` is nothing, or no more of what `before` was. */
  predicate NoWorseThan(before: real, now: real) {
    now == 0.0 || (before != 0.0 && (now > 0.0) == (before > 0.0) && Abs(now) <= Abs(before))
  }

  /** Taking `newly` back out on the other side of `direction` leaves no more than there was, which is not
      so before it is taken back. */
  predicate GivesBack(before: real, now: real, direction: Direction, newly: real) {
    && 0.0 < newly <= Abs(now) && (now > 0.0) == direction.LONG?
    && NoWorseThan(before, now - direction.Sign() * newly)
    && !NoWorseThan(before, now)
  }

  lemma OpenedRule(before: real, f: Fill)
    ensures var now := before + f.Signed();
            var newly := OpenedBetween(before, now);
            && newly >= 0.0
            && (newly > 0.0 ==> GivesBack(before, now, f.direction, newly))
            && (newly == 0.0 ==> NoWorseThan(before, now))
  {}

  /** The opened-quantity rule is exact: what it reports can be taken back without passing through
      flat, and taking it back leaves the position no worse than before the leg; when it reports
      nothing, the leg left it no worse. */
  lemma LegEffect(a: Account, t: OrderTicket, reason: string, answer: B.Answer)
    requires Indexed(a.orders) && E.Coherent(answer)
    ensures var out := SubmitLeg(a, t, reason, answer);
            var before := SignedHeld(a.book, t.accountId, t.symbol);
            var now := SignedHeld(out.account.book, t.accountId, t.symbol);
            && out.newly >= 0.0
            && (out.newly > 0.0 ==> t.key !in a.orders.byKey && GivesBack(before, now, t.direction, out.newly))
            && (out.newly == 0.0 ==> NoWorseThan(before, now))
  {
    if t.key !in a.orders.byKey && E.MovesPosition(answer) {
      var f := Fill(t.direction, answer.filledQuantity, answer.averageFillPrice.value);
      NetLotWorth(PositionOf(a.book, PositionKey(t.accountId, t.symbol)).lot, f, 0.0);
      OpenedRule(SignedHeld(a.book, t.accountId, t.symbol), f);
      hide NetLot, OpenedBetween, GivesBack, NoWorseThan;
    } else {
      hide GivesBack, OpenedBetween;
    }
  }

  lemma LegFrame(a: Account, t: OrderTicket, reason: string, answer: B.Answer)
    requires Indexed(a.orders) && E.Coherent(answer)
    ensures var out := SubmitLeg(a, t, reason, answer).account;
            && Indexed(out.orders)
            && (forall k :: k in out.orders.byKey <==> k in a.orders.byKey || k == t.key)
            && (t.key in a.orders.byKey ==> out == a)
            && (forall user, symbol :: (user, symbol) != (t.accountId, t.symbol) ==>
                  SignedHeld(out.book, user, symbol) == SignedHeld(a.book, user, symbol))
  {}

  // ------------------------------------------------------------------------- the batch

  datatype Batch = Batch(account: Account, results: seq<LegResult>, openings: seq<Opening>)

  /** A leg of an all-reducing batch is clamped to what is open. */
  function LegQuantity(book: Book, user: string, leg: Leg, reducing: bool): real {
    if reducing && PositionKey(user, leg.symbol) in book
    then Min(leg.quantity as real, Abs(SignedHeld(book, user, leg.symbol)))
    else leg.quantity as real
  }

  function LegTicket(book: Book, user: string, batch: nat, leg: Leg, reducing: bool): OrderTicket {
    OrderTicket(LegKey(batch, leg.symbol), user, leg.symbol, leg.direction, MARKET,
                LegQuantity(book, user, leg, reducing), None)
  }

  predicate AllCoherent(answers: seq<B.Answer>) {
    forall i :: 0 <= i < |answers| ==> E.Coherent(answers[i])
  }

  const BATCH_REASON := "options strategy batch"
  const UNWIND_REASON := "unwinding partially executed options batch"

  function WithLeg(s: Batch, user: string, batch: nat, leg: Leg, reducing: bool, answer: B.Answer): Batch
    requires Indexed(s.account.orders) && E.Coherent(answer)
  {
    var out := SubmitLeg(s.account, LegTicket(s.account.book, user, batch, leg, reducing), BATCH_REASON, answer);
    Batch(out.account, s.results + [LegResult(leg.symbol, out.status)],
          s.openings + if out.newly > 0.0 then [Opening(leg.symbol, leg.direction, out.newly)] else [])
  }

  /** The batch after its first `n` legs. */
  function Submitted(a: Account, user: string, batch: nat, legs: seq<Leg>, reducing: bool,
                     answers: seq<B.Answer>, n: nat): (s: Batch)
    requires n <= |legs| == |answers| && AllCoherent(answers) && Indexed(a.orders)
    ensures Indexed(s.account.orders) && |s.results| == n
  {
    if n == 0 then Batch(a, [], [])
    else
      var before := Submitted(a, user, batch, legs, reducing, answers, n - 1);
      LegFrame(before.account, LegTicket(before.account.book, user, batch, legs[n - 1], reducing), BATCH_REASON,
               answers[n - 1]);
      WithLeg(before, user, batch, legs[n - 1], reducing, answers[n - 1])
  }

  predicate HasOpening(openings: seq<Opening>, symbol: string) {
    exists i :: 0 <= i < |openings| && openings[i].symbol == symbol
  }

  predicate OneOpeningEach(openings: seq<Opening>) {
    forall i, j :: 0 <= i < j < |openings| ==> openings[i].symbol != openings[j].symbol
  }

  /** Where each instrument stands during the batch. */
  ghost predicate Accounted(start: Account, s: Batch, user: string, batch: nat, symbol: string) {
    var before, now := SignedHeld(start.book, user, symbol), SignedHeld(s.account.book, user, symbol);
    && (LegKey(batch, symbol) !in s.account.orders.byKey ==> now == before)
    && (!HasOpening(s.openings, symbol) ==> NoWorseThan(before, now))
    && (HasOpening(s.openings, symbol) ==> LegKey(batch, symbol) in s.account.orders.byKey)
  }

  ghost predicate OpeningsGiveBack(start: Account, s: Batch, user: string) {
    forall i :: 0 <= i < |s.openings| ==>
      GivesBack(SignedHeld(start.book, user, s.openings[i].symbol),
                SignedHeld(s.account.book, user, s.openings[i].symbol),
                s.openings[i].direction, s.openings[i].quantity)
  }

  lemma WithLegAccounted(start: Account, s: Batch, user: string, batch: nat, leg: Leg, reducing: bool, answer: B.Answer,
                         symbol: string)
    requires Indexed(s.account.orders) && E.Coherent(answer)
    requires Accounted(start, s, user, batch, symbol)
    ensures Accounted(start, WithLeg(s, user, batch, leg, reducing, answer), user, batch, symbol)
  {
    var t := LegTicket(s.account.book, user, batch, leg, reducing);
    var out, after := SubmitLeg(s.account, t, BATCH_REASON, answer), WithLeg(s, user, batch, leg, reducing, answer);
    LegEffect(s.account, t, BATCH_REASON, answer);
    LegFrame(s.account, t, BATCH_REASON, answer);
    OpeningsAfter(s.openings, if out.newly > 0.0 then [Opening(leg.symbol, leg.direction, out.newly)] else [], symbol);
  }

  lemma OpeningsAfter(openings: seq<Opening>, more: seq<Opening>, symbol: string)
    requires |more| <= 1
    ensures HasOpening(openings + more, symbol) <==>
              HasOpening(openings, symbol) || (more != [] && more[0].symbol == symbol)
  {
    var all := openings + more;
    if HasOpening(openings, symbol) {
      var i :| 0 <= i < |openings| && openings[i].symbol == symbol;
      assert all[i].symbol == symbol;
    }
    if more != [] && more[0].symbol == symbol {
      assert all[|openings|].symbol == symbol;
    }
  }

  lemma WithLegGivesBack(start: Account, s: Batch, user: string, batch: nat, leg: Leg, reducing: bool, answer: B.Answer)
    requires Indexed(s.account.orders) && E.Coherent(answer)
    requires forall symbol :: Accounted(start, s, user, batch, symbol)
    requires OneOpeningEach(s.openings) && OpeningsGiveBack(start, s, user)
    ensures var after := WithLeg(s, user, batch, leg, reducing, answer);
            OneOpeningEach(after.openings) && OpeningsGiveBack(start, after, user)
  {
    hide SubmitLeg, GivesBack, NoWorseThan;
    var t := LegTicket(s.account.book, user, batch, leg, reducing);
    var after := WithLeg(s, user, batch, leg, reducing, answer);
    LegEffect(s.account, t, BATCH_REASON, answer);
    LegFrame(s.account, t, BATCH_REASON, answer);
    assert Accounted(start, s, user, batch, leg.symbol);
    forall i | 0 <= i < |s.openings|
      ensures s.openings[i].symbol == leg.symbol ==> after.account == s.account && after.openings == s.openings
    {
      if s.openings[i].symbol == leg.symbol {
        assert HasOpening(s.openings, leg.symbol);
      }
    }
  }

  lemma {:induction false} SubmittedAccounted(a: Account, user: string, batch: nat, legs: seq<Leg>, reducing: bool,
                                              answers: seq<B.Answer>, n: nat)
    requires n <= |legs| == |answers| && AllCoherent(answers) && Indexed(a.orders)
    ensures var s := Submitted(a, user, batch, legs, reducing, answers, n);
            && (forall symbol :: Accounted(a, s, user, batch, symbol))
            && OneOpeningEach(s.openings) && OpeningsGiveBack(a, s, user)
            && (forall k :: k in s.account.orders.byKey ==>
                  k in a.orders.byKey || exists i :: 0 <= i < |legs| && k == LegKey(batch, legs[i].symbol))
  {
    hide SubmitLeg;
    if n > 0 {
      var before := Submitted(a, user, batch, legs, reducing, answers, n - 1);
      SubmittedAccounted(a, user, batch, legs, reducing, answers, n - 1);
      forall symbol ensures Accounted(a, Submitted(a, user, batch, legs, reducing, answers, n), user, batch, symbol) {
        WithLegAccounted(a, before, user, batch, legs[n - 1], reducing, answers[n - 1], symbol);
      }
      WithLegGivesBack(a, before, user, batch, legs[n - 1], reducing, answers[n - 1]);
      LegFrame(before.account, LegTicket(before.account.book, user, batch, legs[n - 1], reducing), BATCH_REASON,
               answers[n - 1]);
    }
  }

  // ------------------------------------------------------------------------ remediation

  predicate Established(status: OrderStatus) {
    status == FILLED || status == MONITORING
  }

  datatype Verdict = INTACT | NOTHING_OPENED | FATE_UNKNOWN | UNWIND

  predicate AnyUnknown(results: seq<LegResult>) {
    exists i :: 0 <= i < |results| && results[i].status == FAILED
  }

  predicate AllEstablished(results: seq<LegResult>) {
    forall i :: 0 <= i < |results| ==> Established(results[i].status)
  }

  predicate NoneEstablished(results: seq<LegResult>) {
    forall i :: 0 <= i < |results| ==> !Established(results[i].status)
  }

  function Decide(results: seq<LegResult>): Verdict {
    if !AnyUnknown(results) && AllEstablished(results) then INTACT
    else if NoneEstablished(results) && !AnyUnknown(results) then NOTHING_OPENED
    else if AnyUnknown(results) then FATE_UNKNOWN
    else UNWIND
  }

  function Closable(book: Book, user: string, o: Opening): real {
    Min(o.quantity, Abs(SignedHeld(book, user, o.symbol)))
  }

  function UnwindTicket(book: Book, user: string, batch: nat, o: Opening): OrderTicket {
    OrderTicket(UnwindKey(batch, o.symbol), user, o.symbol, o.direction.Opposite(), MARKET, Closable(book, user, o),
                None)
  }

  function UnwindOne(a: Account, user: string, batch: nat, o: Opening, answer: B.Answer): Account
    requires Indexed(a.orders) && E.Coherent(answer)
  {
    if Closable(a.book, user, o) <= 0.0 then a
    else SubmitLeg(a, UnwindTicket(a.book, user, batch, o), UNWIND_REASON, answer).account
  }

  function Unwound(a: Account, user: string, batch: nat,
                   openings: seq<Opening>, answers: seq<B.Answer>, n: nat): (r: Account)
    requires n <= |openings| == |answers| && AllCoherent(answers) && Indexed(a.orders)
    ensures Indexed(r.orders)
  {
    if n == 0 then a
    else
      var before := Unwound(a, user, batch, openings, answers, n - 1);
      LegFrame(before, UnwindTicket(before.book, user, batch, openings[n - 1]), UNWIND_REASON, answers[n - 1]);
      UnwindOne(before, user, batch, openings[n - 1], answers[n - 1])
  }

  /** The account after `_remediate_partial_batch`, and whether it is halted. */
  function Remediated(s: Batch, user: string, batch: nat, answers: seq<B.Answer>): (Account, bool)
    requires |s.openings| == |answers| && AllCoherent(answers) && Indexed(s.account.orders)
  {
    match Decide(s.results)
    case INTACT => (s.account, false)
    case NOTHING_OPENED => (s.account, false)
    case FATE_UNKNOWN => (s.account, true)
    case UNWIND => (Unwound(s.account, user, batch, s.openings, answers, |s.openings|), true)
  }

  /** An unwind order that the broker does not overfill never flips the position, whatever part of
      it fills. */
  lemma UnwindNeverFlips(a: Account, user: string, batch: nat, o: Opening, answer: B.Answer)
    requires Indexed(a.orders) && E.Coherent(answer)
    requires answer.filledQuantity <= Closable(a.book, user, o)
    requires SignedHeld(a.book, user, o.symbol) != 0.0 ==>
               (SignedHeld(a.book, user, o.symbol) > 0.0) == o.direction.LONG?
    ensures NoWorseThan(SignedHeld(a.book, user, o.symbol),
                        SignedHeld(UnwindOne(a, user, batch, o, answer).book, user, o.symbol))
  {}

  /** The broker fills the unwind order in full. */
  predicate FilledInFull(answer: B.Answer, quantity: real) {
    E.MovesPosition(answer) && answer.filledQuantity == quantity
  }

  lemma UnwindGivesBack(a: Account, user: string, batch: nat, o: Opening, before: real, answer: B.Answer)
    requires Indexed(a.orders) && E.Coherent(answer) && UnwindKey(batch, o.symbol) !in a.orders.byKey
    requires GivesBack(before, SignedHeld(a.book, user, o.symbol), o.direction, o.quantity)
    requires FilledInFull(answer, o.quantity)
    ensures NoWorseThan(before, SignedHeld(UnwindOne(a, user, batch, o, answer).book, user, o.symbol))
  {}

  lemma UnwindFrame(a: Account, user: string, batch: nat, o: Opening, answer: B.Answer)
    requires Indexed(a.orders) && E.Coherent(answer)
    ensures var r := UnwindOne(a, user, batch, o, answer);
            && Indexed(r.orders)
            && (forall k :: k in r.orders.byKey ==> k in a.orders.byKey || k == UnwindKey(batch, o.symbol))
            && (forall k :: k in a.orders.byKey ==> k in r.orders.byKey)
            && (forall symbol :: symbol != o.symbol ==>
                  SignedHeld(r.book, user, symbol) == SignedHeld(a.book, user, symbol))
  {
    LegFrame(a, UnwindTicket(a.book, user, batch, o), UNWIND_REASON, answer);
  }

  ghost predicate UnwoundSoFar(start: Account, s: Batch, now: Account, user: string, batch: nat, n: nat)
    requires n <= |s.openings|
  {
    && (forall i :: 0 <= i < n ==>
          NoWorseThan(SignedHeld(start.book, user, s.openings[i].symbol),
                      SignedHeld(now.book, user, s.openings[i].symbol)))
    && (forall i :: n <= i < |s.openings| ==>
          && SignedHeld(now.book, user, s.openings[i].symbol) == SignedHeld(s.account.book, user, s.openings[i].symbol)
          && UnwindKey(batch, s.openings[i].symbol) !in now.orders.byKey)
    && (forall symbol :: !HasOpening(s.openings, symbol) ==>
          SignedHeld(now.book, user, symbol) == SignedHeld(s.account.book, user, symbol))
  }

  /** What one filled unwind does: it gives its instrument back and touches no other. */
  ghost predicate UnwindDoes(now: Account, after: Account, user: string, batch: nat, symbol: string, before: real) {
    && NoWorseThan(before, SignedHeld(after.book, user, symbol))
    && (forall k :: k in after.orders.byKey ==> k in now.orders.byKey || k == UnwindKey(batch, symbol))
    && (forall other :: other != symbol ==> SignedHeld(after.book, user, other) == SignedHeld(now.book, user, other))
  }

  lemma UnwindOneDoes(now: Account, user: string, batch: nat, o: Opening, before: real, answer: B.Answer)
    requires Indexed(now.orders) && E.Coherent(answer) && UnwindKey(batch, o.symbol) !in now.orders.byKey
    requires GivesBack(before, SignedHeld(now.book, user, o.symbol), o.direction, o.quantity)
    requires FilledInFull(answer, o.quantity)
    ensures UnwindDoes(now, UnwindOne(now, user, batch, o, answer), user, batch, o.symbol, before)
  {
    UnwindFrame(now, user, batch, o, answer);
    UnwindGivesBack(now, user, batch, o, before, answer);
  }

  lemma UnwindStep(start: Account, s: Batch, now: Account, after: Account, user: string, batch: nat, n: nat)
    requires n < |s.openings| && OneOpeningEach(s.openings) && UnwoundSoFar(start, s, now, user, batch, n)
    requires UnwindDoes(now, after, user, batch, s.openings[n].symbol,
                        SignedHeld(start.book, user, s.openings[n].symbol))
    ensures UnwoundSoFar(start, s, after, user, batch, n + 1)
  {
    assert HasOpening(s.openings, s.openings[n].symbol);
  }

  lemma NextUnwindDoes(start: Account, s: Batch, user: string, batch: nat, answers: seq<B.Answer>, n: nat)
    requires 0 < n <= |s.openings| == |answers| && AllCoherent(answers) && Indexed(s.account.orders)
    requires OpeningsGiveBack(start, s, user) && FilledInFull(answers[n - 1], s.openings[n - 1].quantity)
    requires UnwoundSoFar(start, s, Unwound(s.account, user, batch, s.openings, answers, n - 1), user, batch, n - 1)
    ensures UnwindDoes(Unwound(s.account, user, batch, s.openings, answers, n - 1),
                       Unwound(s.account, user, batch, s.openings, answers, n),
                       user, batch, s.openings[n - 1].symbol, SignedHeld(start.book, user, s.openings[n - 1].symbol))
  {
    var o := s.openings[n - 1];
    UnwindOneDoes(Unwound(s.account, user, batch, s.openings, answers, n - 1), user, batch, o,
                  SignedHeld(start.book, user, o.symbol), answers[n - 1]);
  }

  lemma {:induction false} UnwoundGivesBack(start: Account, s: Batch, user: string, batch: nat,
                                            answers: seq<B.Answer>, n: nat)
    requires n <= |s.openings| == |answers| && AllCoherent(answers) && Indexed(s.account.orders)
    requires OneOpeningEach(s.openings) && OpeningsGiveBack(start, s, user)
    requires forall i :: 0 <= i < |s.openings| ==> UnwindKey(batch, s.openings[i].symbol) !in s.account.orders.byKey
    requires forall i :: 0 <= i < |s.openings| ==> FilledInFull(answers[i], s.openings[i].quantity)
    ensures UnwoundSoFar(start, s, Unwound(s.account, user, batch, s.openings, answers, n), user, batch, n)
  {
    hide SubmitLeg;
    if n > 0 {
      UnwoundGivesBack(start, s, user, batch, answers, n - 1);
      NextUnwindDoes(start, s, user, batch, answers, n);
      UnwindStep(start, s, Unwound(s.account, user, batch, s.openings, answers, n - 1),
                 Unwound(s.account, user, batch, s.openings, answers, n), user, batch, n - 1);
    }
  }

  /** Unwind orders are only ever created for a batch whose leg on that symbol was. */
  ghost predicate UnwindsFollowLegs(b: OrderBook, batch: nat) {
    forall symbol :: UnwindKey(batch, symbol) in b.byKey ==> LegKey(batch, symbol) in b.byKey
  }

  /** The unwinds, if any are sent, all fill in full. */
  ghost predicate UnwindsFill(s: Batch, unwinds: seq<B.Answer>) {
    && |unwinds| == |s.openings| && AllCoherent(unwinds)
    && forall i :: 0 <= i < |s.openings| ==> FilledInFull(unwinds[i], s.openings[i].quantity)
  }

  /** No instrument is left with more than it had before the batch, or on the other side. */
  ghost predicate NothingWorse(before: Account, after: Account, user: string) {
    forall symbol :: NoWorseThan(SignedHeld(before.book, user, symbol), SignedHeld(after.book, user, symbol))
  }

  lemma NothingOpenedNothingWorse(a: Account, s: Batch, user: string, batch: nat)
    requires (forall symbol :: Accounted(a, s, user, batch, symbol)) && s.openings == []
    ensures NothingWorse(a, s.account, user)
  {
    hide NoWorseThan;
    forall symbol ensures NoWorseThan(SignedHeld(a.book, user, symbol), SignedHeld(s.account.book, user, symbol)) {
      assert Accounted(a, s, user, batch, symbol);
    }
  }

  lemma AllUnwoundNothingWorse(a: Account, s: Batch, now: Account, user: string, batch: nat)
    requires (forall symbol :: Accounted(a, s, user, batch, symbol))
    requires UnwoundSoFar(a, s, now, user, batch, |s.openings|)
    ensures NothingWorse(a, now, user)
  {
    hide NoWorseThan;
    forall symbol ensures NoWorseThan(SignedHeld(a.book, user, symbol), SignedHeld(now.book, user, symbol)) {
      assert Accounted(a, s, user, batch, symbol);
    }
  }

  /** Every batch that did not execute completely, each unwind it sends filled: it ends with no
      instrument worse than before if and only if it opened nothing, or no leg's fate is unknown and
      some leg was completely filled. Otherwise what it opened stays open: on purpose where a fate is
      unknown, and by omission where every fill was partial. */
  lemma BatchIsGivenBackIff(a: Account, user: string, batch: nat, legs: seq<Leg>, reducing: bool,
                            answers: seq<B.Answer>, unwinds: seq<B.Answer>)
    requires |legs| == |answers| && AllCoherent(answers) && Indexed(a.orders) && UnwindsFollowLegs(a.orders, batch)
    requires var s := Submitted(a, user, batch, legs, reducing, answers, |legs|);
             UnwindsFill(s, unwinds) && Decide(s.results) != INTACT
    ensures var s := Submitted(a, user, batch, legs, reducing, answers, |legs|);
            NothingWorse(a, Remediated(s, user, batch, unwinds).0, user) <==>
            s.openings == [] || (!AnyUnknown(s.results) && !NoneEstablished(s.results))
  {
    hide SubmitLeg, NoWorseThan;
    var s := Submitted(a, user, batch, legs, reducing, answers, |legs|);
    SubmittedAccounted(a, user, batch, legs, reducing, answers, |legs|);
    OpeningsAreFresh(a, user, batch, legs, reducing, answers, |legs|);
    FreshUnwinds(a.orders, s, batch);
    RemediationOf(a, s, user, batch, unwinds);
  }

  lemma RemediationOf(a: Account, s: Batch, user: string, batch: nat, unwinds: seq<B.Answer>)
    requires (forall symbol :: Accounted(a, s, user, batch, symbol)) && OneOpeningEach(s.openings) &&
             OpeningsGiveBack(a, s, user)
    requires Indexed(s.account.orders) && UnwindsFill(s, unwinds) && Decide(s.results) != INTACT
    requires forall i :: 0 <= i < |s.openings| ==> UnwindKey(batch, s.openings[i].symbol) !in s.account.orders.byKey
    ensures NothingWorse(a, Remediated(s, user, batch, unwinds).0, user) <==>
            s.openings == [] || (!AnyUnknown(s.results) && !NoneEstablished(s.results))
  {
    hide SubmitLeg;
    if Decide(s.results) == UNWIND {
      UnwoundGivesBack(a, s, user, batch, unwinds, |s.openings|);
      AllUnwoundNothingWorse(a, s, Remediated(s, user, batch, unwinds).0, user, batch);
    } else if s.openings == [] {
      NothingOpenedNothingWorse(a, s, user, batch);
    } else {
      var o := s.openings[0];
      assert GivesBack(SignedHeld(a.book, user, o.symbol), SignedHeld(s.account.book, user, o.symbol), o.direction,
                       o.quantity);
    }
  }

  lemma HalfFilledLeg(a: Account, t: OrderTicket, answer: B.Answer)
    requires a == Account(EMPTY_BOOK, map[]) && t.direction == LONG && t.quantity == 10.0
    requires answer.status == PARTIALLY_FILLED && answer.filledQuantity == 5.0 && answer.averageFillPrice.Some?
    ensures E.Coherent(answer)
    ensures var out := SubmitLeg(a, t, BATCH_REASON, answer);
            out.status == PARTIALLY_FILLED && out.newly == 5.0 &&
              SignedHeld(out.account.book, t.accountId, t.symbol) == 5.0
            && Indexed(out.account.orders)
  {}

  lemma OneLeg(a: Account, user: string, batch: nat, leg: Leg, answer: B.Answer)
    requires Indexed(a.orders) && E.Coherent(answer)
    ensures Submitted(a, user, batch, [leg], false, [answer], 1)
              == WithLeg(Batch(a, [], []), user, batch, leg, false, answer)
  {
    hide SubmitLeg, WithLeg;
    assert Submitted(a, user, batch, [leg], false, [answer], 0) == Batch(a, [], []);
  }

  lemma PartialIsNotEstablished(symbol: string)
    ensures Decide([LegResult(symbol, PARTIALLY_FILLED)]) == NOTHING_OPENED
  {
    assert !Established([LegResult(symbol, PARTIALLY_FILLED)][0].status);
  }

  /** The omission, on the smallest batch: from flat, one leg for ten that fills five counts as not
      established and not unknown, so nothing is unwound, nothing halted, and five stay open. */
  lemma PartialFillStaysOpen(a: Account, user: string, batch: nat, leg: Leg, answer: B.Answer, unwinds: seq<B.Answer>)
    requires a == Account(EMPTY_BOOK, map[]) && leg.direction == LONG && leg.quantity == 10.0
    requires answer.status == PARTIALLY_FILLED && answer.filledQuantity == 5.0 && answer.averageFillPrice.Some?
    requires |unwinds| == 1 && AllCoherent(unwinds)
    ensures AllCoherent([answer])
    ensures var s := Submitted(a, user, batch, [leg], false, [answer], 1);
            && s.openings == [Opening(leg.symbol, LONG, 5.0)] && SignedHeld(s.account.book, user, leg.symbol) == 5.0
            && Decide(s.results) == NOTHING_OPENED && Remediated(s, user, batch, unwinds) == (s.account, false)
  {
    HalfFilledLeg(a, LegTicket(a.book, user, batch, leg, false), answer);
    OneLeg(a, user, batch, leg, answer);
    PartialIsNotEstablished(leg.symbol);
    hide SubmitLeg, Submitted, Decide;
    var s := Submitted(a, user, batch, [leg], false, [answer], 1);
    assert s.openings == [Opening(leg.symbol, LONG, 5.0)] && s.results == [LegResult(leg.symbol, PARTIALLY_FILLED)];
  }

  /** So for every batch, whatever its id: what `BatchIsGivenBackIff` asks of the book it starts from. */
  ghost predicate AllUnwindsFollowLegs(b: OrderBook) {
    forall batch :: UnwindsFollowLegs(b, batch)
  }

  /** The keys `after` has and `before` had not are leg and unwind keys of one batch. */
  ghost predicate AddsKeysOf(before: OrderBook, after: OrderBook, batch: nat) {
    && (forall k :: k in before.byKey ==> k in after.byKey)
    && (forall k :: k in after.byKey && k !in before.byKey ==> (k.LegKey? || k.UnwindKey?) && k.batch == batch)
  }

  lemma OtherBatchesUnmoved(before: OrderBook, after: OrderBook, batch: nat)
    requires AddsKeysOf(before, after, batch) && AllUnwindsFollowLegs(before) && UnwindsFollowLegs(after, batch)
    ensures AllUnwindsFollowLegs(after)
  {
    forall other ensures UnwindsFollowLegs(after, other) {
      assert UnwindsFollowLegs(before, other);
    }
  }

  lemma {:induction false} SubmittedAddsKeys(a: Account, user: string, batch: nat, legs: seq<Leg>, reducing: bool,
                                             answers: seq<B.Answer>, n: nat)
    requires n <= |legs| == |answers| && AllCoherent(answers) && Indexed(a.orders)
    ensures AddsKeysOf(a.orders, Submitted(a, user, batch, legs, reducing, answers, n).account.orders, batch)
  {
    hide SubmitLeg, WithLeg, Indexed;
    if n > 0 {
      var before := Submitted(a, user, batch, legs, reducing, answers, n - 1);
      SubmittedAddsKeys(a, user, batch, legs, reducing, answers, n - 1);
      WithLegAdds(before, user, batch, legs[n - 1], reducing, answers[n - 1]);
    }
  }

  lemma {:induction false} UnwoundAddsKeys(a: Account, user: string, batch: nat,
                                           openings: seq<Opening>, answers: seq<B.Answer>, n: nat)
    requires n <= |openings| == |answers| && AllCoherent(answers) && Indexed(a.orders)
    ensures AddsKeysOf(a.orders, Unwound(a, user, batch, openings, answers, n).orders, batch)
  {
    hide SubmitLeg;
    if n > 0 {
      UnwoundAddsKeys(a, user, batch, openings, answers, n - 1);
      UnwindFrame(Unwound(a, user, batch, openings, answers, n - 1), user, batch, openings[n - 1], answers[n - 1]);
    }
  }

  /** Within the batch itself an unwind is created only for what a leg opened, under that leg's key. */
  lemma OwnUnwindsFollowLegs(a: Account, user: string, batch: nat, legs: seq<Leg>, reducing: bool,
                             answers: seq<B.Answer>, unwinds: seq<B.Answer>, n: nat)
    requires |legs| == |answers| && AllCoherent(answers) && AllCoherent(unwinds)
    requires Indexed(a.orders) && UnwindsFollowLegs(a.orders, batch)
    requires n <= |Submitted(a, user, batch, legs, reducing, answers, |legs|).openings| == |unwinds|
    ensures var s := Submitted(a, user, batch, legs, reducing, answers, |legs|);
            UnwindsFollowLegs(Unwound(s.account, user, batch, s.openings, unwinds, n).orders, batch)
  {
    var s := Submitted(a, user, batch, legs, reducing, answers, |legs|);
    SubmittedAccounted(a, user, batch, legs, reducing, answers, |legs|);
    OpeningsAreFresh(a, user, batch, legs, reducing, answers, |legs|);
    forall i | 0 <= i < |s.openings| ensures LegKey(batch, s.openings[i].symbol) in s.account.orders.byKey {
      assert HasOpening(s.openings, s.openings[i].symbol);
      assert Accounted(a, s, user, batch, s.openings[i].symbol);
    }
    UnwindKeysFollow(s.account, user, batch, s.openings, unwinds, n);
  }

  /** A batch, however far its unwinding got, leaves the unwinds of every batch following its legs: what
      each next batch, under an id of its own, is asked to start from. */
  lemma BatchKeepsUnwindsFollowingLegs(a: Account, user: string, batch: nat, legs: seq<Leg>, reducing: bool,
                                       answers: seq<B.Answer>, unwinds: seq<B.Answer>, n: nat)
    requires |legs| == |answers| && AllCoherent(answers) && AllCoherent(unwinds)
    requires Indexed(a.orders) && AllUnwindsFollowLegs(a.orders)
    requires n <= |Submitted(a, user, batch, legs, reducing, answers, |legs|).openings| == |unwinds|
    ensures var s := Submitted(a, user, batch, legs, reducing, answers, |legs|);
            AllUnwindsFollowLegs(Unwound(s.account, user, batch, s.openings, unwinds, n).orders)
  {
    var s := Submitted(a, user, batch, legs, reducing, answers, |legs|);
    SubmittedAddsKeys(a, user, batch, legs, reducing, answers, |legs|);
    UnwoundAddsKeys(s.account, user, batch, s.openings, unwinds, n);
    assert UnwindsFollowLegs(a.orders, batch);
    OwnUnwindsFollowLegs(a, user, batch, legs, reducing, answers, unwinds, n);
    hide Submitted, Unwound, UnwindsFollowLegs;
    OtherBatchesUnmoved(a.orders, Unwound(s.account, user, batch, s.openings, unwinds, n).orders, batch);
  }

  lemma {:induction false} UnwindKeysFollow(a: Account, user: string, batch: nat,
                                            openings: seq<Opening>, answers: seq<B.Answer>, n: nat)
    requires n <= |openings| == |answers| && AllCoherent(answers) && Indexed(a.orders) &&
             UnwindsFollowLegs(a.orders, batch)
    requires forall i :: 0 <= i < |openings| ==> LegKey(batch, openings[i].symbol) in a.orders.byKey
    ensures var r := Unwound(a, user, batch, openings, answers, n);
            UnwindsFollowLegs(r.orders, batch) && forall k :: k in a.orders.byKey ==> k in r.orders.byKey
  {
    hide SubmitLeg;
    if n > 0 {
      UnwindKeysFollow(a, user, batch, openings, answers, n - 1);
      UnwindFrame(Unwound(a, user, batch, openings, answers, n - 1), user, batch, openings[n - 1], answers[n - 1]);
    }
  }

  /** What one leg adds: its key, and an opening on its symbol only if the key was new. */
  ghost predicate LegAdds(before: Batch, after: Batch, batch: nat, symbol: string) {
    && (forall k :: k in after.account.orders.byKey <==> k in before.account.orders.byKey || k == LegKey(batch, symbol))
    && (after.openings == before.openings
        || (LegKey(batch, symbol) !in before.account.orders.byKey && |after.openings| == |before.openings| + 1
            && after.openings[..|before.openings|] == before.openings &&
               after.openings[|before.openings|].symbol == symbol))
  }

  lemma WithLegAdds(s: Batch, user: string, batch: nat, leg: Leg, reducing: bool, answer: B.Answer)
    requires Indexed(s.account.orders) && E.Coherent(answer)
    ensures LegAdds(s, WithLeg(s, user, batch, leg, reducing, answer), batch, leg.symbol)
  {
    var t := LegTicket(s.account.book, user, batch, leg, reducing);
    LegEffect(s.account, t, BATCH_REASON, answer);
    LegFrame(s.account, t, BATCH_REASON, answer);
  }

  /** Whatever the batch opened so far, it opened under keys new to the book it started from. */
  ghost predicate Fresh(start: OrderBook, s: Batch, batch: nat) {
    && (forall i :: 0 <= i < |s.openings| ==> LegKey(batch, s.openings[i].symbol) !in start.byKey)
    && (forall k :: k in s.account.orders.byKey && k.UnwindKey? ==> k in start.byKey)
    && (forall k :: k in start.byKey ==> k in s.account.orders.byKey)
  }

  lemma FreshStep(start: OrderBook, before: Batch, after: Batch, batch: nat, symbol: string)
    requires Fresh(start, before, batch) && LegAdds(before, after, batch, symbol)
    ensures Fresh(start, after, batch)
  {
    forall i | 0 <= i < |after.openings| ensures LegKey(batch, after.openings[i].symbol) !in start.byKey {
      if i < |before.openings| {
        assert after.openings[i] == before.openings[i];
      }
    }
  }

  lemma FreshAtStart(a: Account, user: string, batch: nat, legs: seq<Leg>, reducing: bool, answers: seq<B.Answer>)
    requires |legs| == |answers| && AllCoherent(answers) && Indexed(a.orders)
    ensures Fresh(a.orders, Submitted(a, user, batch, legs, reducing, answers, 0), batch)
  {}

  /** A leg that opened something was new, so its unwind has not been created either. */
  lemma {:induction false} OpeningsAreFresh(a: Account, user: string, batch: nat, legs: seq<Leg>, reducing: bool,
                                            answers: seq<B.Answer>, n: nat)
    requires n <= |legs| == |answers| && AllCoherent(answers) && Indexed(a.orders)
    ensures Fresh(a.orders, Submitted(a, user, batch, legs, reducing, answers, n), batch)
  {
    hide Fresh, LegAdds, Indexed, WithLeg;
    if n == 0 {
      FreshAtStart(a, user, batch, legs, reducing, answers);
    } else {
      var before := Submitted(a, user, batch, legs, reducing, answers, n - 1);
      var after := Submitted(a, user, batch, legs, reducing, answers, n);
      OpeningsAreFresh(a, user, batch, legs, reducing, answers, n - 1);
      WithLegAdds(before, user, batch, legs[n - 1], reducing, answers[n - 1]);
      FreshStep(a.orders, before, after, batch, legs[n - 1].symbol);
    }
  }

  lemma FreshUnwinds(start: OrderBook, s: Batch, batch: nat)
    requires Fresh(start, s, batch) && UnwindsFollowLegs(start, batch)
    ensures forall i :: 0 <= i < |s.openings| ==> UnwindKey(batch, s.openings[i].symbol) !in s.account.orders.byKey
  {}

  /** What the remediation decides: it trades only when some leg was completely filled and no leg's
      fate is unknown, and it halts the account exactly when a fate is unknown, or some legs were
      completely filled and some were not. A batch whose fills were all partial does neither. */
  lemma RemediationDecision(s: Batch, user: string, batch: nat, answers: seq<B.Answer>)
    requires |s.openings| == |answers| && AllCoherent(answers) && Indexed(s.account.orders)
    ensures var (after, halted) := Remediated(s, user, batch, answers);
            && (AnyUnknown(s.results) ==> after == s.account && halted)
            && (AllEstablished(s.results) || (NoneEstablished(s.results) && !AnyUnknown(s.results)) ==>
                  after == s.account && !halted)
            && (halted <==> AnyUnknown(s.results) || !(AllEstablished(s.results) || NoneEstablished(s.results)))
            && (after != s.account ==> s.openings != [])
  {
    assert Unwound(s.account, user, batch, s.openings, answers, 0) == s.account;
  }

  // ------------------------------------------------------------------- the mutable form

  class OptionsDesk {
    const engine: E.ExecutionEngine

    constructor (engine: E.ExecutionEngine)
      ensures this.engine == engine
    {
      this.engine := engine;
    }

    predicate Valid()
      reads engine.orderManager
    {
      engine.Valid()
    }

    function State(): Account
      reads engine.orderManager, engine.positionManager
    {
      Account(engine.orderManager.Book(), engine.positionManager.positions)
    }

    /** Create the order and, if it is new, drive it through the broker's answer. */
    method PlaceLeg(t: OrderTicket, reason: string, answer: B.Answer) returns (order: OrderValue, created: bool)
      requires Valid() && E.Coherent(answer)
      modifies engine.orderManager, engine.positionManager
      ensures Valid() && created == (t.key !in old(State()).orders.byKey)
      ensures !created ==> State() == old(State()) && order == State().orders.orders[State().orders.byKey[t.key]]
      ensures created ==>
                var (orders, id, _) := Create(old(State()).orders, t);
                var sent := Approved(NewOrder(id, t), reason);
                order == E.Settled(sent, answer) &&
                  State() == Account(E.With(orders, order), E.SettledBook(old(State()).book, sent, answer))
    {
      hide E.Settled, E.SettledBook, E.Coherent;
      order, created := engine.orderManager.CreateOrder(t);
      if created {
        ghost var start := engine.orderManager.Book();
        assert E.With(start, order) == start;
        order := engine.Move(start, order, VALIDATING, "");
        order := engine.Move(start, order, RISK_APPROVED, reason);
        order := engine.Move(start, order, SUBMITTED, "sent to broker");
        order := engine.Answered(start, order, answer);
      }
    }

    /** The brand-new exposure after a fill. */
    static method NewlyOpened(before: real, after: real) returns (newly: real)
      ensures newly == OpenedBetween(before, after)
    {
      if after == 0.0 {
        newly := 0.0;
      } else if before == 0.0 || (before > 0.0) != (after > 0.0) {
        newly := Abs(after);
      } else {
        newly := Max(0.0, Abs(after) - Abs(before));
      }
    }

    method SubmitOneLeg(t: OrderTicket, reason: string, answer: B.Answer) returns (status: OrderStatus, newly: real)
      requires Valid() && E.Coherent(answer)
      modifies engine.orderManager, engine.positionManager
      ensures Valid()
      ensures SubmitLeg(old(State()), t, reason, answer) == LegOutcome(State(), status, newly)
    {
      hide NetLot, OpenedBetween;
      var key := PositionKey(t.accountId, t.symbol);
      var positions := engine.positionManager.positions;
      var before := if key in positions then positions[key].lot.quantity else 0.0;
      var order, created := PlaceLeg(t, reason, answer);
      newly := 0.0;
      positions := engine.positionManager.positions;
      if key in positions && created && order.status in {FILLED, PARTIALLY_FILLED, MONITORING} {
        newly := NewlyOpened(before, positions[key].lot.quantity);
      }
      status := order.status;
    }

    /** One turn of the leg loop. */
    method SubmitNext(ghost start: Account, user: string, batch: nat, legs: seq<Leg>, reducing: bool,
                      answers: seq<B.Answer>, n: nat,
                      results: seq<LegResult>, openings: seq<Opening>)
      returns (moreResults: seq<LegResult>, moreOpenings: seq<Opening>)
      requires Valid() && n < |legs| == |answers| && AllCoherent(answers) && Indexed(start.orders)
      requires Submitted(start, user, batch, legs, reducing, answers, n) == Batch(State(), results, openings)
      modifies engine.orderManager, engine.positionManager
      ensures Valid()
      ensures Submitted(start, user, batch, legs, reducing, answers, n + 1) == Batch(State(), moreResults, moreOpenings)
    {
      var leg := legs[n];
      var t := LegTicket(engine.positionManager.positions, user, batch, leg, reducing);
      var status, quantity := SubmitOneLeg(t, BATCH_REASON, answers[n]);
      moreOpenings := openings + if quantity > 0.0 then [Opening(leg.symbol, leg.direction, quantity)] else [];
      moreResults := results + [LegResult(leg.symbol, status)];
    }

    method SubmitLegs(user: string, batch: nat, legs: seq<Leg>, reducing: bool, answers: seq<B.Answer>)
      returns (results: seq<LegResult>, openings: seq<Opening>)
      requires Valid() && |legs| == |answers| && AllCoherent(answers)
      modifies engine.orderManager, engine.positionManager
      ensures Valid()
      ensures Submitted(old(State()), user, batch, legs, reducing, answers, |legs|) == Batch(State(), results, openings)
    {
      results, openings := [], [];
      ghost var start := State();
      var n := 0;
      while n < |legs|
        invariant n <= |legs| && Valid()
        invariant Submitted(start, user, batch, legs, reducing, answers, n) == Batch(State(), results, openings)
      {
        results, openings := SubmitNext(start, user, batch, legs, reducing, answers, n, results, openings);
        n := n + 1;
      }
    }

    /** `_remediate_partial_batch`; the answers are those of the unwinds, one per opening. */
    method Remediate(user: string, batch: nat, results: seq<LegResult>, openings: seq<Opening>, answers: seq<B.Answer>)
      returns (intact: bool, halted: bool)
      requires Valid() && |openings| == |answers| && AllCoherent(answers)
      modifies engine.orderManager, engine.positionManager
      ensures Valid()
      ensures Remediated(Batch(old(State()), results, openings), user, batch, answers) == (State(), halted)
      ensures intact <==> AllEstablished(results)
    {
      hide SubmitLeg;
      var established, unknown := 0, 0;
      for i := 0 to |results|
        invariant 0 <= established <= i
        invariant established == i <==> forall j :: 0 <= j < i ==> Established(results[j].status)
        invariant established == 0 <==> forall j :: 0 <= j < i ==> !Established(results[j].status)
        invariant unknown >= 0
        invariant unknown > 0 <==> exists j :: 0 <= j < i && results[j].status == FAILED
      {
        if Established(results[i].status) {
          established := established + 1;
        }
        if results[i].status == FAILED {
          unknown := unknown + 1;
        }
      }
      if unknown == 0 && established == |results| {
        return true, false;
      }
      if established == 0 && unknown == 0 {
        return false, false;
      }
      if unknown == 0 {
        for n := 0 to |openings|
          invariant Valid()
          invariant Unwound(old(State()), user, batch, openings, answers, n) == State()
        {
          var o := openings[n];
          var closable := Closable(engine.positionManager.positions, user, o);
          if closable > 0.0 {
            var t := UnwindTicket(engine.positionManager.positions, user, batch, o);
            var _, _ := SubmitOneLeg(t, UNWIND_REASON, answers[n]);
          }
        }
      }
      intact, halted := false, true;
    }
  }
}
