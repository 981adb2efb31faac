/**
Keeping one resting stop at the broker in step with the position it guards
(`cancel_protective_stop`, `_is_no_longer_resting`, `ensure_protective_stop`), against a
venue that may fail at every call: a cancel can raise with or without landing, the order
list can be unavailable or omit a dead order, a placement can be refused or go unanswered
with or without a stop coming to rest.
*/
module ProtectiveStops {
  import opened Common

  /** The fields of a position these routines read and write; quantity is signed. */
  datatype Guarded = Guarded(quantity: real, stop: Option<real>, protectiveOrderId: Option<nat>)

  datatype StopOrder = StopOrder(direction: Direction, quantity: real, trigger: real, status: OrderStatus)

  /** The stops this position has at the venue, whoever remembers their ids. */
  datatype Venue = Venue(stops: map<nat, StopOrder>, nextId: nat)

  /** A settled order cannot fire again; PARTIALLY_FILLED still can. */
  predicate Settled(status: OrderStatus) {
    status in {FILLED, CANCELLED, REJECTED, EXPIRED, CLOSED}
  }

  datatype CancelOutcome = CancelConfirmed | CancelRaised(landed: bool)

  datatype Listing = ListingRaised | Listed(omitsDead: bool)

  /** Any status but the two a caller reads as "refused" and "never answered". */
  type AcceptedStatus = s: OrderStatus | s != FAILED && s != REJECTED witness ACKNOWLEDGED

  datatype PlaceOutcome = Accepted(status: AcceptedStatus) | Refused | Unanswered(landed: bool)

  /** How the venue behaves during one call of `ensure_protective_stop`. */
  datatype Script = Script(cancel: CancelOutcome, listing: Listing, place: PlaceOutcome)

  datatype Problem = CancelNotConfirmed | PlacementUnanswered | PlacementRejected

  datatype StopResult = StopResult(orderId: Option<nat>, problem: Option<Problem>, fateUnknown: bool)

  function Live(v: Venue): set<nat> {
    set id | id in v.stops && !Settled(v.stops[id].status)
  }

  /** A cancel that reaches the venue retires a live order and leaves a settled one alone. */
  function CancelAt(v: Venue, id: nat): Venue {
    if id in v.stops && !Settled(v.stops[id].status) then
      v.(stops := v.stops[id := v.stops[id].(status := CANCELLED)])
    else
      v
  }

  /** The venue's side of a cancel call, raising or not. */
  function AfterCancel(v: Venue, id: nat, c: CancelOutcome): Venue {
    if c.CancelConfirmed? || c.landed then CancelAt(v, id) else v
  }

  /** `_is_no_longer_resting`: a listing that fails answers no; a missing order is gone. A
      venue may leave a dead order off its list, never a live one. */
  function NoLongerResting(v: Venue, id: nat, listing: Listing): bool {
    match listing
    case ListingRaised => false
    case Listed(omitsDead) =>
      if id !in v.stops || (omitsDead && Settled(v.stops[id].status)) then true
      else Settled(v.stops[id].status)
  }

  /** `cancel_protective_stop`: the venue, the position, and whether no stop is left. */
  function Retire(v: Venue, p: Guarded, s: Script): (Venue, Guarded, bool) {
    match p.protectiveOrderId
    case None => (v, p, true)
    case Some(id) =>
      var v' := AfterCancel(v, id, s.cancel);
      if s.cancel.CancelRaised? && !NoLongerResting(v', id, s.listing) then (v', p, false)
      else (v', p.(protectiveOrderId := None), true)
  }

  predicate Wanted(p: Guarded) {
    p.quantity != 0.0 && p.stop.Some?
  }

  /** The stop that guards a position: the other side, the whole size, at the stop price. */
  function GuardFor(p: Guarded, status: OrderStatus): StopOrder
    requires Wanted(p)
  {
    StopOrder(if p.quantity > 0.0 then SHORT else LONG, Abs(p.quantity), p.stop.value, status)
  }

  function AddStop(v: Venue, o: StopOrder): Venue {
    Venue(v.stops[v.nextId := o], v.nextId + 1)
  }

  function PlaceGuard(v: Venue, p: Guarded, place: PlaceOutcome): (Venue, Guarded, StopResult)
    requires Wanted(p)
  {
    match place
    case Unanswered(landed) =>
      (if landed then AddStop(v, GuardFor(p, ACKNOWLEDGED)) else v, p,
       StopResult(None, Some(PlacementUnanswered), true))
    case Refused =>
      (AddStop(v, GuardFor(p, REJECTED)), p, StopResult(None, Some(PlacementRejected), false))
    case Accepted(status) =>
      (AddStop(v, GuardFor(p, status)), p.(protectiveOrderId := Some(v.nextId)),
       StopResult(Some(v.nextId), None, false))
  }

  /** `ensure_protective_stop`. */
  function Ensure(v: Venue, p: Guarded, s: Script): (Venue, Guarded, StopResult) {
    var (v', p', retired) := Retire(v, p, s);
    if !retired then (v', p', StopResult(None, Some(CancelNotConfirmed), true))
    else if !Wanted(p') then (v', p', StopResult(None, None, false))
    else PlaceGuard(v', p', s.place)
  }

  // ------------------------------------------------------------------------ whole runs

  /** What can happen between and during calls: the position is filled or given a stop
      price, the venue moves one of its live orders, or the guard is re-established. */
  datatype Event =
    | Filled(quantity: real)
    | StopMoved(stop: Option<real>)
    | VenueMoved(id: nat, status: OrderStatus)
    | Ensured(script: Script)

  /** `orphans` are the ids of stops that came to rest on a placement nobody answered, and
      `unanswered` counts such placements. Both only describe the run. */
  datatype System = System(venue: Venue, position: Guarded, orphans: set<nat>, unanswered: nat)

  const START := System(Venue(map[], 0), Guarded(0.0, None, None), {}, 0)

  function Happens(s: System, e: Event): System {
    match e
    case Filled(q) => s.(position := s.position.(quantity := q))
    case StopMoved(stop) => s.(position := s.position.(stop := stop))
    case VenueMoved(id, status) =>
      if id in s.venue.stops && !Settled(s.venue.stops[id].status) then
        s.(venue := s.venue.(stops := s.venue.stops[id := s.venue.stops[id].(status := status)]))
      else s
    case Ensured(script) =>
      var (v, p, r) := Ensure(s.venue, s.position, script);
      if r.problem == Some(PlacementUnanswered) then
        System(v, p, if script.place.landed then s.orphans + {v.nextId - 1} else s.orphans, s.unanswered + 1)
      else
        System(v, p, s.orphans, s.unanswered)
  }

  function Run(events: seq<Event>): System {
    if events == [] then START else Happens(Run(events[..|events| - 1]), events[|events| - 1])
  }

  /** Every live stop is the one the position names or an orphan. */
  ghost predicate Accounted(s: System) {
    && (forall id :: id in s.venue.stops ==> id < s.venue.nextId)
    && (forall id :: id in s.orphans ==> id < s.venue.nextId)
    && |s.orphans| <= s.unanswered
    && forall id :: id in Live(s.venue) ==> s.position.protectiveOrderId == Some(id) || id in s.orphans
  }

  /** Retiring the recorded stop: on "yes" nothing but orphans is live and the id is
      forgotten; on "no" the id is kept, because it may still be live. */
  lemma RetireAccounts(v: Venue, p: Guarded, s: Script, orphans: set<nat>)
    requires forall id :: id in Live(v) ==> p.protectiveOrderId == Some(id) || id in orphans
    ensures var (v', p', retired) := Retire(v, p, s);
            && v'.stops.Keys == v.stops.Keys && v'.nextId == v.nextId
            && Live(v') <= Live(v)
            && p'.quantity == p.quantity && p'.stop == p.stop
            && (retired ==> p'.protectiveOrderId == None && Live(v') <= orphans)
            && (!retired ==> p' == p && p.protectiveOrderId.Some?)
  {}

  lemma AddStopLive(v: Venue, o: StopOrder)
    requires v.nextId !in v.stops
    ensures Live(AddStop(v, o)) == Live(v) + if Settled(o.status) then {} else {v.nextId}
  {}

  /** The status a placed stop is filed under, if it is filed. */
  function StatusPlaced(place: PlaceOutcome): OrderStatus {
    match place
    case Accepted(status) => status
    case Refused => REJECTED
    case Unanswered(_) => ACKNOWLEDGED
  }

  /** Once the old stop is retired, however the placement goes. */
  lemma PlacingKeepsAccounted(s: System, place: PlaceOutcome)
    requires Accounted(s) && s.position.protectiveOrderId.None? && Wanted(s.position)
    ensures var (v, p, r) := PlaceGuard(s.venue, s.position, place);
            Accounted(if place.Unanswered? then
                        System(v, p, if place.landed then s.orphans + {s.venue.nextId} else s.orphans, s.unanswered + 1)
                      else System(v, p, s.orphans, s.unanswered))
  {
    AddStopLive(s.venue, GuardFor(s.position, StatusPlaced(place)));
    hide Live, GuardFor;
  }

  lemma EnsureKeepsAccounted(s: System, script: Script)
    requires Accounted(s)
    ensures Accounted(Happens(s, Ensured(script)))
  {
    RetireAccounts(s.venue, s.position, script, s.orphans);
    hide Retire, Live, PlaceGuard;
    var (v, p, retired) := Retire(s.venue, s.position, script);
    var cleared := System(v, p, s.orphans, s.unanswered);
    assert Accounted(cleared);
    if retired && Wanted(p) {
      PlacingKeepsAccounted(cleared, script.place);
      PlacedOutcome(v, p, script.place);
    }
  }

  lemma PlacedOutcome(v: Venue, p: Guarded, place: PlaceOutcome)
    requires Wanted(p)
    ensures var (v', p', r) := PlaceGuard(v, p, place);
            && (r.problem == Some(PlacementUnanswered) <==> place.Unanswered?)
            && (place.Unanswered? && place.landed ==> v'.nextId == v.nextId + 1)
  {}

  lemma HappensKeepsAccounted(s: System, e: Event)
    requires Accounted(s)
    ensures Accounted(Happens(s, e))
  {
    if e.Ensured? {
      EnsureKeepsAccounted(s, e.script);
    } else if e.VenueMoved? {
      assert Live(Happens(s, e).venue) <= Live(s.venue);
    }
  }

  /** Whatever the venue does, after any run of fills, price changes, venue moves and calls
      the position has at most one live stop beyond those nobody answered for. */
  lemma {:induction false} AtMostOneStopPlusUnanswered(events: seq<Event>)
    ensures Accounted(Run(events))
    ensures |Live(Run(events).venue)| <= 1 + Run(events).unanswered
  {
    if events != [] {
      AtMostOneStopPlusUnanswered(events[..|events| - 1]);
      HappensKeepsAccounted(Run(events[..|events| - 1]), events[|events| - 1]);
    }
    var s := Run(events);
    var known := match s.position.protectiveOrderId case None => s.orphans case Some(id) => s.orphans + {id};
    Within(Live(s.venue), known);
  }

  lemma {:induction false} Within(a: set<nat>, b: set<nat>)
    requires a <= b
    ensures |a| <= |b|
    decreases |b|
  {
    if b != {} {
      var x :| x in b;
      Within(a - {x}, b - {x});
    }
  }

  /** What a caller may conclude from the result, in every reachable state.
      No problem: either no stop is wanted and none is kept, or the recorded id names an
      exit-side order for exactly the position's size at its stop price. A problem whose
      fate is known: the position verifiably has no stop beyond earlier orphans. A problem
      whose fate is unknown: the old id is still held, or the placement went unanswered. */
  lemma WhatTheResultMeans(events: seq<Event>, script: Script)
    ensures var before := Run(events);
            var (v, p, r) := Ensure(before.venue, before.position, script);
            && p.quantity == before.position.quantity && p.stop == before.position.stop
            && (r.problem.None? && !Wanted(p) ==>
                  r.orderId.None? && p.protectiveOrderId.None? && Live(v) <= before.orphans)
            && (r.problem.None? && Wanted(p) ==>
                  && r.orderId.Some? && p.protectiveOrderId == r.orderId && r.orderId.value in v.stops
                  && v.stops[r.orderId.value] == GuardFor(p, script.place.status)
                  && Live(v) <= before.orphans + {r.orderId.value})
            && (r.problem.Some? && !r.fateUnknown ==> p.protectiveOrderId.None? && Live(v) <= before.orphans)
            && (r.problem.Some? && r.fateUnknown ==>
                  || (p.protectiveOrderId.Some? && p == before.position && v.nextId == before.venue.nextId)
                  || (p.protectiveOrderId.None? && script.place.Unanswered?))
            && (r.fateUnknown ==> r.problem.Some?)
  {
    AtMostOneStopPlusUnanswered(events);
    var s := Run(events);
    RetireAccounts(s.venue, s.position, script, s.orphans);
    var (v, p, retired) := Retire(s.venue, s.position, script);
    if retired && Wanted(p) {
      var status := StatusPlaced(script.place);
      AddStopLive(v, GuardFor(p, status));
    }
  }

  /** From a position whose guard was lost to an unanswered placement, a call that succeeds places
      a second one. */
  lemma SecondGuardIsPlaced(s: System, script: Script, guard: StopOrder)
    requires guard == StopOrder(SHORT, 100.0, 95.0, ACKNOWLEDGED)
    requires s == System(Venue(map[0 := guard], 1), Guarded(100.0, Some(95.0), None), {0}, 1)
    requires script.place == Accepted(ACKNOWLEDGED)
    ensures Happens(s, Ensured(script)).venue == Venue(map[0 := guard, 1 := guard], 2)
    ensures Happens(s, Ensured(script)).unanswered == 1
  {}

  lemma FirstGuardIsLost(s: System, script: Script, guard: StopOrder)
    requires guard == StopOrder(SHORT, 100.0, 95.0, ACKNOWLEDGED)
    requires s == System(Venue(map[], 0), Guarded(100.0, Some(95.0), None), {}, 0)
    requires script.place == Unanswered(true)
    ensures Happens(s, Ensured(script)) == System(Venue(map[0 := guard], 1), Guarded(100.0, Some(95.0), None), {0}, 1)
  {}

  lemma RunOne(events: seq<Event>, e: Event)
    ensures Run(events + [e]) == Happens(Run(events), e)
  {
    assert (events + [e])[..|events|] == events;
  }

  const LOST := Script(CancelConfirmed, ListingRaised, Unanswered(true))
  const PLACED := Script(CancelConfirmed, ListingRaised, Accepted(ACKNOWLEDGED))

  /** A position is opened and given its stop; the first placement is not answered. */
  lemma GuardLost() returns (events: seq<Event>)
    ensures Run(events) == System(Venue(map[0 := StopOrder(SHORT, 100.0, 95.0, ACKNOWLEDGED)], 1),
                                  Guarded(100.0, Some(95.0), None), {0}, 1)
  {
    var filled := Filled(100.0);
    var moved := StopMoved(Some(95.0));
    RunOne([], filled);
    RunOne([] + [filled], moved);
    assert Run([] + [filled] + [moved]) == System(Venue(map[], 0), Guarded(100.0, Some(95.0), None), {}, 0);
    hide Happens, Run;
    events := [] + [filled] + [moved] + [Ensured(LOST)];
    RunOne([] + [filled] + [moved], Ensured(LOST));
    FirstGuardIsLost(Run([] + [filled] + [moved]), LOST, StopOrder(SHORT, 100.0, 95.0, ACKNOWLEDGED));
  }

  /** The exception is real: one unanswered placement that came to rest, then a successful
      call, and the position has two live stops while every id on record is in order. */
  lemma UnansweredStopEscapes()
    ensures exists events :: Run(events).unanswered == 1 && |Live(Run(events).venue)| == 2
  {
    hide Happens, Run;
    var before := GuardLost();
    var guard := StopOrder(SHORT, 100.0, 95.0, ACKNOWLEDGED);
    RunOne(before, Ensured(PLACED));
    SecondGuardIsPlaced(Run(before), PLACED, guard);
    assert Run(before + [Ensured(PLACED)]).unanswered == 1;
    TwoAreLive(Run(before + [Ensured(PLACED)]).venue, guard);
  }

  lemma TwoAreLive(v: Venue, guard: StopOrder)
    requires v == Venue(map[0 := guard, 1 := guard], 2) && !Settled(guard.status)
    ensures |Live(v)| == 2
  {
    assert Live(v) == {0, 1};
  }

  /** The stop a position has on record. */
  function Recorded(p: Guarded): set<nat> {
    match p.protectiveOrderId
    case None => {}
    case Some(id) => {id}
  }

  /** A confirmed retirement takes the recorded stop, and no other, out of the live ones. */
  lemma RetireLive(v: Venue, p: Guarded, s: Script)
    requires Retire(v, p, s).2
    ensures Live(Retire(v, p, s).0) == Live(v) - Recorded(p)
  {}

  /** What a successful call should leave live: the guard it placed, if one was wanted and
      the venue has not already filled it. */
  function OnlyGuard(v: Venue, r: StopResult): set<nat> {
    if r.orderId.Some? && r.orderId.value in v.stops && !Settled(v.stops[r.orderId.value].status) then {r.orderId.value}
    else {}
  }

  lemma LiveIsKnown(v: Venue)
    ensures Live(v) <= v.stops.Keys
  {}

  /** A successful call takes the recorded stop out and puts its own guard in. */
  lemma SuccessMovesLive(v: Venue, p: Guarded, s: Script)
    requires forall id :: id in v.stops ==> id < v.nextId
    requires Ensure(v, p, s).2.problem.None?
    ensures var (v', p', r) := Ensure(v, p, s);
            && Live(v') == (Live(v) - Recorded(p)) + OnlyGuard(v', r)
            && Live(v) !! OnlyGuard(v', r)
  {
    var (v', p', retired) := Retire(v, p, s);
    RetireLive(v, p, s);
    RetireAccounts(v, p, s, Live(v));
    LiveIsKnown(v);
    hide Retire, Live;
    if Wanted(p') {
      AddStopLive(v', GuardFor(p', s.place.status));
    }
  }

  /** Exactly when "at most one live stop" holds after a call that reports success, in every
      reachable state: when no stop but the recorded one was live before it. */
  lemma NewGuardIsAloneIff(events: seq<Event>, script: Script)
    requires Ensure(Run(events).venue, Run(events).position, script).2.problem.None?
    ensures var before := Run(events);
            var (v, p, r) := Ensure(before.venue, before.position, script);
            Live(v) == OnlyGuard(v, r) <==> Live(before.venue) <= Recorded(before.position)
  {
    AtMostOneStopPlusUnanswered(events);
    SuccessMovesLive(Run(events).venue, Run(events).position, script);
    hide Ensure, Run, Live, Recorded, OnlyGuard;
  }

  /** In particular when every placement so far was answered. */
  lemma OnlyTheNewGuardIsLive(events: seq<Event>, script: Script)
    requires Run(events).unanswered == 0
    requires Ensure(Run(events).venue, Run(events).position, script).2.problem.None?
    ensures var (v, p, r) := Ensure(Run(events).venue, Run(events).position, script);
            Live(v) == OnlyGuard(v, r)
  {
    AtMostOneStopPlusUnanswered(events);
    assert Run(events).orphans == {};
    NewGuardIsAloneIff(events, script);
  }

  // ------------------------------------------------------------------ the mutable form

  /** The position these routines are handed: they write its protective id in place. */
  class PositionRecord {
    var quantity: real
    var stop: Option<real>
    var protectiveOrderId: Option<nat>

    constructor (quantity: real, stop: Option<real>)
      ensures Value() == Guarded(quantity, stop, None)
    {
      this.quantity, this.stop, protectiveOrderId := quantity, stop, None;
    }

    function Value(): Guarded
      reads this
    {
      Guarded(quantity, stop, protectiveOrderId)
    }
  }

  class StopVenue {
    var stops: map<nat, StopOrder>
    var nextId: nat

    constructor ()
      ensures State() == Venue(map[], 0)
    {
      stops, nextId := map[], 0;
    }

    function State(): Venue
      reads this
    {
      Venue(stops, nextId)
    }

    /** A broker call that returns `true` answered and `false` raised. */
    method CancelOrder(id: nat, c: CancelOutcome) returns (answered: bool)
      modifies this
      ensures State() == AfterCancel(old(State()), id, c) && answered == c.CancelConfirmed?
    {
      if (c.CancelConfirmed? || c.landed) && id in stops && !Settled(stops[id].status) {
        stops := stops[id := stops[id].(status := CANCELLED)];
      }
      answered := c.CancelConfirmed?;
    }

    method PlaceOrder(o: StopOrder, place: PlaceOutcome) returns (id: nat, status: OrderStatus)
      modifies this
      ensures id == old(nextId)
      ensures match place
              case Unanswered(landed) =>
                && status == FAILED
                && State() == if landed then AddStop(old(State()), o.(status := ACKNOWLEDGED)) else old(State())
              case Refused => status == REJECTED && State() == AddStop(old(State()), o.(status := REJECTED))
              case Accepted(s) => status == s && State() == AddStop(old(State()), o.(status := s))
    {
      id := nextId;
      match place {
        case Unanswered(landed) =>
          status := FAILED;
          if landed {
            stops, nextId := stops[id := o.(status := ACKNOWLEDGED)], nextId + 1;
          }
        case Refused =>
          status := REJECTED;
          stops, nextId := stops[id := o.(status := REJECTED)], nextId + 1;
        case Accepted(s) =>
          status := s;
          stops, nextId := stops[id := o.(status := s)], nextId + 1;
      }
    }
  }

  method CancelProtectiveStop(broker: StopVenue, position: PositionRecord, s: Script) returns (retired: bool)
    modifies broker, position
    ensures (broker.State(), position.Value(), retired) == Retire(old(broker.State()), old(position.Value()), s)
  {
    if position.protectiveOrderId.None? {
      return true;
    }
    var id := position.protectiveOrderId.value;
    var answered := broker.CancelOrder(id, s.cancel);
    if !answered && !NoLongerResting(broker.State(), id, s.listing) {
      return false;
    }
    position.protectiveOrderId := None;
    retired := true;
  }

  method EnsureProtectiveStop(broker: StopVenue, position: PositionRecord, s: Script) returns (r: StopResult)
    modifies broker, position
    ensures (broker.State(), position.Value(), r) == Ensure(old(broker.State()), old(position.Value()), s)
  {
    var retired := CancelProtectiveStop(broker, position, s);
    if !retired {
      return StopResult(None, Some(CancelNotConfirmed), true);
    }
    if position.quantity == 0.0 || position.stop.None? {
      return StopResult(None, None, false);
    }
    var exit := if position.quantity > 0.0 then SHORT else LONG;
    var id, status := broker.PlaceOrder(
      StopOrder(exit, Abs(position.quantity), position.stop.value, CREATED), s.place);
    if status == FAILED {
      return StopResult(None, Some(PlacementUnanswered), true);
    }
    if status == REJECTED {
      return StopResult(None, Some(PlacementRejected), false);
    }
    position.protectiveOrderId := Some(id);
    r := StopResult(Some(id), None, false);
  }
}
