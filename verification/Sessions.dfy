/**
Refresh-token rotation (`refresh`, `_issue_tokens`) as the database sees it: concurrent requests
whose statements interleave, a conditional UPDATE that blocks on a row another transaction holds,
and reuse detection that revokes every session of a user.

A session row stores the hash of the one token it was issued with; hashing is injective here, so
the row simply names that token.
*/
module Sessions {
  import opened Common

  datatype Token = Token(session: nat, user: nat)

  datatype Row = Row(token: Token, revoked: bool, expiresAt: int)

  datatype Outcome = ISSUED(newSession: nat) | REFUSED | CONTAINED

  /** Where a refresh request stands between its statements. */
  datatype Phase =
    | WAITING(presented: Token)                          // about to run the conditional UPDATE
    | HOLDING(presented: Token)                          // its UPDATE matched; the row is locked, uncommitted
    | MISSED(presented: Token)                           // its UPDATE matched nothing
    | CONTAINING(presented: Token, snapshot: set<nat>)   // revoking what its statement saw live
    | DONE(presented: Token, outcome: Outcome)

  datatype State = State(rows: map<nat, Row>, requests: map<nat, Phase>, nextId: nat, users: set<nat>)

  datatype Step =
    | ARRIVE(request: nat, token: Token)
    | CLAIM(request: nat)
    | LOOK(request: nat)
    | FINISH(request: nat, now: int, expiresAt: int)
    | ABORT(request: nat)
    | CONTAIN(request: nat)
    | LOGIN(user: nat, expiresAt: int)
    | REVOKE(session: nat)

  predicate Held(s: State, id: nat) {
    exists r :: r in s.requests && s.requests[r].HOLDING? && s.requests[r].presented.session == id
  }

  /** The row the conditional UPDATE is after: this token's, not revoked. */
  predicate Claimable(rows: map<nat, Row>, t: Token) {
    t.session in rows && rows[t.session].token == t && !rows[t.session].revoked
  }

  predicate Matches(rows: map<nat, Row>, t: Token) {
    t.session in rows && rows[t.session].token == t
  }

  function LiveOf(rows: map<nat, Row>, user: nat): set<nat> {
    set id | id in rows && rows[id].token.user == user && !rows[id].revoked
  }

  function RevokeAll(rows: map<nat, Row>, ids: set<nat>): map<nat, Row> {
    map id | id in rows :: if id in ids then rows[id].(revoked := true) else rows[id]
  }

  function At(s: State, r: nat, phase: Phase): State {
    s.(requests := s.requests[r := phase])
  }

  function Issue(s: State, t: Token, expiresAt: int): State {
    s.(rows := s.rows[s.nextId := Row(Token(s.nextId, t.user), false, expiresAt)], nextId := s.nextId + 1)
  }

  /** One statement of one request; a step that is blocked or does not apply changes nothing. */
  function Next(s: State, step: Step): State {
    match step
    case ARRIVE(r, t) => if r in s.requests then s else At(s, r, WAITING(t))
    case CLAIM(r) =>
      if r !in s.requests || !s.requests[r].WAITING? then s
      else
        var t := s.requests[r].presented;
        if !Claimable(s.rows, t) then At(s, r, MISSED(t))
        else if Held(s, t.session) then s
        else At(s, r, HOLDING(t))
    case LOOK(r) =>
      if r !in s.requests || !s.requests[r].MISSED? then s
      else
        var t := s.requests[r].presented;
        if Matches(s.rows, t) then At(s, r, CONTAINING(t, LiveOf(s.rows, t.user))) else At(s, r, DONE(t, REFUSED))
    case FINISH(r, now, expiresAt) =>
      if r !in s.requests || !s.requests[r].HOLDING? then s
      else
        var t := s.requests[r].presented;
        if t.session !in s.rows || s.rows[t.session].expiresAt < now || t.user !in s.users then
          At(s, r, DONE(t, REFUSED))
        else
          At(Issue(s.(rows := s.rows[t.session := s.rows[t.session].(revoked := true)]), t, expiresAt), r,
             DONE(t, ISSUED(s.nextId)))
    case ABORT(r) =>
      if r !in s.requests || s.requests[r].DONE? then s else At(s, r, DONE(s.requests[r].presented, REFUSED))
    case CONTAIN(r) =>
      if r !in s.requests || !s.requests[r].CONTAINING? then s
      else
        var (t, seen) := (s.requests[r].presented, s.requests[r].snapshot);
        if exists id :: id in seen && Held(s, id) then s
        else At(s.(rows := RevokeAll(s.rows, seen)), r, DONE(t, CONTAINED))
    case LOGIN(user, expiresAt) => Issue(s, Token(s.nextId, user), expiresAt)
    case REVOKE(id) =>
      if id in s.rows && !Held(s, id) then s.(rows := RevokeAll(s.rows, {id})) else s
  }

  function Run(s: State, steps: seq<Step>): State {
    if steps == [] then s else Next(Run(s, steps[..|steps| - 1]), steps[|steps| - 1])
  }

  // ------------------------------------------------------------------ what every step keeps

  predicate RowsSane(s: State) {
    forall id :: id in s.rows ==> id < s.nextId && s.rows[id].token.session == id
  }

  /** A request that won holds the one live row of its token, and no two hold the same row. */
  predicate HoldersSane(s: State) {
    && (forall r :: r in s.requests && s.requests[r].HOLDING? ==> Claimable(s.rows, s.requests[r].presented))
    && (forall r, q ::
          r in s.requests && q in s.requests && r != q && s.requests[r].HOLDING? && s.requests[q].HOLDING? ==>
          s.requests[r].presented.session != s.requests[q].presented.session)
  }

  /** A token that has rotated is revoked, was rotated by one request only, and is held by none. */
  predicate IssuedSane(s: State) {
    && (forall r :: r in s.requests && Rotated(s.requests[r]) ==>
          Matches(s.rows, s.requests[r].presented) && s.rows[s.requests[r].presented.session].revoked)
    && (forall r, q ::
          r in s.requests && q in s.requests && r != q && Rotated(s.requests[r]) && Rotated(s.requests[q]) ==>
          s.requests[r].presented != s.requests[q].presented)
  }

  predicate Rotated(p: Phase) {
    p.DONE? && p.outcome.ISSUED?
  }

  predicate Sane(s: State) {
    RowsSane(s) && HoldersSane(s) && IssuedSane(s)
  }

  lemma NextKeepsHolders(s: State, step: Step)
    requires RowsSane(s) && HoldersSane(s)
    ensures RowsSane(Next(s, step)) && HoldersSane(Next(s, step))
  {
    if step.CONTAIN? && Next(s, step) != s {
      var seen := s.requests[step.request].snapshot;
      forall r | r in s.requests && s.requests[r].HOLDING? ensures s.requests[r].presented.session !in seen {
        assert Held(s, s.requests[r].presented.session);
      }
    } else if step.REVOKE? && Next(s, step) != s {
      forall r | r in s.requests && s.requests[r].HOLDING? ensures s.requests[r].presented.session != step.session {
        assert Held(s, s.requests[r].presented.session);
      }
    }
  }

  lemma NextKeepsIssued(s: State, step: Step)
    requires Sane(s)
    ensures IssuedSane(Next(s, step))
  {
    if step.FINISH? && step.request in s.requests && s.requests[step.request].HOLDING? {
      FinishKeepsIssued(s, step.request, step.now, step.expiresAt);
    }
  }

  lemma FinishKeepsIssued(s: State, r: nat, now: int, expiresAt: int)
    requires Sane(s) && r in s.requests && s.requests[r].HOLDING?
    ensures IssuedSane(Next(s, FINISH(r, now, expiresAt)))
  {}

  lemma {:induction false} RunIsSane(s: State, steps: seq<Step>)
    requires Sane(s)
    ensures Sane(Run(s, steps))
  {
    if steps != [] {
      RunIsSane(s, steps[..|steps| - 1]);
      NextKeepsHolders(Run(s, steps[..|steps| - 1]), steps[|steps| - 1]);
      NextKeepsIssued(Run(s, steps[..|steps| - 1]), steps[|steps| - 1]);
    }
  }

  /** No request in flight and every row consistent: where a run may start. */
  predicate Quiet(s: State) {
    RowsSane(s) && s.requests == map[]
  }

  /** In every interleaving, two requests that were both given a new pair presented different
      tokens: each refresh token issues at most one. */
  lemma EachTokenRotatesOnce(s: State, steps: seq<Step>, r: nat, q: nat)
    requires Quiet(s)
    requires var after := Run(s, steps);
             r in after.requests && q in after.requests && Rotated(after.requests[r]) && Rotated(after.requests[q])
    requires Run(s, steps).requests[r].presented == Run(s, steps).requests[q].presented
    ensures r == q
  {
    RunIsSane(s, steps);
  }

  predicate ByRequest(step: Step, r: nat) {
    !step.LOGIN? && !step.REVOKE? && step.request == r
  }

  predicate Refused(s: State, r: nat) {
    r in s.requests && s.requests[r].DONE? && s.requests[r].outcome == REFUSED
  }

  /** How much of the run `r` has changed in the table by its own statements. */
  predicate LeavesRows(before: State, step: Step, r: nat) {
    ByRequest(step, r) ==> Next(before, step).rows == before.rows
  }

  /** A statement of a request that changes the table ends it, and not in a refusal. */
  lemma ChangingRowsEndsTheRequest(s: State, step: Step, r: nat)
    requires ByRequest(step, r) && Next(s, step).rows != s.rows
    ensures var after := Next(s, step);
            r in after.requests && after.requests[r].DONE? && after.requests[r].outcome != REFUSED
  {}

  /** A request that ends refused never changed a row: not in the step that refuses it, and not in
      any statement before. */
  lemma {:induction false} RefusedLeavesRows(s: State, steps: seq<Step>, r: nat, n: nat)
    requires n < |steps| && Refused(Run(s, steps), r)
    ensures LeavesRows(Run(s, steps[..n]), steps[n], r)
  {
    var before, after := Run(s, steps[..n]), Run(s, steps[..n + 1]);
    assert steps[..n + 1][..n] == steps[..n];
    if r in after.requests && after.requests[r].DONE? {
      DoneIsForever(s, steps, r, n + 1);
    }
    if ByRequest(steps[n], r) && after.rows != before.rows {
      ChangingRowsEndsTheRequest(before, steps[n], r);
    }
  }

  lemma NextKeepsDone(s: State, step: Step, r: nat)
    requires r in s.requests && s.requests[r].DONE?
    ensures r in Next(s, step).requests && Next(s, step).requests[r] == s.requests[r]
  {}

  lemma {:induction false} DoneIsForever(s: State, steps: seq<Step>, r: nat, n: nat)
    requires n <= |steps| && r in Run(s, steps[..n]).requests && Run(s, steps[..n]).requests[r].DONE?
    ensures r in Run(s, steps).requests && Run(s, steps).requests[r] == Run(s, steps[..n]).requests[r]
    decreases |steps|
  {
    if n == |steps| {
      assert steps[..n] == steps;
    } else {
      var m := |steps| - 1;
      assert steps[..m][..n] == steps[..n];
      DoneIsForever(s, steps[..m], r, n);
      NextKeepsDone(Run(s, steps[..m]), steps[m], r);
    }
  }

  // ------------------------------------------------------------------- reuse containment

  /** No session of the user is being rotated. */
  predicate NoneHeld(s: State, user: nat) {
    forall r :: r in s.requests && s.requests[r].HOLDING? ==> s.requests[r].presented.user != user
  }

  /** The step neither signs the user in nor wins a rotation of one of the user's tokens. */
  predicate QuietFor(s: State, step: Step, user: nat) {
    NoneHeld(Next(s, step), user) && (step.LOGIN? ==> step.user != user)
  }

  ghost predicate QuietRun(s: State, steps: seq<Step>, user: nat)
    decreases |steps|
  {
    steps == [] || (QuietRun(s, steps[..|steps| - 1], user) &&
                    QuietFor(Run(s, steps[..|steps| - 1]), steps[|steps| - 1], user))
  }

  /** Everything live of the user is in the snapshot. */
  predicate Covers(s: State, snapshot: set<nat>, user: nat) {
    LiveOf(s.rows, user) <= snapshot
  }

  lemma NextCovers(s: State, step: Step, snapshot: set<nat>, user: nat)
    requires Covers(s, snapshot, user) && NoneHeld(s, user) && QuietFor(s, step, user)
    ensures Covers(Next(s, step), snapshot, user)
  {}

  lemma {:induction false} RunCovers(s: State, steps: seq<Step>, snapshot: set<nat>, user: nat)
    requires Covers(s, snapshot, user) && NoneHeld(s, user) && QuietRun(s, steps, user)
    ensures Covers(Run(s, steps), snapshot, user) && NoneHeld(Run(s, steps), user)
  {
    if steps != [] {
      RunCovers(s, steps[..|steps| - 1], snapshot, user);
      NextCovers(Run(s, steps[..|steps| - 1]), steps[|steps| - 1], snapshot, user);
    }
  }

  /** Containing a replay: from the look that finds the token already used to the commit, whatever
      else runs in between, the user has no live session left, if no rotation of the user's is in
      flight meanwhile. */
  lemma ReplayLeavesNothingLive(s: State, r: nat, between: seq<Step>)
    requires Sane(s) && r in s.requests && s.requests[r].MISSED? && Matches(s.rows, s.requests[r].presented)
    requires var user := s.requests[r].presented.user; NoneHeld(s, user) && QuietRun(Next(s, LOOK(r)), between, user)
    requires var seen := Run(Next(s, LOOK(r)), between);
             r in seen.requests && seen.requests[r] == Next(s, LOOK(r)).requests[r]
    ensures var user := s.requests[r].presented.user;
            var after := Next(Run(Next(s, LOOK(r)), between), CONTAIN(r));
            && after.requests[r] == DONE(s.requests[r].presented, CONTAINED)
            && LiveOf(after.rows, user) == {}
  {
    var looked := Next(s, LOOK(r));
    var user, snapshot := s.requests[r].presented.user, looked.requests[r].snapshot;
    RunIsSane(s, [LOOK(r)]);
    assert Run(s, [LOOK(r)][..0]) == s && Run(s, [LOOK(r)]) == looked;
    RunIsSane(looked, between);
    SnapshotIsOfUser(s, r);
    RunKeepsOwners(looked, between, snapshot, user);
    RunCovers(looked, between, snapshot, user);
    hide *;
    NoneOfThemHeld(Run(looked, between), snapshot, user);
    CoveredContainment(Run(looked, between), r, s.requests[r].presented, snapshot);
  }

  lemma NoneOfThemHeld(s: State, ids: set<nat>, user: nat)
    requires Sane(s) && NoneHeld(s, user) && OwnedBy(s, ids, user)
    ensures forall id :: id in ids ==> !Held(s, id)
  {
    forall id | id in ids ensures !Held(s, id) {
      forall q | q in s.requests && s.requests[q].HOLDING? ensures s.requests[q].presented.session != id {
        assert Claimable(s.rows, s.requests[q].presented);
      }
    }
  }

  /** Revoking a snapshot that covers the user leaves the user nothing live. */
  lemma CoveredContainment(s: State, r: nat, t: Token, snapshot: set<nat>)
    requires r in s.requests && s.requests[r] == CONTAINING(t, snapshot) && Covers(s, snapshot, t.user)
    requires forall id :: id in snapshot ==> !Held(s, id)
    ensures r in Next(s, CONTAIN(r)).requests && Next(s, CONTAIN(r)).requests[r] == DONE(t, CONTAINED)
    ensures LiveOf(Next(s, CONTAIN(r)).rows, t.user) == {}
  {}

  predicate OwnedBy(s: State, ids: set<nat>, user: nat) {
    forall id :: id in ids ==> id in s.rows && s.rows[id].token.user == user && id < s.nextId
  }

  lemma SnapshotIsOfUser(s: State, r: nat)
    requires Sane(s) && r in s.requests && s.requests[r].MISSED? && Matches(s.rows, s.requests[r].presented)
    ensures OwnedBy(Next(s, LOOK(r)), Next(s, LOOK(r)).requests[r].snapshot, s.requests[r].presented.user)
  {}

  lemma {:induction false} RunKeepsOwners(s: State, steps: seq<Step>, ids: set<nat>, user: nat)
    requires OwnedBy(s, ids, user)
    ensures OwnedBy(Run(s, steps), ids, user)
  {
    if steps != [] {
      RunKeepsOwners(s, steps[..|steps| - 1], ids, user);
    }
  }

  /** Rows keep their tokens, no row comes back to life, and new rows take new ids. */
  predicate OnlyRevokes(before: State, after: State) {
    && before.nextId <= after.nextId
    && (forall id :: id in before.rows ==> id in after.rows && after.rows[id].token == before.rows[id].token)
    && (forall id :: id in before.rows && before.rows[id].revoked ==> after.rows[id].revoked)
    && (forall id :: id in after.rows && id < before.nextId ==> id in before.rows)
  }

  lemma NextOnlyRevokes(s: State, step: Step)
    requires RowsSane(s)
    ensures RowsSane(Next(s, step)) && OnlyRevokes(s, Next(s, step))
  {}

  lemma {:induction false} RunOnlyRevokes(s: State, steps: seq<Step>)
    requires RowsSane(s)
    ensures RowsSane(Run(s, steps)) && OnlyRevokes(s, Run(s, steps))
  {
    if steps != [] {
      RunOnlyRevokes(s, steps[..|steps| - 1]);
      NextOnlyRevokes(Run(s, steps[..|steps| - 1]), steps[|steps| - 1]);
    }
  }

  /** The step signs the user in, or completes a rotation of one of the user's tokens, and the new
      session is `id`. */
  predicate Opens(s: State, step: Step, user: nat, id: nat) {
    && s.nextId == id && id in Next(s, step).rows
    && match step
       case LOGIN(u, _) => u == user
       case FINISH(q, _, _) => q in s.requests && s.requests[q].HOLDING? && s.requests[q].presented.user == user
       case _ => false
  }

  lemma NewRowIsOpened(s: State, step: Step, id: nat)
    requires RowsSane(s) && id in Next(s, step).rows && id !in s.rows
    ensures Opens(s, step, Next(s, step).rows[id].token.user, id)
  {}

  lemma {:induction false} IssuedSince(s: State, steps: seq<Step>, id: nat) returns (n: nat)
    requires RowsSane(s) && id in Run(s, steps).rows && id >= s.nextId
    ensures n < |steps| && Opens(Run(s, steps[..n]), steps[n], Run(s, steps).rows[id].token.user, id)
  {
    assert steps != [];
    var m := |steps| - 1;
    var last := Run(s, steps[..m]);
    RunOnlyRevokes(s, steps[..m]);
    NextOnlyRevokes(last, steps[m]);
    hide Next;
    if id in last.rows {
      n := IssuedSince(s, steps[..m], id);
      assert steps[..m][..n] == steps[..n];
    } else {
      n := m;
      NewRowIsOpened(last, steps[m], id);
    }
  }

  predicate OpenedBetween(s: State, steps: seq<Step>, user: nat, id: nat) {
    exists n :: 0 <= n < |steps| && Opens(Run(s, steps[..n]), steps[n], user, id)
  }

  /** What a containment leaves live, whatever ran between its look and its revocation: exactly the
      sessions of the user opened in between, by a sign-in or by a rotation that committed, and
      still live. With none of those the user is signed out everywhere. */
  lemma ContainmentLeavesTheUnseen(s: State, r: nat, between: seq<Step>)
    requires Sane(s) && r in s.requests && s.requests[r].MISSED? && Matches(s.rows, s.requests[r].presented)
    requires var seen := Run(Next(s, LOOK(r)), between);
             r in seen.requests && seen.requests[r] == Next(s, LOOK(r)).requests[r]
    requires forall id :: id in Next(s, LOOK(r)).requests[r].snapshot ==> !Held(Run(Next(s, LOOK(r)), between), id)
    ensures var user := s.requests[r].presented.user;
            var looked := Next(s, LOOK(r));
            var seen := Run(looked, between);
            var after := Next(seen, CONTAIN(r));
            && after.requests[r] == DONE(s.requests[r].presented, CONTAINED)
            && forall id :: id in LiveOf(after.rows, user) <==>
                 id in LiveOf(seen.rows, user) && OpenedBetween(looked, between, user, id)
  {
    var user := s.requests[r].presented.user;
    var looked := Next(s, LOOK(r));
    var snapshot := looked.requests[r].snapshot;
    assert snapshot == LiveOf(looked.rows, user);
    var seen := Run(looked, between);
    RunOnlyRevokes(looked, between);
    var after := Next(seen, CONTAIN(r));
    assert forall id :: id in LiveOf(after.rows, user) <==> id in LiveOf(seen.rows, user) && id !in snapshot;
    forall id | id in LiveOf(seen.rows, user)
      ensures id in snapshot <==> !OpenedBetween(looked, between, user, id)
    {
      if id >= looked.nextId {
        var n := IssuedSince(looked, between, id);
      } else {
        assert id in LiveOf(looked.rows, user);
        OldIsNotOpened(looked, between, user, id);
      }
    }
  }

  lemma OldIsNotOpened(s: State, steps: seq<Step>, user: nat, id: nat)
    requires RowsSane(s) && id < s.nextId
    ensures !OpenedBetween(s, steps, user, id)
  {
    forall n | 0 <= n < |steps| ensures !Opens(Run(s, steps[..n]), steps[n], user, id) {
      RunOnlyRevokes(s, steps[..n]);
    }
  }

  /** The race itself: of two requests with the same token the second waits for the winner's
      commit, and then cuts off everything, the pair just issued to the winner included. */
  lemma RacingWinnerIsCutOff(s: State, winner: nat, loser: nat, now: int, expiresAt: int)
    requires Sane(s) && winner != loser && winner in s.requests && loser in s.requests
    requires s.requests[winner].HOLDING? && s.requests[loser] == WAITING(s.requests[winner].presented)
    requires s.rows[s.requests[winner].presented.session].expiresAt >= now &&
             s.requests[winner].presented.user in s.users
    requires forall r :: r in s.requests && r != winner && s.requests[r].HOLDING? ==>
               s.requests[r].presented.user != s.requests[winner].presented.user
    ensures Next(s, CLAIM(loser)) == s
    ensures var issued := Next(s, FINISH(winner, now, expiresAt));
            var after := Next(Next(Next(issued, CLAIM(loser)), LOOK(loser)), CONTAIN(loser));
            && issued.requests[winner] == DONE(s.requests[winner].presented, ISSUED(s.nextId)) &&
               s.nextId in LiveOf(issued.rows, s.requests[winner].presented.user)
            && after.requests[loser] == DONE(s.requests[winner].presented, CONTAINED)
            && LiveOf(after.rows, s.requests[winner].presented.user) == {}
  {
    var t := s.requests[winner].presented;
    assert Held(s, t.session);
    var issued := Next(s, FINISH(winner, now, expiresAt));
    NextKeepsHolders(s, FINISH(winner, now, expiresAt));
    NextKeepsIssued(s, FINISH(winner, now, expiresAt));
    var missed := Next(issued, CLAIM(loser));
    NextKeepsHolders(issued, CLAIM(loser));
    NextKeepsIssued(issued, CLAIM(loser));
    forall q | q in missed.requests && missed.requests[q].HOLDING? ensures missed.requests[q].presented.user != t.user {
      assert q in s.requests && s.requests[q] == missed.requests[q];
    }
    ReplayLeavesNothingLive(missed, loser, []);
  }

  lemma {:induction false} RunConcat(s: State, first: seq<Step>, second: seq<Step>)
    ensures Run(s, first + second) == Run(Run(s, first), second)
  {
    if second == [] {
      assert first + second == first;
    } else {
      var n := |second| - 1;
      assert (first + second)[..|first| + n] == first + second[..n];
      RunConcat(s, first, second[..n]);
    }
  }

  lemma RunThree(s: State, a: Step, b: Step, c: Step)
    ensures Run(s, [a, b, c]) == Next(Next(Next(s, a), b), c)
  {
    hide Next;
    RunOne(s, a);
    assert [a, b][..1] == [a] && Run(s, [a, b]) == Next(Run(s, [a]), b);
    assert [a, b, c][..2] == [a, b];
  }

  lemma RunOne(s: State, step: Step)
    ensures Run(s, [step]) == Next(s, step)
  {
    hide Next;
    assert [step][..0] == [];
  }

  /** A run in four parts, from the states its first three reach. */
  lemma RunInParts(s: State, a: seq<Step>, b: seq<Step>, c: seq<Step>, d: seq<Step>, afterA: State, afterB: State,
                   afterC: State)
    requires Run(s, a) == afterA && Run(afterA, b) == afterB && Run(afterB, c) == afterC
    ensures Run(s, a + b + c + d) == Run(afterC, d)
  {
    RunConcat(s, a, b);
    RunConcat(s, a + b, c);
    RunConcat(s, a + b + c, d);
  }

  /** User 7 with two live sessions and no request in flight. */
  const TWO_SESSIONS := State(map[0 := Row(Token(0, 7), false, 100), 1 := Row(Token(1, 7), false, 100)], map[], 2, {7})

  /** The token of session 0 is rotated into session 2. */
  function FirstRotation(expiresAt: int): seq<Step> {
    [ARRIVE(2, Token(0, 7)), CLAIM(2), FINISH(2, 50, expiresAt)]
  }

  function FirstRotated(expiresAt: int): State {
    State(map[0 := Row(Token(0, 7), true, 100), 1 := Row(Token(1, 7), false, 100),
              2 := Row(Token(2, 7), false, expiresAt)],
          map[2 := DONE(Token(0, 7), ISSUED(2))], 3, {7})
  }

  lemma FirstRotationRuns(expiresAt: int)
    ensures Run(TWO_SESSIONS, FirstRotation(expiresAt)) == FirstRotated(expiresAt)
  {
    hide Run;
    RunThree(TWO_SESSIONS, ARRIVE(2, Token(0, 7)), CLAIM(2), FINISH(2, 50, expiresAt));
    FirstClaims();
    FirstFinishes(expiresAt);
    hide Next;
  }

  lemma FirstClaims()
    ensures Next(Next(TWO_SESSIONS, ARRIVE(2, Token(0, 7))), CLAIM(2))
            == TWO_SESSIONS.(requests := map[2 := HOLDING(Token(0, 7))])
  {
    var arrived := Next(TWO_SESSIONS, ARRIVE(2, Token(0, 7)));
    assert arrived == TWO_SESSIONS.(requests := map[2 := WAITING(Token(0, 7))]);
    assert !Held(arrived, 0);
  }

  lemma FirstFinishes(expiresAt: int)
    ensures Next(TWO_SESSIONS.(requests := map[2 := HOLDING(Token(0, 7))]), FINISH(2, 50, expiresAt))
            == FirstRotated(expiresAt)
  {}

  /** Somebody replays that token while the user's other session starts to rotate. */
  const REPLAY_AND_ROTATION := [ARRIVE(0, Token(0, 7)), CLAIM(0), ARRIVE(1, Token(1, 7))]

  function BothWaiting(expiresAt: int): State {
    FirstRotated(expiresAt).(requests := map[2 := DONE(Token(0, 7), ISSUED(2)), 0 := MISSED(Token(0, 7)),
                                             1 := WAITING(Token(1, 7))])
  }

  lemma BothArrive(expiresAt: int)
    ensures Run(FirstRotated(expiresAt), REPLAY_AND_ROTATION) == BothWaiting(expiresAt)
  {
    var s := FirstRotated(expiresAt);
    RunThree(s, ARRIVE(0, Token(0, 7)), CLAIM(0), ARRIVE(1, Token(1, 7)));
    assert Next(s, ARRIVE(0, Token(0, 7))).requests
             == map[2 := DONE(Token(0, 7), ISSUED(2)), 0 := WAITING(Token(0, 7))];
  }

  /** The replay looks, the rotation commits, and then the replay is contained. */
  function LookCommitContain(expiresAt: int): seq<Step> {
    [LOOK(0), FINISH(1, 50, expiresAt), CONTAIN(0)]
  }

  function RotationHeld(expiresAt: int): State {
    FirstRotated(expiresAt).(requests := map[2 := DONE(Token(0, 7), ISSUED(2)), 0 := MISSED(Token(0, 7)),
                                             1 := HOLDING(Token(1, 7))])
  }

  lemma RotationClaims(expiresAt: int)
    ensures Next(BothWaiting(expiresAt), CLAIM(1)) == RotationHeld(expiresAt)
  {
    assert !Held(BothWaiting(expiresAt), 1);
  }

  lemma ContainedTooEarly(expiresAt: int)
    ensures var after := Run(RotationHeld(expiresAt), LookCommitContain(expiresAt));
            0 in after.requests && after.requests[0] == DONE(Token(0, 7), CONTAINED) && 3 in LiveOf(after.rows, 7)
  {
    var s := RotationHeld(expiresAt);
    RunThree(s, LOOK(0), FINISH(1, 50, expiresAt), CONTAIN(0));
    assert LiveOf(s.rows, 7) == {1, 2};
    var looked := Next(s, LOOK(0));
    assert looked == s.(requests := s.requests[0 := CONTAINING(Token(0, 7), {1, 2})]);
    var finished := Next(looked, FINISH(1, 50, expiresAt));
    assert finished.requests
             == map[2 := DONE(Token(0, 7), ISSUED(2)), 0 := CONTAINING(Token(0, 7), {1, 2}),
                    1 := DONE(Token(1, 7), ISSUED(3))];
    assert !Held(finished, 1) && !Held(finished, 2);
    assert finished.rows[3] == Row(Token(3, 7), false, expiresAt);
  }

  /** With another rotation of the user's in flight the containment can miss its new session. From two
      live sessions and nothing in flight: one token is rotated and then replayed, and the rotation of
      the other commits between the snapshot and the revocation. Session 3 is left alive. */
  lemma AnotherRotationEscapes(expiresAt: int)
    ensures Quiet(TWO_SESSIONS)
    ensures var steps := FirstRotation(expiresAt) + REPLAY_AND_ROTATION + [CLAIM(1)] + LookCommitContain(expiresAt);
            var after := Run(TWO_SESSIONS, steps);
            0 in after.requests && after.requests[0] == DONE(Token(0, 7), CONTAINED) && 3 in LiveOf(after.rows, 7)
  {
    hide *;
    FirstRotationRuns(expiresAt);
    BothArrive(expiresAt);
    RotationClaims(expiresAt);
    RunOne(BothWaiting(expiresAt), CLAIM(1));
    ContainedTooEarly(expiresAt);
    RunInParts(TWO_SESSIONS, FirstRotation(expiresAt), REPLAY_AND_ROTATION, [CLAIM(1)], LookCommitContain(expiresAt),
               FirstRotated(expiresAt), BothWaiting(expiresAt), RotationHeld(expiresAt));
    TwoSessionsAreQuiet();
  }

  lemma TwoSessionsAreQuiet()
    ensures Quiet(TWO_SESSIONS)
  {}

  // ------------------------------------------------------------------ one request, unopposed

  /** The table and a request that runs its statements with no other in flight. */
  class SessionStore {
    var rows: map<nat, Row>
    var nextId: nat

    /** `refresh`: claim, look, then contain a replay, refuse with the claim rolled back, or issue. */
    method Refresh(t: Token, now: int, expiresAt: int, users: set<nat>) returns (outcome: Outcome)
      modifies this
      ensures outcome.ISSUED? <==> old(Claimable(rows, t)) && old(rows)[t.session].expiresAt >= now && t.user in users
      ensures outcome.CONTAINED? <==> old(Matches(rows, t)) && old(rows)[t.session].revoked
      ensures outcome.REFUSED? ==> rows == old(rows) && nextId == old(nextId)
      ensures outcome.CONTAINED? ==> LiveOf(rows, t.user) == {} && rows.Keys == old(rows).Keys
      ensures outcome.ISSUED? ==>
                rows == old(rows)[t.session := old(rows)[t.session].(revoked := true)]
                                 [old(nextId) := Row(Token(old(nextId), t.user), false, expiresAt)]
                && outcome.newSession == old(nextId) && nextId == old(nextId) + 1
    {
      ghost var start := rows;
      var won := Claimable(rows, t);
      var pending := if won then rows[t.session := rows[t.session].(revoked := true)] else rows;
      var matches := Matches(pending, t);
      if matches && !won {
        rows := RevokeAll(rows, LiveOf(rows, t.user));
        return CONTAINED;
      }
      if !matches || pending[t.session].expiresAt < now || t.user !in users {
        return REFUSED;
      }
      rows := pending[nextId := Row(Token(nextId, t.user), false, expiresAt)];
      outcome := ISSUED(nextId);
      nextId := nextId + 1;
    }

    /** `get_active_session`: what every reader of an access token goes through. */
    method GetActiveSession(id: nat, now: int) returns (session: Option<Row>)
      ensures session.Some? <==> id in rows && id in LiveOf(rows, rows[id].token.user) && rows[id].expiresAt >= now
      ensures session.Some? ==> session.value == rows[id]
    {
      if id !in rows || rows[id].revoked || rows[id].expiresAt < now {
        return None;
      }
      session := Some(rows[id]);
    }
  }

  /** Run without interference, the statements of one request amount to what `Refresh` promises. */
  lemma AloneIsRefresh(s: State, r: nat, t: Token, now: int, expiresAt: int)
    requires Quiet(s)
    ensures var claimed := Next(Next(s, ARRIVE(r, t)), CLAIM(r));
            var after := Next(Next(Next(claimed, FINISH(r, now, expiresAt)), LOOK(r)), CONTAIN(r));
            && after.requests[r].DONE?
            && (Rotated(after.requests[r]) <==>
                Claimable(s.rows, t) && s.rows[t.session].expiresAt >= now && t.user in s.users)
            && (after.requests[r].outcome == CONTAINED <==> Matches(s.rows, t) && s.rows[t.session].revoked)
            && (after.requests[r].outcome == CONTAINED ==> LiveOf(after.rows, t.user) == {})
            && (after.requests[r].outcome == REFUSED ==> after.rows == s.rows)
  {
    var arrived := Next(s, ARRIVE(r, t));
    var claimed := Next(arrived, CLAIM(r));
    assert !Held(arrived, t.session);
    var finished := Next(claimed, FINISH(r, now, expiresAt));
    var looked := Next(finished, LOOK(r));
    assert forall id :: !Held(looked, id);
  }
}
