/** What every committed handler keeps, and what whole runs of committed handlers conserve. */
module Runs {
  import opened Rows
  import opened Handlers

  /** Every user of `db` is still there, with the same role. */
  predicate SameStaff(db: Db, db': Db) {
    db.users.Keys == db'.users.Keys && forall u :: u in db.users ==> db'.users[u].role == db.users[u].role
  }

  /** A handler that does not lock operator `o` never gives `o` a call, and leaves its row alone. */
  lemma OthersCallsOnlyShrink(db: Db, r: Request, o: UserId)
    requires Matches(db, r) && Target(r) != Some(o)
    ensures OpenCalls(Effect(db, r), o) <= OpenCalls(db, o)
    ensures WritesUser(r) != Some(o) && o in db.users ==> Effect(db, r).users[o] == db.users[o]
    ensures SameStaff(db, Effect(db, r))
  {}

  /** A committed handler keeps the rows good: one open call per operator, and only on shift. */
  lemma CommitKeepsGood(db: Db, r: Request, db': Db)
    requires Good(db) && Commits(db, r, db')
    ensures Good(db') && SameStaff(db, db')
  {
    if Touches(r).Some? {
      CallWriteKeepsGood(db, r, db');
    } else {
      ShiftWriteKeepsGood(db, r, db');
    }
  }

  lemma HandleKeepsGood(db: Db, r: Request)
    requires Good(db)
    ensures Good(Handle(db, r))
  {
    if Verdict(db, r) == None { CommitKeepsGood(db, r, Handle(db, r)); }
  }

  lemma CallWriteKeepsGood(db: Db, r: Request, db': Db)
    requires Good(db) && Commits(db, r, db') && Touches(r).Some?
    ensures Good(db')
  {
    var t := Touches(r).value;
    forall s | s in db'.sessions ensures Coherent(db'.sessions[s]) {
      if s != t { assert db'.sessions[s] == db.sessions[s]; }
      if t in db.sessions { assert Coherent(db.sessions[t]); }
    }
    forall s: SessionId, o: UserId | IsOpenCall(db', s, o)
      ensures IsOpenCall(db, s, o) || (s == t && Target(r) == Some(o) && OnShift(db, o) && OpenCalls(db, o) == {})
    {
      if s != t { assert db'.sessions[s] == db.sessions[s]; }
    }
    forall s, q, o | IsOpenCall(db', s, o) && IsOpenCall(db', q, o) ensures s == q {
      assert IsOpenCall(db, s, o) ==> s in OpenCalls(db, o);
      assert IsOpenCall(db, q, o) ==> q in OpenCalls(db, o);
    }
  }

  lemma ShiftWriteKeepsGood(db: Db, r: Request, db': Db)
    requires Good(db) && Commits(db, r, db') && Touches(r).None?
    ensures Good(db')
  {
    assert db'.sessions == db.sessions;
    forall s, o | IsOpenCall(db', s, o) ensures OnShift(db', o) {
      assert IsOpenCall(db, s, o);
      assert s in OpenCalls(db, o);
    }
    forall s, q, o | IsOpenCall(db', s, o) && IsOpenCall(db', q, o) ensures s == q {
      assert IsOpenCall(db, s, o) && IsOpenCall(db, q, o);
    }
  }

  /** A closed call never changes again: no field, whatever handler commits. */
  lemma ClosedIsFrozen(db: Db, r: Request, db': Db, s: SessionId)
    requires Good(db) && Commits(db, r, db')
    requires s in db.sessions && db.sessions[s].status == CLOSED
    ensures s in db'.sessions && db'.sessions[s] == db.sessions[s]
  {}

  /** Run alone, a reassignment to the present holder is refused because he is busy (or may not take calls
      at all); the branch that says "already assigned to this operator" is never reached. */
  lemma SameHolderIsReportedBusy(db: Db, c: SessionId, o: UserId)
    requires Good(db)
    ensures Verdict(db, Reassign(c, o)) != Some(AlreadyAssignedToThisOperator)
    ensures IsOpenCall(db, c, o) && IsLiveOperator(db, o) ==> Verdict(db, Reassign(c, o)) == Some(OperatorBusy)
  {
    if IsOpenCall(db, c, o) { assert c in OpenCalls(db, o) && OnShift(db, o); }
    if c in db.sessions { assert Coherent(db.sessions[c]); }
  }

  /** The shift clock runs exactly while its user is on shift. */
  predicate ClockRuns(db: Db) {
    forall u :: u in db.users ==> (db.users[u].onShift <==> db.users[u].shiftStartedAt.Some?)
  }

  /** Going on shift twice never restarts the clock; only an admin putting on shift somebody who already
      is does. Every handler keeps clock and flag together. */
  lemma OnlyAdminsRestartTheClock(db: Db, r: Request, db': Db, u: UserId)
    requires ClockRuns(db) && Commits(db, r, db') && u in db.users
    ensures ClockRuns(db') && u in db'.users
    ensures db.users[u].onShift && db'.users[u].onShift && db'.users[u].shiftStartedAt != db.users[u].shiftStartedAt ==>
              r.SetShift? && r.operator == u && r.on && db'.users[u].shiftStartedAt == Some(r.now)
  {}

  // ---- Whole runs ----

  /** The rows after the given handlers committed one after another. */
  ghost predicate IsRun(db: Db, reqs: seq<Request>, db': Db)
    decreases |reqs|
  {
    if reqs == [] then db' == db
    else Refusal(db, reqs[0]) == None && IsRun(Effect(db, reqs[0]), reqs[1..], db')
  }

  lemma {:induction false} ClosedStaysFrozen(db: Db, reqs: seq<Request>, db': Db, s: SessionId)
    requires Good(db) && IsRun(db, reqs, db')
    requires s in db.sessions && db.sessions[s].status == CLOSED
    ensures s in db'.sessions && db'.sessions[s] == db.sessions[s]
    decreases |reqs|
  {
    if reqs != [] {
      var next := Effect(db, reqs[0]);
      ClosedIsFrozen(db, reqs[0], next, s);
      CommitKeepsGood(db, reqs[0], next);
      ClosedStaysFrozen(next, reqs[1..], db', s);
    }
  }

  predicate Closes(r: Request, s: SessionId) {
    (r.Resolve? || r.CloseByAdmin? || r.CloseByUser?) && r.session == s
  }

  function CountClosings(reqs: seq<Request>, s: SessionId): nat {
    if reqs == [] then 0 else (if Closes(reqs[0], s) then 1 else 0) + CountClosings(reqs[1..], s)
  }

  function IsClosed(db: Db, s: SessionId): nat {
    if s in db.sessions && db.sessions[s].status == CLOSED then 1 else 0
  }

  /** Of any number of racing closers exactly one commits, and only if the call ends up closed. */
  lemma {:induction false} ClosedExactlyOnce(db: Db, reqs: seq<Request>, db': Db, s: SessionId)
    requires Good(db) && IsRun(db, reqs, db')
    ensures CountClosings(reqs, s) == IsClosed(db', s) - IsClosed(db, s)
    decreases |reqs|
  {
    if reqs != [] {
      var next := Effect(db, reqs[0]);
      CommitKeepsGood(db, reqs[0], next);
      if Touches(reqs[0]) != Some(s) {
        assert s in next.sessions <==> s in db.sessions;
      }
      ClosedExactlyOnce(next, reqs[1..], db', s);
    }
  }

  // ---- Claims and returns ----

  /** The handler takes the call out of the pool for an operator. */
  predicate Claims(r: Request, s: SessionId) {
    (r.Accept? || r.Assign?) && r.session == s
  }

  /** The handler takes the call from an operator back into the pool. */
  predicate Returns(db: Db, r: Request, s: SessionId) {
    && (r.Unassign? || r.Reclaim?) && r.session == s
    && s in db.sessions && db.sessions[s].assignee.Some?
  }

  /** Claims minus returns of the call over a run. */
  ghost function Balance(db: Db, reqs: seq<Request>, db': Db, s: SessionId): int
    requires IsRun(db, reqs, db')
    decreases |reqs|
  {
    if reqs == [] then 0
    else
      (if Claims(reqs[0], s) then 1 else if Returns(db, reqs[0], s) then -1 else 0)
      + Balance(Effect(db, reqs[0]), reqs[1..], db', s)
  }

  /** 1 while an operator holds the open call, 0 while it is in the pool or does not exist. */
  function Held(db: Db, s: SessionId): int {
    if s in db.sessions && db.sessions[s].assignee.Some? then 1 else 0
  }

  /** Before a call is closed, claims minus returns is exactly whether somebody holds it. */
  lemma {:induction false} ClaimsMinusReturns(db: Db, reqs: seq<Request>, db': Db, s: SessionId)
    requires Good(db) && IsRun(db, reqs, db')
    requires IsClosed(db', s) == 0
    ensures Balance(db, reqs, db', s) == Held(db', s) - Held(db, s)
    ensures IsClosed(db, s) == 0
    decreases |reqs|
  {
    ClosedExactlyOnce(db, reqs, db', s);
    if reqs != [] {
      var next := Effect(db, reqs[0]);
      CommitKeepsGood(db, reqs[0], next);
      ClaimsMinusReturns(next, reqs[1..], db', s);
      if Touches(reqs[0]) != Some(s) {
        assert s in next.sessions <==> s in db.sessions;
      } else if s in db.sessions {
        assert Coherent(db.sessions[s]);
        assert !Closes(reqs[0], s);
      }
    }
  }

  ghost predicate HasReturn(db: Db, reqs: seq<Request>, db': Db, s: SessionId)
    requires IsRun(db, reqs, db')
    decreases |reqs|
  {
    reqs != [] && (Returns(db, reqs[0], s) || HasReturn(Effect(db, reqs[0]), reqs[1..], db', s))
  }

  /** A held call that can be claimed again has been returned to the pool in between. */
  lemma {:induction false} ReturnBeforeNextClaim(db: Db, reqs: seq<Request>, db': Db, s: SessionId, r: Request)
    requires Good(db) && IsRun(db, reqs, db')
    requires Held(db, s) == 1 && Claims(r, s) && Refusal(db', r) == None
    ensures HasReturn(db, reqs, db', s)
    decreases |reqs|
  {
    if reqs != [] && !Returns(db, reqs[0], s) {
      var next := Effect(db, reqs[0]);
      CommitKeepsGood(db, reqs[0], next);
      if IsClosed(next, s) == 1 {
        ClosedStaysFrozen(next, reqs[1..], db', s);
        assert false;
      }
      assert Held(next, s) == 1;
      ReturnBeforeNextClaim(next, reqs[1..], db', s, r);
    }
  }

  /** Two claims of one call in a run have a return between them: one winner per stay in the pool. */
  lemma OneWinnerPerStay(db: Db, first: Request, between: seq<Request>, mid: Db, second: Request, s: SessionId)
    requires Good(db) && Claims(first, s) && Claims(second, s)
    requires Refusal(db, first) == None && IsRun(Effect(db, first), between, mid) && Refusal(mid, second) == None
    ensures HasReturn(Effect(db, first), between, mid, s)
  {
    CommitKeepsGood(db, first, Effect(db, first));
    ReturnBeforeNextClaim(Effect(db, first), between, mid, s, second);
  }
}
