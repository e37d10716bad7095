/** What the endpoints of the dispatch protocol promise, row by row, and what that means for whole runs. */
module Promises {
  import opened Rows
  import opened Handlers
  import opened Runs
  import opened Statements
  import opened Interleaving

  // ---- Which answer, and when it is true ----

  predicate HasOpenCall(db: Db, o: UserId) {
    exists c :: c in db.sessions && db.sessions[c].assignee == Some(o) && (db.sessions[c].status == ASSIGNED || db.sessions[c].status == IN_PROGRESS)
  }

  predicate IsOperatorRow(db: Db, o: UserId) {
    o in db.users && db.users[o].role == OPERATOR
  }

  /** The first thing that stands in the way of a request, in the order the endpoint looks. */
  function Obstacle(db: Db, r: Request): Option<Error> {
    match r
    case Accept(c, o) =>
      if o !in db.users || !db.users[o].onShift then Some(NotOnShift)
      else if HasOpenCall(db, o) then Some(OperatorBusy)
      else if c !in db.sessions then Some(SessionNotFound)
      else if db.sessions[c].assignee.Some? then Some(SessionAlreadyClaimed)
      else if db.sessions[c].status != NEW then Some(SessionWrongStatus(db.sessions[c].status))
      else None
    case StartProgress(c, o) =>
      if c !in db.sessions then Some(SessionNotFound)
      else if db.sessions[c].assignee != Some(o) then Some(NotAssignedToSession)
      else if db.sessions[c].status != ASSIGNED then Some(SessionWrongStatus(db.sessions[c].status))
      else None
    case Resolve(c, o, _, _) =>
      if c !in db.sessions then Some(SessionNotFound)
      else if db.sessions[c].assignee != Some(o) then Some(NotAssignedToSession)
      else if db.sessions[c].status == CLOSED then Some(SessionAlreadyClosed)
      else None
    case Assign(c, o) =>
      if !IsOperatorRow(db, o) || db.users[o].deletedAt.Some? then Some(NotAnOperator)
      else if !db.users[o].onShift then Some(NotOnShift)
      else if HasOpenCall(db, o) then Some(OperatorBusy)
      else if c !in db.sessions then Some(SessionNotFound)
      else if db.sessions[c].status == CLOSED then Some(SessionAlreadyClosed)
      else if db.sessions[c].assignee.Some? then Some(SessionAlreadyClaimed)
      else None
    case Reassign(c, o) =>
      if !IsOperatorRow(db, o) || db.users[o].deletedAt.Some? then Some(NotAnOperator)
      else if !db.users[o].onShift then Some(NotOnShift)
      else if HasOpenCall(db, o) then Some(OperatorBusy)
      else if c !in db.sessions then Some(SessionNotFound)
      else if db.sessions[c].status == CLOSED then Some(SessionAlreadyClosed)
      else if db.sessions[c].assignee == Some(o) then Some(AlreadyAssignedToThisOperator)
      else if db.sessions[c].assignee == None then Some(SessionWrongStatus(db.sessions[c].status))
      else None
    case Unassign(c) =>
      if c !in db.sessions then Some(SessionNotFound)
      else if db.sessions[c].status == CLOSED then Some(SessionAlreadyClosed)
      else None
    case CloseByAdmin(c, _, _) =>
      if c !in db.sessions then Some(SessionNotFound)
      else if db.sessions[c].status == CLOSED then Some(SessionAlreadyClosed)
      else None
    case AddLocation(c, u, _) =>
      if c !in db.sessions then Some(SessionNotFound)
      else if db.sessions[c].userId != u then Some(NotYourSession)
      else if db.sessions[c].status == CLOSED then Some(SessionAlreadyClosed)
      else None
    case CloseByUser(c, u, _) =>
      if c !in db.sessions then Some(SessionNotFound)
      else if db.sessions[c].userId != u then Some(NotYourSession)
      else if db.sessions[c].status == CLOSED then Some(SessionAlreadyClosed)
      else None
    case Reclaim(c, o) =>
      if c !in db.sessions then Some(SessionNotFound)
      else if db.sessions[c].status != ASSIGNED || db.sessions[c].assignee != Some(o) then Some(NoRowUpdated)
      else None
    case Raise(c, u, _, _, _) => if c in db.sessions then Some(DuplicateId) else if u !in db.users then Some(UserNotFound) else None
    case StartShift(o, _) => if o !in db.users then Some(UserNotFound) else None
    case EndShift(o) => if o !in db.users || HasOpenCall(db, o) then Some(ShiftHasOpenSessions) else None
    case SetShift(o, on, _) =>
      if !IsOperatorRow(db, o) then Some(NotAnOperator)
      else if !on && HasOpenCall(db, o) then Some(ShiftHasOpenSessions)
      else None
    case DeleteOperator(o, _) =>
      if !IsOperatorRow(db, o) || db.users[o].deletedAt.Some? then Some(OperatorNotFound)
      else if HasOpenCall(db, o) then Some(ShiftHasOpenSessions)
      else None
    case DropShift(o) => if o !in db.users || !db.users[o].onShift || HasOpenCall(db, o) then Some(NoRowUpdated) else None
  }

  lemma BusyMeansOpenCall(db: Db, o: UserId)
    ensures OpenCalls(db, o) != {} <==> HasOpenCall(db, o)
  {
    if HasOpenCall(db, o) {
      var c :| c in db.sessions && db.sessions[c].assignee == Some(o) && (db.sessions[c].status == ASSIGNED || db.sessions[c].status == IN_PROGRESS);
      assert c in OpenCalls(db, o);
    }
    if c :| c in OpenCalls(db, o) {
      assert db.sessions[c].assignee == Some(o);
    }
  }

  /** Guards before the update, a `where` clause and a diagnosis after it answer together what one look
      at the rows in order would. */
  lemma AnswersAreObstacles(db: Db, r: Request)
    ensures Verdict(db, r) == Obstacle(db, r)
  {
    if Target(r).Some? { BusyMeansOpenCall(db, Target(r).value); }
  }

  // ---- What is written ----

  predicate OnlyCall(db: Db, db': Db, c: SessionId, row: Session) {
    db'.users == db.users && db'.sessions == db.sessions[c := row]
  }

  predicate OnlyUser(db: Db, db': Db, u: UserId, row: User) {
    db'.sessions == db.sessions && db'.users == db.users[u := row]
  }

  predicate Written(db: Db, r: Request, db': Db) {
    if Touches(r).Some? && !r.Raise? then
      r.session in db.sessions && r.session in db'.sessions && OnlyCall(db, db', r.session, db'.sessions[r.session]) && CallWritten(db.sessions[r.session], r, db'.sessions[r.session])
    else if r.Raise? then
      OnlyCall(db, db', r.session, Session(r.user, r.org, r.venue, r.kind, NEW, None, None, None, []))
    else
      r.operator in db.users && r.operator in db'.users && OnlyUser(db, db', r.operator, db'.users[r.operator]) && UserWritten(db.users[r.operator], r, db'.users[r.operator])
  }

  /** The fields a request about a call sets; every other field stays. */
  predicate CallWritten(row: Session, r: Request, row': Session) {
    match r
    case Accept(_, o) => row' == row.(status := ASSIGNED, assignee := Some(o))
    case Assign(_, o) => row' == row.(status := ASSIGNED, assignee := Some(o))
    case Reassign(_, o) => row' == row.(status := ASSIGNED, assignee := Some(o))
    case Unassign(_) => row' == row.(status := NEW, assignee := None)
    case Reclaim(_, _) => row' == row.(status := NEW, assignee := None)
    case StartProgress(_, _) => row' == row.(status := IN_PROGRESS)
    case Resolve(_, _, text, now) => row' == row.(status := CLOSED, closedAt := Some(now), resolution := Some(text))
    case CloseByUser(_, _, now) => row' == row.(status := CLOSED, closedAt := Some(now))
    case CloseByAdmin(_, note, now) =>
      row'.resolution == (if note.Some? then note else Some("Closed by admin"))
      && row' == row.(status := CLOSED, closedAt := Some(now), assignee := None, resolution := row'.resolution)
    case AddLocation(_, _, location) =>
      && row.locations <= row'.locations && |row'.locations| == |row.locations| + 1 && row'.locations[|row.locations|] == location
      && row' == row.(locations := row'.locations)
    case _ => true
  }

  /** The fields a request about a shift sets; every other field stays. */
  predicate UserWritten(row: User, r: Request, row': User) {
    match r
    case StartShift(_, now) => row' == if row.onShift then row else row.(onShift := true, shiftStartedAt := Some(now))
    case SetShift(_, on, now) => row' == row.(onShift := on, shiftStartedAt := if on then Some(now) else None)
    case DeleteOperator(_, now) => row' == row.(onShift := false, shiftStartedAt := None, deletedAt := Some(now))
    case _ => row' == row.(onShift := false, shiftStartedAt := None)
  }

  /** Every committed handler writes exactly the fields its endpoint names. */
  lemma CommitWrites(db: Db, r: Request, db': Db)
    requires Commits(db, r, db')
    ensures Written(db, r, db')
  {}

  lemma HandledAsPromised(db: Db, r: Request)
    requires Good(db)
    ensures Good(Handle(db, r)) && Verdict(db, r) == Obstacle(db, r)
    ensures if Obstacle(db, r) == None then Written(db, r, Handle(db, r)) else Handle(db, r) == db
  {
    HandleKeepsGood(db, r);
    AnswersAreObstacles(db, r);
    if Verdict(db, r) == None { CommitWrites(db, r, Handle(db, r)); }
  }

  /** Whoever gets a call, gets it to begin with: it waits for him, even if another had begun it. */
  lemma ClaimedCallWaits(db: Db, r: Request, db': Db)
    requires Commits(db, r, db') && (r.Accept? || r.Assign? || r.Reassign?)
    ensures r.session in db'.sessions && db'.sessions[r.session].status == ASSIGNED && db'.sessions[r.session].assignee == Some(r.operator)
  {}

  // ---- Whole runs ----

  predicate BegunBy(db: Db, c: SessionId, o: UserId) {
    c in db.sessions && db.sessions[c].status == IN_PROGRESS && db.sessions[c].assignee == Some(o)
  }

  /** A call in progress was begun by the operator who holds it: no hand-over passes on a begun call. */
  lemma {:induction false} InProgressWasBegunByHolder(db: Db, reqs: seq<Request>, db': Db, c: SessionId, o: UserId)
    requires IsRun(db, reqs, db') && BegunBy(db', c, o)
    ensures BegunBy(db, c, o) || StartProgress(c, o) in reqs
    decreases |reqs|
  {
    if reqs != [] {
      var next := Effect(db, reqs[0]);
      InProgressWasBegunByHolder(next, reqs[1..], db', c, o);
      CommitWrites(db, reqs[0], next);
      if StartProgress(c, o) in reqs[1..] { assert StartProgress(c, o) in reqs; }
    }
  }

  /** The locations sent for the call, in the order of their commits. */
  function Sent(reqs: seq<Request>, c: SessionId): seq<Location> {
    if reqs == [] then []
    else (if reqs[0].AddLocation? && reqs[0].session == c then [reqs[0].location] else []) + Sent(reqs[1..], c)
  }

  function LocationsOf(db: Db, c: SessionId): seq<Location> {
    if c in db.sessions then db.sessions[c].locations else []
  }

  /** No location is lost, doubled or reordered, whatever else happens to the call. */
  lemma {:induction false} LocationsAreKept(db: Db, reqs: seq<Request>, db': Db, c: SessionId)
    requires IsRun(db, reqs, db')
    ensures LocationsOf(db', c) == LocationsOf(db, c) + Sent(reqs, c)
    decreases |reqs|
  {
    if reqs != [] {
      var next := Effect(db, reqs[0]);
      LocationsAreKept(next, reqs[1..], db', c);
      LocationWritten(db, reqs[0], c);
      Joined(LocationsOf(db, c), if reqs[0].AddLocation? && reqs[0].session == c then [reqs[0].location] else [], Sent(reqs[1..], c));
    }
  }

  lemma Joined(a: seq<Location>, b: seq<Location>, c: seq<Location>)
    ensures (a + b) + c == a + (b + c)
  {}

  lemma LocationWritten(db: Db, r: Request, c: SessionId)
    requires Refusal(db, r) == None
    ensures LocationsOf(Effect(db, r), c) == LocationsOf(db, c) + (if r.AddLocation? && r.session == c then [r.location] else [])
  {
    CommitWrites(db, r, Effect(db, r));
  }

  /** What the closing request left: its time, its text, and by whom the call stays held. */
  predicate ClosedBy(row: Session, r: Request) {
    match r
    case Resolve(_, o, text, now) => row.closedAt == Some(now) && row.resolution == Some(text) && row.assignee == Some(o)
    case CloseByAdmin(_, note, now) =>
      row.closedAt == Some(now) && row.assignee == None && row.resolution == (if note.Some? then note else Some("Closed by admin"))
    case CloseByUser(_, u, now) => row.closedAt == Some(now) && row.userId == u
    case _ => false
  }

  /** A closed call carries the time, text and holder of the one request that closed it. */
  lemma {:induction false} ClosedAsAsked(db: Db, reqs: seq<Request>, db': Db, c: SessionId) returns (i: nat)
    requires Good(db) && IsRun(db, reqs, db') && IsClosed(db, c) == 0 && IsClosed(db', c) == 1
    ensures i < |reqs| && Closes(reqs[i], c) && ClosedBy(db'.sessions[c], reqs[i])
    decreases |reqs|
  {
    var next := Effect(db, reqs[0]);
    CommitKeepsGood(db, reqs[0], next);
    CommitWrites(db, reqs[0], next);
    if IsClosed(next, c) == 1 {
      ClosedStaysFrozen(next, reqs[1..], db', c);
      i := 0;
    } else {
      i := ClosedAsAsked(next, reqs[1..], db', c);
      i := i + 1;
    }
  }

  /** In every interleaving a call in progress was begun by its holder, and its locations are exactly
      those committed. */
  lemma CallsAreAsLeft(s: State, labels: seq<Label>, s': State, c: SessionId, o: UserId)
    requires Initial(s) && Leads(s, labels, s')
    ensures BegunBy(s'.db, c, o) ==> BegunBy(s.db, c, o) || StartProgress(c, o) in Interleaving.Committed(s, labels, s')
    ensures LocationsOf(s'.db, c) == LocationsOf(s.db, c) + Sent(Interleaving.Committed(s, labels, s'), c)
  {
    InitialInv(s);
    InterleavingRefinesRun(s, labels, s');
    if BegunBy(s'.db, c, o) { InProgressWasBegunByHolder(s.db, Interleaving.Committed(s, labels, s'), s'.db, c, o); }
    LocationsAreKept(s.db, Interleaving.Committed(s, labels, s'), s'.db, c);
  }
}
