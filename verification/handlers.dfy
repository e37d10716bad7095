/** What each handler does to the rows when it runs alone, as the stages its statements form. */
module Handlers {
  import opened Rows

  datatype Error =
    | NotAnOperator | OperatorNotFound | UserNotFound
    | NotOnShift | OperatorBusy | ShiftHasOpenSessions
    | SessionNotFound | SessionAlreadyClosed | SessionAlreadyClaimed | SessionWrongStatus(status: Status)
    | NotAssignedToSession | AlreadyAssignedToThisOperator | NotYourSession
    | NoRowUpdated | DuplicateId

  /** HalfDone: the write is committed, but the handler fails afterwards. */
  datatype Outcome = Done | Refused(error: Error) | RolledBack | HalfDone

  /** A call of a handler; `now` is the value its `new Date()` gives. */
  datatype Request =
    | Accept(session: SessionId, operator: UserId)
    | StartProgress(session: SessionId, operator: UserId)
    | Resolve(session: SessionId, operator: UserId, text: string, now: Time)
    | StartShift(operator: UserId, now: Time)
    | EndShift(operator: UserId)
    | Assign(session: SessionId, operator: UserId)
    | Reassign(session: SessionId, operator: UserId)
    | Unassign(session: SessionId)
    | CloseByAdmin(session: SessionId, note: Option<string>, now: Time)
    | SetShift(operator: UserId, on: bool, now: Time)
    | DeleteOperator(operator: UserId, now: Time)
    | Raise(session: SessionId, user: UserId, org: Option<OrgId>, venue: Option<VenueId>, kind: EmergencyType)
    | AddLocation(session: SessionId, user: UserId, location: Location)
    | CloseByUser(session: SessionId, user: UserId, now: Time)
    | Reclaim(session: SessionId, operator: UserId)
    | DropShift(operator: UserId)

  /** The operator row the handler locks with SELECT ... FOR UPDATE, if it locks one. */
  function Target(r: Request): Option<UserId> {
    match r
    case Accept(_, o) => Some(o)
    case Assign(_, o) => Some(o)
    case Reassign(_, o) => Some(o)
    case EndShift(o) => Some(o)
    case SetShift(o, _, _) => Some(o)
    case DeleteOperator(o, _) => Some(o)
    case DropShift(o) => Some(o)
    case _ => None
  }

  /** The session row the handler writes, if it writes one. */
  function Touches(r: Request): Option<SessionId> {
    match r
    case Accept(s, _) => Some(s)
    case StartProgress(s, _) => Some(s)
    case Resolve(s, _, _, _) => Some(s)
    case Assign(s, _) => Some(s)
    case Reassign(s, _) => Some(s)
    case Unassign(s) => Some(s)
    case CloseByAdmin(s, _, _) => Some(s)
    case Raise(s, _, _, _, _) => Some(s)
    case AddLocation(s, _, _) => Some(s)
    case CloseByUser(s, _, _) => Some(s)
    case Reclaim(s, _) => Some(s)
    case _ => None
  }

  /** The user row the handler writes, if it writes one. */
  function WritesUser(r: Request): Option<UserId> {
    match r
    case StartShift(o, _) => Some(o)
    case EndShift(o) => Some(o)
    case SetShift(o, _, _) => Some(o)
    case DeleteOperator(o, _) => Some(o)
    case DropShift(o) => Some(o)
    case _ => None
  }

  predicate IsOperator(db: Db, o: UserId) {
    o in db.users && db.users[o].role == OPERATOR
  }

  predicate IsLiveOperator(db: Db, o: UserId) {
    IsOperator(db, o) && db.users[o].deletedAt == None
  }

  /** Checks made before the transaction opens, on rows nothing holds still. */
  function Precheck(db: Db, r: Request): Option<Error> {
    match r
    case SetShift(o, _, _) => if IsOperator(db, o) then None else Some(NotAnOperator)
    case DeleteOperator(o, _) => if IsLiveOperator(db, o) then None else Some(OperatorNotFound)
    case _ => None
  }

  /** The tests on the locked operator row. */
  function ReadGuard(db: Db, r: Request): Option<Error> {
    match r
    case Accept(_, o) => if OnShift(db, o) then None else Some(NotOnShift)
    case Assign(_, o) => CanTakeSession(db, o)
    case Reassign(_, o) => CanTakeSession(db, o)
    case _ => None
  }

  function CanTakeSession(db: Db, o: UserId): Option<Error> {
    if !IsLiveOperator(db, o) then Some(NotAnOperator)
    else if !db.users[o].onShift then Some(NotOnShift)
    else None
  }

  /** The tests on the number of open calls of the locked operator. */
  function CountGuard(db: Db, r: Request): Option<Error> {
    match r
    case Accept(_, o) => if OpenCalls(db, o) == {} then None else Some(OperatorBusy)
    case Assign(_, o) => if OpenCalls(db, o) == {} then None else Some(OperatorBusy)
    case Reassign(_, o) => if OpenCalls(db, o) == {} then None else Some(OperatorBusy)
    case EndShift(o) => if o in db.users && OpenCalls(db, o) == {} then None else Some(ShiftHasOpenSessions)
    case SetShift(o, on, _) => if on || OpenCalls(db, o) == {} then None else Some(ShiftHasOpenSessions)
    case DeleteOperator(o, _) => if OpenCalls(db, o) == {} then None else Some(ShiftHasOpenSessions)
    case DropShift(o) => if OnShift(db, o) && OpenCalls(db, o) == {} then None else Some(NoRowUpdated)
    case _ => None
  }

  /** The `where` clause of the writing statement finds its row. */
  predicate Matches(db: Db, r: Request) {
    match r
    case Accept(s, _) => s in db.sessions && db.sessions[s].status == NEW && db.sessions[s].assignee == None
    case StartProgress(s, o) => s in db.sessions && db.sessions[s].status == ASSIGNED && db.sessions[s].assignee == Some(o)
    case Resolve(s, o, _, _) => s in db.sessions && db.sessions[s].status != CLOSED && db.sessions[s].assignee == Some(o)
    case Assign(s, _) => s in db.sessions && db.sessions[s].status != CLOSED && db.sessions[s].assignee == None
    // `assignedOperatorId: { not: o }` is SQL `<>`, which is not true of NULL.
    case Reassign(s, o) => s in db.sessions && db.sessions[s].status != CLOSED && db.sessions[s].assignee.Some? && db.sessions[s].assignee.value != o
    case Unassign(s) => s in db.sessions && db.sessions[s].status != CLOSED
    case CloseByAdmin(s, _, _) => s in db.sessions && db.sessions[s].status != CLOSED
    case Raise(s, u, _, _, _) => s !in db.sessions && u in db.users
    case AddLocation(s, u, _) => s in db.sessions && db.sessions[s].userId == u && db.sessions[s].status != CLOSED
    case CloseByUser(s, u, _) => s in db.sessions && db.sessions[s].userId == u && db.sessions[s].status != CLOSED
    case Reclaim(s, o) => s in db.sessions && db.sessions[s].status == ASSIGNED && db.sessions[s].assignee == Some(o)
    case StartShift(o, _) => o in db.users
    case EndShift(o) => o in db.users
    case SetShift(o, _, _) => o in db.users
    case DeleteOperator(o, _) => o in db.users
    case DropShift(o) => o in db.users
  }

  /** The error the `catch` branch reports after re-reading the row. */
  function Diagnose(db: Db, r: Request): Error {
    if Touches(r) == None then UserNotFound
    else if r.Raise? then (if r.session in db.sessions then DuplicateId else UserNotFound)
    else if r.session !in db.sessions then SessionNotFound
    else
      var row := db.sessions[r.session];
      match r
      case Accept(_, _) => if row.assignee.Some? then SessionAlreadyClaimed else SessionWrongStatus(row.status)
      case StartProgress(_, o) => if row.assignee != Some(o) then NotAssignedToSession else SessionWrongStatus(row.status)
      case Resolve(_, o, _, _) => if row.assignee != Some(o) then NotAssignedToSession else SessionAlreadyClosed
      case Assign(_, _) => if row.status == CLOSED then SessionAlreadyClosed else SessionAlreadyClaimed
      case Reassign(_, o) =>
        if row.status == CLOSED then SessionAlreadyClosed
        else if row.assignee == Some(o) then AlreadyAssignedToThisOperator
        else SessionWrongStatus(row.status)
      case Unassign(_) => SessionAlreadyClosed
      case CloseByAdmin(_, _, _) => SessionAlreadyClosed
      case AddLocation(_, u, _) => if row.userId != u then NotYourSession else SessionAlreadyClosed
      case CloseByUser(_, u, _) => if row.userId != u then NotYourSession else SessionAlreadyClosed
      case _ => NoRowUpdated
  }

  function FreshSession(user: UserId, org: Option<OrgId>, venue: Option<VenueId>, kind: EmergencyType): Session {
    Session(user, org, venue, kind, NEW, None, None, None, [])
  }

  /** The session row after the write. */
  function NewRow(db: Db, r: Request): Session
    requires Touches(r).Some? && Matches(db, r)
  {
    if r.Raise? then FreshSession(r.user, r.org, r.venue, r.kind)
    else
      var row := db.sessions[r.session];
      match r
      case StartProgress(_, _) => row.(status := IN_PROGRESS)
      case Resolve(_, _, text, now) => row.(status := CLOSED, closedAt := Some(now), resolution := Some(text))
      case Unassign(_) => row.(status := NEW, assignee := None)
      case Reclaim(_, _) => row.(status := NEW, assignee := None)
      case CloseByAdmin(_, note, now) =>
        row.(status := CLOSED, closedAt := Some(now), assignee := None,
             resolution := Some(if note.Some? then note.value else "Closed by admin"))
      case AddLocation(_, _, location) => row.(locations := row.locations + [location])
      case CloseByUser(_, _, now) => row.(status := CLOSED, closedAt := Some(now))
      case Accept(_, o) => row.(status := ASSIGNED, assignee := Some(o))
      case Assign(_, o) => row.(status := ASSIGNED, assignee := Some(o))
      case Reassign(_, o) => row.(status := ASSIGNED, assignee := Some(o))
      case _ => row
  }

  /** The user row after the write. */
  function NewUser(db: Db, r: Request): User
    requires WritesUser(r).Some? && Matches(db, r)
  {
    var row := db.users[r.operator];
    match r
    case StartShift(_, now) => if row.onShift then row else row.(onShift := true, shiftStartedAt := Some(now))
    case SetShift(_, on, now) => row.(onShift := on, shiftStartedAt := if on then Some(now) else None)
    case DeleteOperator(_, now) => row.(onShift := false, shiftStartedAt := None, deletedAt := Some(now))
    case _ => row.(onShift := false, shiftStartedAt := None)
  }

  /** The rows after the writing statement. */
  function Effect(db: Db, r: Request): Db
    requires Matches(db, r)
  {
    if Touches(r).Some? then db.(sessions := db.sessions[Touches(r).value := NewRow(db, r)])
    else db.(users := db.users[r.operator := NewUser(db, r)])
  }

  /** The error of the first stage after the preliminary reads that refuses, if one does. */
  function Refusal(db: Db, r: Request): Option<Error> {
    if ReadGuard(db, r).Some? then ReadGuard(db, r)
    else if CountGuard(db, r).Some? then CountGuard(db, r)
    else if !Matches(db, r) then Some(Diagnose(db, r))
    else None
  }

  /** The error the handler answers with when it runs alone, if it refuses. */
  function Verdict(db: Db, r: Request): Option<Error> {
    if Precheck(db, r).Some? then Precheck(db, r) else Refusal(db, r)
  }

  /** The rows after the handler ran alone. */
  function Handle(db: Db, r: Request): Db {
    if Verdict(db, r) == None then Effect(db, r) else db
  }

  /** Commit of the handler's write in the given state: every stage after the preliminary reads agrees. */
  predicate Commits(db: Db, r: Request, db': Db) {
    Refusal(db, r) == None && db' == Effect(db, r)
  }

  /** The answer read off the row after a failed update is the one the handler would give if it ran alone
      at that moment exactly if the earlier stages agree and the update would fail then, too. */
  lemma DiagnosisIsTrueIff(db: Db, r: Request)
    ensures Refusal(db, r) == Some(Diagnose(db, r)) <==>
              ReadGuard(db, r) == None && CountGuard(db, r) == None && !Matches(db, r)
    ensures Target(r) == None ==> ReadGuard(db, r) == None && CountGuard(db, r) == None
  {}
}
