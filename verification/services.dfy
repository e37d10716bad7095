/** The services as classes that update the rows and emit the events, proved against the handlers. */
module Services {
  import opened Rows
  import opened Handlers
  import opened Runs
  import opened Fanout
  import opened Promises
  import opened Redis

  /** The tables the services share. */
  class Database {
    var users: map<UserId, User>
    var sessions: map<SessionId, Session>

    constructor (rows: Db)
      ensures Rows() == rows
    {
      users, sessions := rows.users, rows.sessions;
    }

    function Rows(): Db
      reads this
    {
      Db(users, sessions)
    }

    ghost predicate Valid()
      reads this
    {
      Good(Rows())
    }

    method CountOpenCalls(operator: UserId) returns (count: nat)
      ensures count == |OpenCalls(Rows(), operator)|
      ensures count == 0 <==> OpenCalls(Rows(), operator) == {}
    {
      var found := set s | s in sessions && sessions[s].assignee == Some(operator) && KeepsBusy(sessions[s].status);
      assert found == OpenCalls(Rows(), operator);
      count := |found|;
    }
  }

  /** The rows of a query, in the order they happen to come. */
  method Listed(found: set<nat>) returns (list: seq<nat>)
    ensures forall x :: x in list <==> x in found
    ensures forall i, j :: 0 <= i < j < |list| ==> list[i] != list[j]
  {
    list := [];
    var rest := found;
    while rest != {}
      invariant rest <= found
      invariant forall x :: x in found <==> x in list || x in rest
      invariant forall x :: x in list ==> x !in rest
      invariant forall i, j :: 0 <= i < j < |list| ==> list[i] != list[j]
      decreases rest
    {
      var x :| x in rest;
      list := list + [x];
      rest := rest - {x};
    }
  }

  const BOOTSTRAP_LIMIT: nat := 100

  function Named(ids: seq<Option<UserId>>): set<UserId> {
    set i | 0 <= i < |ids| && ids[i].Some? :: ids[i].value
  }

  class WebsocketGateway {
    const db: Database
    var sockets: Sockets
    var sent: seq<Event>

    constructor (db: Database)
      ensures this.db == db && sockets == map[] && sent == []
    {
      this.db := db;
      sockets, sent := map[], [];
    }

    function World(): World
      reads this, db
    {
      Fanout.World(db.Rows(), sockets)
    }

    /** A handshake: the rooms, and for an operator his open calls and, if he is free and on shift, the
        pool, cut off at a hundred. */
    method HandleConnection(k: SocketId, user: UserId) returns (mine: seq<SessionId>, pool: seq<SessionId>, onShift: bool)
      requires k !in sockets
      modifies this`sockets
      ensures World() == After(old(World()), Connect(k, user))
      ensures k in sockets && IsOperator(db.Rows(), user) ==>
                && onShift == OnShift(db.Rows(), user)
                && (forall c :: c in mine <==> c in OpenCalls(db.Rows(), user))
                && (forall c :: c in pool ==> c in Fanout.GetPool(db.Rows(), user))
                && (forall i, j :: 0 <= i < j < |pool| ==> pool[i] != pool[j]) && |pool| <= 100
                && (|pool| >= 100 || forall c :: c in Fanout.GetPool(db.Rows(), user) ==> c in pool)
    {
      mine, pool, onShift := [], [], false;
      if user !in db.users || db.users[user].deletedAt.Some? { return; }
      sockets := sockets[k := Socket(user, RoomsFor(db.Rows(), user))];
      if db.users[user].role == OPERATOR {
        onShift := db.users[user].onShift;
        mine := Listed(OpenCalls(db.Rows(), user));
        assert mine == [] || mine[0] in OpenCalls(db.Rows(), user);
        if onShift && |mine| == 0 {
          var free := Listed(Pool(db.Rows()));
          pool := if |free| > BOOTSTRAP_LIMIT then free[..BOOTSTRAP_LIMIT] else free;
        }
      }
    }

    method Emit(e: Event)
      modifies this`sent
      ensures sent == old(sent) + [e]
    {
      sent := sent + [e];
    }

    method RoomsOf(user: UserId, ids: seq<Option<UserId>>) returns (rooms: set<Room>)
      ensures rooms == SessionRooms(user, Named(ids))
      ensures AdminRoom in rooms && UserRoom(user) in rooms && OperatorsRoom !in rooms && OnShiftRoom !in rooms
      ensures forall o: UserId :: (OperatorRoom(o) in rooms <==> Some(o) in ids) && (UserRoom(o) in rooms ==> o == user)
    {
      rooms := {AdminRoom};
      rooms := rooms + {UserRoom(user)};
      var i := 0;
      while i < |ids|
        invariant 0 <= i <= |ids|
        invariant rooms == SessionRooms(user, Named(ids[..i]))
      {
        assert forall o :: o in Named(ids[..i + 1]) <==> o in Named(ids[..i]) || ids[i] == Some(o) by {
          NamedGrows(ids, i);
        }
        if ids[i].Some? {
          rooms := rooms + {OperatorRoom(ids[i].value)};
        }
        i := i + 1;
      }
      assert ids[..|ids|] == ids;
    }

    /** Personal rooms of the operators who have an open call. */
    method BusyOperatorRooms() returns (rooms: set<Room>)
      ensures rooms == BusyRooms(db.Rows())
    {
      var list := Listed(set c | c in db.sessions && KeepsBusy(db.sessions[c].status) && db.sessions[c].assignee.Some?);
      rooms := {};
      var i := 0;
      while i < |list|
        invariant 0 <= i <= |list|
        invariant forall c :: c in list ==> c in db.sessions && db.sessions[c].assignee.Some?
        invariant rooms == set c | c in list[..i] :: OperatorRoom(db.sessions[c].assignee.value)
      {
        assert list[..i + 1] == list[..i] + [list[i]];
        rooms := rooms + {OperatorRoom(db.sessions[list[i]].assignee.value)};
        i := i + 1;
      }
      assert list[..|list|] == list;
    }

    method EmitCard(kind: Kind, c: SessionId, row: Session, ids: seq<Option<UserId>>)
      modifies this`sent
      ensures sent == old(sent) + [CardEvent(kind, c, row, Named(ids))]
    {
      var rooms := RoomsOf(row.userId, ids);
      Emit(Event(kind, Some(c), Some(row), rooms, {}));
    }

    method EmitPoolRemoved(c: SessionId)
      modifies this`sent
      ensures sent == old(sent) + [PoolRemovedEvent(c)]
    {
      Emit(Event(PoolRemoved, Some(c), None, {OnShiftRoom}, {}));
    }

    /** Nobody busy is disturbed, but a failing query must not cost an alarm. */
    method OfferToFreeOperators(c: SessionId, includeAdmins: bool, busyKnown: bool)
      requires c in db.sessions
      modifies this`sent
      ensures sent == old(sent) + [OfferEvent(db.Rows(), c, includeAdmins, busyKnown)]
    {
      var busy := {};
      if busyKnown { busy := BusyOperatorRooms(); }
      Emit(Event(EmergencyNew, Some(c), Some(db.sessions[c]), if includeAdmins then {AdminRoom, OnShiftRoom} else {OnShiftRoom}, busy));
    }

    method EmitShiftEnded(operator: UserId)
      modifies this`sent
      ensures sent == old(sent) + [ShiftEndedEvent(operator)]
    {
      Emit(Event(ShiftEnded, None, None, {OperatorRoom(operator)}, {}));
    }

    method SetOperatorShiftRoom(operator: UserId, onShift: bool)
      modifies this`sockets
      ensures sockets.Keys == old(sockets).Keys
      ensures forall k :: k in sockets ==>
                if OperatorRoom(operator) in old(sockets)[k].rooms
                then && (OnShiftRoom in sockets[k].rooms <==> onShift)
                     && sockets[k].rooms - {OnShiftRoom} == old(sockets)[k].rooms - {OnShiftRoom}
                     && sockets[k].user == old(sockets)[k].user
                else sockets[k] == old(sockets)[k]
      ensures sockets == MoveShiftRoom(old(sockets), operator, onShift)
    {
      sockets := MoveShiftRoom(sockets, operator, onShift);
    }

    method DisconnectUser(user: UserId)
      modifies this`sockets
      ensures sockets == Disconnected(old(sockets), user)
    {
      sockets := Disconnected(sockets, user);
    }

    /** Operators with a live socket in the broadcast room, each once. */
    method GetConnectedOnShiftOperatorIds() returns (ids: set<UserId>)
      ensures ids == ConnectedOnShift(sockets)
    {
      var list := Listed(set k | k in sockets && OnShiftRoom in sockets[k].rooms);
      ids := {};
      var i := 0;
      while i < |list|
        invariant 0 <= i <= |list|
        invariant forall k :: k in list ==> k in sockets
        invariant ids == set k | k in list[..i] :: sockets[k].user
      {
        assert list[..i + 1] == list[..i] + [list[i]];
        ids := ids + {sockets[list[i]].user};
        i := i + 1;
      }
      assert list[..|list|] == list;
    }
  }

  lemma NamedGrows(ids: seq<Option<UserId>>, i: nat)
    requires i < |ids|
    ensures Named(ids[..i + 1]) == Named(ids[..i]) + AsSet(ids[i])
  {}

  lemma NamedPair(a: Option<UserId>, b: Option<UserId>)
    ensures Named([a, b]) == AsSet(a) + AsSet(b) && Named([a]) == AsSet(a) + AsSet(None)
  {
    assert [a, b][0] == a && [a, b][1] == b && [a][0] == a;
  }

  function AnswerOf(refusal: Option<Error>): Outcome {
    if refusal.Some? then Refused(refusal.value) else Done
  }

  /** The operator side: dispatch.service.ts. */
  class DispatchService {
    const db: Database
    const redis: RedisService
    const gateway: WebsocketGateway

    constructor (db: Database, redis: RedisService, gateway: WebsocketGateway)
      requires gateway.db == db
      ensures this.db == db && this.redis == redis && this.gateway == gateway
    {
      this.db, this.redis, this.gateway := db, redis, gateway;
    }

    predicate Wired() { gateway.db == db }

    method AcceptSession(c: SessionId, operator: UserId) returns (answer: Outcome)
      requires Wired() && db.Valid()
      modifies db, gateway`sent
      ensures db.Valid()
      ensures answer == AnswerOf(Obstacle(old(db.Rows()), Accept(c, operator)))
      ensures if answer == Done then Written(old(db.Rows()), Accept(c, operator), db.Rows()) else db.Rows() == old(db.Rows())
      ensures answer == AnswerOf(Verdict(old(db.Rows()), Accept(c, operator)))
      ensures gateway.World() == After(old(gateway.World()), Call(Accept(c, operator)))
      ensures gateway.sent == old(gateway.sent) + Heard(old(gateway.World()), Call(Accept(c, operator)))
    {
      HandledAsPromised(db.Rows(), Accept(c, operator));
      if operator !in db.users || !db.users[operator].onShift { return Refused(NotOnShift); }
      var openAssigned := db.CountOpenCalls(operator);
      if openAssigned > 0 { return Refused(OperatorBusy); }
      if c in db.sessions && db.sessions[c].status == NEW && db.sessions[c].assignee == None {
        db.sessions := db.sessions[c := db.sessions[c].(status := ASSIGNED, assignee := Some(operator))];
        NamedPair(Some(operator), None);
        gateway.EmitCard(CallAssigned, c, db.sessions[c], [db.sessions[c].assignee]);
        gateway.EmitPoolRemoved(c);
        assert gateway.sent == old(gateway.sent) + EventsOf(old(db.Rows()), Accept(c, operator));
        return Done;
      }
      if c !in db.sessions { return Refused(SessionNotFound); }
      if db.sessions[c].assignee.Some? { return Refused(SessionAlreadyClaimed); }
      return Refused(SessionWrongStatus(db.sessions[c].status));
    }

    method StartProgress(c: SessionId, operator: UserId) returns (answer: Outcome)
      requires Wired() && db.Valid()
      modifies db, gateway`sent
      ensures db.Valid()
      ensures answer == AnswerOf(Obstacle(old(db.Rows()), Request.StartProgress(c, operator)))
      ensures if answer == Done then Written(old(db.Rows()), Request.StartProgress(c, operator), db.Rows()) else db.Rows() == old(db.Rows())
      ensures answer == AnswerOf(Verdict(old(db.Rows()), Request.StartProgress(c, operator)))
      ensures gateway.World() == After(old(gateway.World()), Call(Request.StartProgress(c, operator)))
      ensures gateway.sent == old(gateway.sent) + Heard(old(gateway.World()), Call(Request.StartProgress(c, operator)))
    {
      HandledAsPromised(db.Rows(), Request.StartProgress(c, operator));
      if c in db.sessions && db.sessions[c].status == ASSIGNED && db.sessions[c].assignee == Some(operator) {
        db.sessions := db.sessions[c := db.sessions[c].(status := IN_PROGRESS)];
        NamedPair(Some(operator), None);
        gateway.EmitCard(CallInProgress, c, db.sessions[c], [db.sessions[c].assignee]);
        assert gateway.sent == old(gateway.sent) + EventsOf(old(db.Rows()), Request.StartProgress(c, operator));
        return Done;
      }
      if c !in db.sessions { return Refused(SessionNotFound); }
      if db.sessions[c].assignee != Some(operator) { return Refused(NotAssignedToSession); }
      return Refused(SessionWrongStatus(db.sessions[c].status));
    }

    method ResolveSession(c: SessionId, operator: UserId, resolution: string) returns (answer: Outcome)
      requires Wired() && db.Valid()
      modifies db, gateway`sent
      ensures db.Valid()
      ensures answer == AnswerOf(Obstacle(old(db.Rows()), Resolve(c, operator, resolution, redis.now)))
      ensures if answer == Done then Written(old(db.Rows()), Resolve(c, operator, resolution, redis.now), db.Rows()) else db.Rows() == old(db.Rows())
      ensures answer == AnswerOf(Verdict(old(db.Rows()), Resolve(c, operator, resolution, redis.now)))
      ensures gateway.World() == After(old(gateway.World()), Call(Resolve(c, operator, resolution, redis.now)))
      ensures gateway.sent == old(gateway.sent) + Heard(old(gateway.World()), Call(Resolve(c, operator, resolution, redis.now)))
    {
      HandledAsPromised(db.Rows(), Resolve(c, operator, resolution, redis.now));
      if c in db.sessions && db.sessions[c].status != CLOSED && db.sessions[c].assignee == Some(operator) {
        db.sessions := db.sessions[c := db.sessions[c].(status := CLOSED, closedAt := Some(redis.now), resolution := Some(resolution))];
        NamedPair(Some(operator), None);
        gateway.EmitCard(CallClosed, c, db.sessions[c], [db.sessions[c].assignee]);
        gateway.EmitPoolRemoved(c);
        assert gateway.sent == old(gateway.sent) + EventsOf(old(db.Rows()), Resolve(c, operator, resolution, redis.now));
        return Done;
      }
      if c !in db.sessions { return Refused(SessionNotFound); }
      if db.sessions[c].assignee != Some(operator) { return Refused(NotAssignedToSession); }
      return Refused(SessionAlreadyClosed);
    }

    /** The row is committed first; if the heartbeat then cannot be written, the caller gets an error
        and the sockets stay where they are. */
    method StartShift(operator: UserId, redisUp: bool) returns (answer: Outcome)
      requires Wired() && db.Valid() && redis.Valid()
      modifies db, gateway`sockets, redis
      ensures db.Valid()
      ensures if Obstacle(old(db.Rows()), Request.StartShift(operator, redis.now)) == None then Written(old(db.Rows()), Request.StartShift(operator, redis.now), db.Rows()) else answer == AnswerOf(Obstacle(old(db.Rows()), Request.StartShift(operator, redis.now))) && db.Rows() == old(db.Rows())
      ensures redis.Valid() && redis.now == old(redis.now)
      ensures db.Rows() == Handle(old(db.Rows()), Request.StartShift(operator, redis.now))
      ensures redisUp ==>
                && answer == AnswerOf(Verdict(old(db.Rows()), Request.StartShift(operator, redis.now)))
                && gateway.World() == After(old(gateway.World()), Call(Request.StartShift(operator, redis.now)))
      ensures !redisUp ==> answer != Done && gateway.sockets == old(gateway.sockets)
      ensures redis.beats == if answer == Done then old(redis.beats)[operator := redis.now] else old(redis.beats)
    {
      HandledAsPromised(db.Rows(), Request.StartShift(operator, redis.now));
      if operator in db.users && !db.users[operator].onShift {
        db.users := db.users[operator := db.users[operator].(onShift := true, shiftStartedAt := Some(redis.now))];
      }
      if operator !in db.users { return Refused(UserNotFound); }
      assert db.users == old(db.users)[operator := db.users[operator]];
      if !redisUp { return HalfDone; }
      redis.SetOperatorHeartbeat(operator, 0);
      gateway.SetOperatorShiftRoom(operator, true);
      return Done;
    }

    method EndShift(operator: UserId) returns (answer: Outcome)
      requires Wired() && db.Valid()
      modifies db, gateway`sockets
      ensures db.Valid()
      ensures answer == AnswerOf(Obstacle(old(db.Rows()), Request.EndShift(operator)))
      ensures if answer == Done then Written(old(db.Rows()), Request.EndShift(operator), db.Rows()) else db.Rows() == old(db.Rows())
      ensures answer == AnswerOf(Verdict(old(db.Rows()), Request.EndShift(operator)))
      ensures gateway.World() == After(old(gateway.World()), Call(Request.EndShift(operator)))
    {
      HandledAsPromised(db.Rows(), Request.EndShift(operator));
      var open := db.CountOpenCalls(operator);
      var count := 0;
      if operator in db.users && open == 0 {
        db.users := db.users[operator := db.users[operator].(onShift := false, shiftStartedAt := None)];
        count := 1;
      }
      if count == 0 { return Refused(ShiftHasOpenSessions); }
      gateway.SetOperatorShiftRoom(operator, false);
      return Done;
    }

    /** The pool, all pages: empty off shift and while a call of one's own is open. */
    method GetPool(operator: UserId) returns (list: seq<SessionId>)
      ensures forall c :: c in list <==> c in Fanout.GetPool(db.Rows(), operator)
      ensures forall c :: c in list <==>
                && operator in db.users && db.users[operator].onShift && !HasOpenCall(db.Rows(), operator)
                && c in db.sessions && db.sessions[c].status == NEW && db.sessions[c].assignee == None
      ensures forall i, j :: 0 <= i < j < |list| ==> list[i] != list[j]
    {
      var openAssigned := db.CountOpenCalls(operator);
      BusyMeansOpenCall(db.Rows(), operator);
      if operator !in db.users || !db.users[operator].onShift || openAssigned > 0 { return []; }
      list := Listed(set c | c in db.sessions && db.sessions[c].status == NEW && db.sessions[c].assignee == None);
    }
  }

  /** The admin side of the dispatch protocol: admin.service.ts. */
  class AdminService {
    const db: Database
    const redis: RedisService
    const gateway: WebsocketGateway

    constructor (db: Database, redis: RedisService, gateway: WebsocketGateway)
      requires gateway.db == db
      ensures this.db == db && this.redis == redis && this.gateway == gateway
    {
      this.db, this.redis, this.gateway := db, redis, gateway;
    }

    predicate Wired() { gateway.db == db }

    method AssertOperatorCanTakeSession(operator: UserId) returns (refusal: Option<Error>)
      ensures forall c :: refusal == (if ReadGuard(db.Rows(), Assign(c, operator)).Some? then ReadGuard(db.Rows(), Assign(c, operator)) else CountGuard(db.Rows(), Assign(c, operator)))
      ensures forall c :: refusal == (if ReadGuard(db.Rows(), Reassign(c, operator)).Some? then ReadGuard(db.Rows(), Reassign(c, operator)) else CountGuard(db.Rows(), Reassign(c, operator)))
    {
      if operator !in db.users || db.users[operator].role != OPERATOR || db.users[operator].deletedAt.Some? { return Some(NotAnOperator); }
      if !db.users[operator].onShift { return Some(NotOnShift); }
      var openSessions := db.CountOpenCalls(operator);
      if openSessions > 0 { return Some(OperatorBusy); }
      return None;
    }

    method AssignSession(c: SessionId, operator: UserId) returns (answer: Outcome)
      requires Wired() && db.Valid()
      modifies db, gateway`sent
      ensures db.Valid()
      ensures answer == AnswerOf(Obstacle(old(db.Rows()), Assign(c, operator)))
      ensures if answer == Done then Written(old(db.Rows()), Assign(c, operator), db.Rows()) else db.Rows() == old(db.Rows())
      ensures answer == Done ==>
                c in old(db.sessions) && db.users == old(db.users)
                && db.sessions == old(db.sessions)[c := old(db.sessions)[c].(status := ASSIGNED, assignee := Some(operator))]
      ensures answer == AnswerOf(Verdict(old(db.Rows()), Assign(c, operator)))
      ensures gateway.World() == After(old(gateway.World()), Call(Assign(c, operator)))
      ensures gateway.sent == old(gateway.sent) + Heard(old(gateway.World()), Call(Assign(c, operator)))
    {
      HandledAsPromised(db.Rows(), Assign(c, operator));
      var refusal := AssertOperatorCanTakeSession(operator);
      if refusal.Some? { return Refused(refusal.value); }
      if c in db.sessions && db.sessions[c].status != CLOSED && db.sessions[c].assignee == None {
        db.sessions := db.sessions[c := db.sessions[c].(assignee := Some(operator), status := ASSIGNED)];
        NamedPair(Some(operator), None);
        gateway.EmitCard(CallAssigned, c, db.sessions[c], [db.sessions[c].assignee]);
        gateway.EmitPoolRemoved(c);
        assert gateway.sent == old(gateway.sent) + EventsOf(old(db.Rows()), Assign(c, operator));
        return Done;
      }
      if c !in db.sessions { return Refused(SessionNotFound); }
      if db.sessions[c].status == CLOSED { return Refused(SessionAlreadyClosed); }
      return Refused(SessionAlreadyClaimed);
    }

    method ReassignSession(c: SessionId, operator: UserId) returns (answer: Outcome)
      requires Wired() && db.Valid()
      modifies db, gateway`sent
      ensures db.Valid()
      ensures answer == AnswerOf(Obstacle(old(db.Rows()), Reassign(c, operator)))
      ensures if answer == Done then Written(old(db.Rows()), Reassign(c, operator), db.Rows()) else db.Rows() == old(db.Rows())
      ensures answer == Done ==>
                c in old(db.sessions) && db.users == old(db.users)
                && db.sessions == old(db.sessions)[c := old(db.sessions)[c].(status := ASSIGNED, assignee := Some(operator))]
      ensures answer == AnswerOf(Verdict(old(db.Rows()), Reassign(c, operator)))
      ensures gateway.World() == After(old(gateway.World()), Call(Reassign(c, operator)))
      ensures gateway.sent == old(gateway.sent) + Heard(old(gateway.World()), Call(Reassign(c, operator)))
    {
      HandledAsPromised(db.Rows(), Reassign(c, operator));
      var before := AssigneeIn(db.Rows(), c);
      var refusal := AssertOperatorCanTakeSession(operator);
      if refusal.Some? { return Refused(refusal.value); }
      if c in db.sessions && db.sessions[c].status != CLOSED && db.sessions[c].assignee.Some? && db.sessions[c].assignee.value != operator {
        db.sessions := db.sessions[c := db.sessions[c].(assignee := Some(operator), status := ASSIGNED)];
        NamedPair(Some(operator), before);
        gateway.EmitCard(CallReassigned, c, db.sessions[c], [db.sessions[c].assignee, before]);
        assert gateway.sent == old(gateway.sent) + EventsOf(old(db.Rows()), Reassign(c, operator));
        return Done;
      }
      if c !in db.sessions { return Refused(SessionNotFound); }
      if db.sessions[c].status == CLOSED { return Refused(SessionAlreadyClosed); }
      if db.sessions[c].assignee == Some(operator) { return Refused(AlreadyAssignedToThisOperator); }
      return Refused(SessionWrongStatus(db.sessions[c].status));
    }

    method UnassignSession(c: SessionId, busyKnown: bool) returns (answer: Outcome)
      requires Wired() && db.Valid()
      modifies db, gateway`sent
      ensures db.Valid()
      ensures answer == AnswerOf(Obstacle(old(db.Rows()), Unassign(c)))
      ensures if answer == Done then Written(old(db.Rows()), Unassign(c), db.Rows()) else db.Rows() == old(db.Rows())
      ensures answer == AnswerOf(Verdict(old(db.Rows()), Unassign(c)))
      ensures gateway.World() == After(old(gateway.World()), Call(Unassign(c), busyKnown))
      ensures gateway.sent == old(gateway.sent) + Heard(old(gateway.World()), Call(Unassign(c), busyKnown))
    {
      HandledAsPromised(db.Rows(), Unassign(c));
      var before := AssigneeIn(db.Rows(), c);
      if c in db.sessions && db.sessions[c].status != CLOSED {
        db.sessions := db.sessions[c := db.sessions[c].(assignee := None, status := NEW)];
        NamedPair(None, before);
        gateway.EmitCard(CallReassigned, c, db.sessions[c], [db.sessions[c].assignee, before]);
        gateway.OfferToFreeOperators(c, false, busyKnown);
        assert gateway.sent == old(gateway.sent) + EventsOf(old(db.Rows()), Unassign(c), busyKnown);
        return Done;
      }
      if c !in db.sessions { return Refused(SessionNotFound); }
      return Refused(SessionAlreadyClosed);
    }

    method CloseSessionAdmin(c: SessionId, resolution: Option<string>) returns (answer: Outcome)
      requires Wired() && db.Valid()
      modifies db, gateway`sent
      ensures db.Valid()
      ensures answer == AnswerOf(Obstacle(old(db.Rows()), CloseByAdmin(c, resolution, redis.now)))
      ensures if answer == Done then Written(old(db.Rows()), CloseByAdmin(c, resolution, redis.now), db.Rows()) else db.Rows() == old(db.Rows())
      ensures answer == AnswerOf(Verdict(old(db.Rows()), CloseByAdmin(c, resolution, redis.now)))
      ensures gateway.World() == After(old(gateway.World()), Call(CloseByAdmin(c, resolution, redis.now)))
      ensures gateway.sent == old(gateway.sent) + Heard(old(gateway.World()), Call(CloseByAdmin(c, resolution, redis.now)))
    {
      HandledAsPromised(db.Rows(), CloseByAdmin(c, resolution, redis.now));
      var before := AssigneeIn(db.Rows(), c);
      if c in db.sessions && db.sessions[c].status != CLOSED {
        var note := if resolution.Some? then resolution.value else "Closed by admin";
        db.sessions := db.sessions[c := db.sessions[c].(status := CLOSED, closedAt := Some(redis.now), resolution := Some(note), assignee := None)];
        NamedPair(None, before);
        gateway.EmitCard(CallClosed, c, db.sessions[c], [db.sessions[c].assignee, before]);
        gateway.EmitPoolRemoved(c);
        assert gateway.sent == old(gateway.sent) + EventsOf(old(db.Rows()), CloseByAdmin(c, resolution, redis.now));
        return Done;
      }
      if c !in db.sessions { return Refused(SessionNotFound); }
      return Refused(SessionAlreadyClosed);
    }

    method SetOperatorShift(operator: UserId, onShift: bool) returns (answer: Outcome)
      requires Wired() && db.Valid()
      modifies db, gateway
      ensures db.Valid()
      ensures answer == AnswerOf(Obstacle(old(db.Rows()), SetShift(operator, onShift, redis.now)))
      ensures if answer == Done then Written(old(db.Rows()), SetShift(operator, onShift, redis.now), db.Rows()) else db.Rows() == old(db.Rows())
      ensures answer == AnswerOf(Verdict(old(db.Rows()), SetShift(operator, onShift, redis.now)))
      ensures gateway.World() == After(old(gateway.World()), Call(SetShift(operator, onShift, redis.now)))
      ensures gateway.sent == old(gateway.sent) + Heard(old(gateway.World()), Call(SetShift(operator, onShift, redis.now)))
    {
      HandledAsPromised(db.Rows(), SetShift(operator, onShift, redis.now));
      if operator !in db.users || db.users[operator].role != OPERATOR { return Refused(NotAnOperator); }
      if !onShift {
        var activeSessionCount := db.CountOpenCalls(operator);
        if activeSessionCount > 0 { return Refused(ShiftHasOpenSessions); }
      }
      var startedAt := if onShift then Some(redis.now) else None;
      db.users := db.users[operator := db.users[operator].(onShift := onShift, shiftStartedAt := startedAt)];
      if !onShift { gateway.EmitShiftEnded(operator); }
      gateway.SetOperatorShiftRoom(operator, onShift);
      return Done;
    }

    /** The rows are committed first; if the sessions of the account cannot be revoked then, the caller
        gets an error and the sockets stay connected. */
    method DeleteOperator(operator: UserId, tokensUp: bool) returns (answer: Outcome)
      requires Wired() && db.Valid()
      modifies db, gateway
      ensures db.Valid()
      ensures if Obstacle(old(db.Rows()), Request.DeleteOperator(operator, redis.now)) == None then Written(old(db.Rows()), Request.DeleteOperator(operator, redis.now), db.Rows()) else answer == AnswerOf(Obstacle(old(db.Rows()), Request.DeleteOperator(operator, redis.now))) && db.Rows() == old(db.Rows())
      ensures db.Rows() == Handle(old(db.Rows()), Request.DeleteOperator(operator, redis.now))
      ensures tokensUp || Verdict(old(db.Rows()), Request.DeleteOperator(operator, redis.now)).Some? ==>
                && answer == AnswerOf(Verdict(old(db.Rows()), Request.DeleteOperator(operator, redis.now)))
                && gateway.World() == After(old(gateway.World()), Call(Request.DeleteOperator(operator, redis.now)))
                && gateway.sent == old(gateway.sent) + Heard(old(gateway.World()), Call(Request.DeleteOperator(operator, redis.now)))
      ensures !tokensUp && Verdict(old(db.Rows()), Request.DeleteOperator(operator, redis.now)) == None ==>
                answer == HalfDone && gateway.sockets == old(gateway.sockets) && gateway.sent == old(gateway.sent)
    {
      HandledAsPromised(db.Rows(), Request.DeleteOperator(operator, redis.now));
      if operator !in db.users || db.users[operator].role != OPERATOR || db.users[operator].deletedAt.Some? { return Refused(OperatorNotFound); }
      var openSessions := db.CountOpenCalls(operator);
      if openSessions > 0 { return Refused(ShiftHasOpenSessions); }
      var wasOnShift := db.users[operator].onShift;
      db.users := db.users[operator := db.users[operator].(onShift := false, shiftStartedAt := None, deletedAt := Some(redis.now))];
      if !tokensUp { return HalfDone; }
      if wasOnShift {
        gateway.EmitShiftEnded(operator);
        gateway.SetOperatorShiftRoom(operator, false);
      }
      gateway.DisconnectUser(operator);
      return Done;
    }
  }
}
