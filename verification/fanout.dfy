/** Which sockets hear of a handler, and what an operator's screen makes of it. */
module Fanout {
  import opened Rows
  import opened Handlers
  import opened Runs

  datatype Room = AdminRoom | OperatorsRoom | OnShiftRoom | OperatorRoom(operator: UserId) | UserRoom(user: UserId)

  datatype Kind = EmergencyNew | PoolRemoved | CallAssigned | CallInProgress | CallClosed | CallReassigned | LocationUpdate | ShiftEnded

  /** `card` is the full session row, with the caller's data, where the payload carries it. */
  datatype Event = Event(kind: Kind, id: Option<SessionId>, card: Option<Session>, to: set<Room>, except: set<Room>)

  type SocketId = nat

  datatype Socket = Socket(user: UserId, rooms: set<Room>)

  type Sockets = map<SocketId, Socket>

  /** server.to(...).except(...) */
  predicate Hears(e: Event, k: Socket) {
    e.to * k.rooms != {} && e.except * k.rooms == {}
  }

  /** The handlers that read the assignee first, to tell him later. */
  predicate ReadsBefore(r: Request) {
    r.Reassign? || r.Unassign? || r.CloseByAdmin?
  }

  function AssigneeIn(db: Db, c: SessionId): Option<UserId> {
    if c in db.sessions then db.sessions[c].assignee else None
  }

  function AsSet(o: Option<UserId>): set<UserId> {
    if o.Some? then {o.value} else {}
  }

  /** The operators whose rooms get the full card of the call the handler updated. */
  function CardOperators(r: Request, updated: Session, before: Option<UserId>): set<UserId> {
    AsSet(updated.assignee) + AsSet(if r.Reclaim? then Some(r.operator) else before)
  }

  function SessionRooms(user: UserId, operators: set<UserId>): set<Room> {
    {AdminRoom, UserRoom(user)} + set o | o in operators :: OperatorRoom(o)
  }

  function CardEvent(kind: Kind, c: SessionId, row: Session, operators: set<UserId>): Event {
    Event(kind, Some(c), Some(row), SessionRooms(row.userId, operators), {})
  }

  function PoolRemovedEvent(c: SessionId): Event {
    Event(PoolRemoved, Some(c), None, {OnShiftRoom}, {})
  }

  function ShiftEndedEvent(o: UserId): Event {
    Event(ShiftEnded, None, None, {OperatorRoom(o)}, {})
  }

  function BusyRooms(db: Db): set<Room> {
    set c | c in db.sessions && KeepsBusy(db.sessions[c].status) && db.sessions[c].assignee.Some?
      :: OperatorRoom(db.sessions[c].assignee.value)
  }

  /** offerToFreeOperators: the call goes to everybody on shift without an open call, and if the query
      for the busy ones fails, to everybody on shift. */
  function OfferEvent(db: Db, c: SessionId, includeAdmins: bool, busyKnown: bool := true): Event
    requires c in db.sessions
  {
    Event(EmergencyNew, Some(c), Some(db.sessions[c]),
          if includeAdmins then {AdminRoom, OnShiftRoom} else {OnShiftRoom}, if busyKnown then BusyRooms(db) else {})
  }

  /** The events a handler emits when it runs alone and succeeds. */
  function EventsOf(db: Db, r: Request, busyKnown: bool := true): seq<Event>
    requires Refusal(db, r) == None
  {
    var db' := Effect(db, r);
    match r
    case StartShift(_, _) => []
    case EndShift(_) => []
    case SetShift(o, on, _) => if on then [] else [ShiftEndedEvent(o)]
    case DeleteOperator(o, _) => if db.users[o].onShift then [ShiftEndedEvent(o)] else []
    case DropShift(o) => [ShiftEndedEvent(o)]
    case Raise(c, _, _, _, _) => [OfferEvent(db', c, true, busyKnown)]
    case _ =>
      var c := Touches(r).value;
      var row := db'.sessions[c];
      var told := CardOperators(r, row, if ReadsBefore(r) then AssigneeIn(db, c) else None);
      match r
      case Accept(_, _) => [CardEvent(CallAssigned, c, row, told), PoolRemovedEvent(c)]
      case Assign(_, _) => [CardEvent(CallAssigned, c, row, told), PoolRemovedEvent(c)]
      case Reassign(_, _) => [CardEvent(CallReassigned, c, row, told)]
      case Unassign(_) => [CardEvent(CallReassigned, c, row, told), OfferEvent(db', c, false, busyKnown)]
      case Reclaim(_, _) => [CardEvent(CallReassigned, c, row, told), OfferEvent(db', c, true, busyKnown)]
      case StartProgress(_, _) => [CardEvent(CallInProgress, c, row, told)]
      case AddLocation(_, _, _) => [CardEvent(LocationUpdate, c, row, told)]
      case _ => [CardEvent(CallClosed, c, row, told), PoolRemovedEvent(c)]
  }

  /** setOperatorShiftRoom: every socket of the operator joins or leaves the broadcast room. */
  function MoveShiftRoom(sockets: Sockets, o: UserId, on: bool): Sockets {
    map k | k in sockets ::
      if OperatorRoom(o) !in sockets[k].rooms then sockets[k]
      else sockets[k].(rooms := if on then sockets[k].rooms + {OnShiftRoom} else sockets[k].rooms - {OnShiftRoom})
  }

  /** disconnectUser */
  function Disconnected(sockets: Sockets, u: UserId): Sockets {
    map k | k in sockets && OperatorRoom(u) !in sockets[k].rooms && UserRoom(u) !in sockets[k].rooms :: sockets[k]
  }

  function SocketsAfter(db: Db, sockets: Sockets, r: Request): Sockets {
    match r
    case StartShift(o, _) => MoveShiftRoom(sockets, o, true)
    case EndShift(o) => MoveShiftRoom(sockets, o, false)
    case SetShift(o, on, _) => MoveShiftRoom(sockets, o, on)
    case DropShift(o) => MoveShiftRoom(sockets, o, false)
    case DeleteOperator(o, _) =>
      Disconnected(if OnShift(db, o) then MoveShiftRoom(sockets, o, false) else sockets, o)
    case _ => sockets
  }

  /** The rooms a connecting user joins. */
  function RoomsFor(db: Db, u: UserId): set<Room>
    requires u in db.users
  {
    match db.users[u].role
    case ADMIN => {AdminRoom}
    case OPERATOR => {OperatorsRoom, OperatorRoom(u)} + (if db.users[u].onShift then {OnShiftRoom} else {})
    case USER => {UserRoom(u)}
  }

  /** Operators with a live socket in the broadcast room. */
  function ConnectedOnShift(sockets: Sockets): set<UserId> {
    set k | k in sockets && OnShiftRoom in sockets[k].rooms :: sockets[k].user
  }

  datatype World = World(db: Db, sockets: Sockets)

  /** `busyKnown` says whether the query for busy operators answers, if the handler makes it. */
  datatype Step = Call(req: Request, busyKnown: bool := true) | Connect(k: SocketId, user: UserId) | Disconnect(k: SocketId)

  function Heard(w: World, step: Step): seq<Event> {
    if step.Call? && Verdict(w.db, step.req) == None then EventsOf(w.db, step.req, step.busyKnown) else []
  }

  /** One handler, or one connection, at a time. */
  function After(w: World, step: Step): World {
    match step
    case Call(r, _) => if Verdict(w.db, r) == None then World(Handle(w.db, r), SocketsAfter(w.db, w.sockets, r)) else w
    case Connect(k, u) =>
      if u in w.db.users && w.db.users[u].deletedAt == None && k !in w.sockets
      then w.(sockets := w.sockets[k := Socket(u, RoomsFor(w.db, u))]) else w
    case Disconnect(k) => w.(sockets := map j | j in w.sockets && j != k :: w.sockets[j])
  }

  function End(w: World, steps: seq<Step>): World
    decreases |steps|
  {
    if steps == [] then w else End(After(w, steps[0]), steps[1..])
  }

  /** Every socket is in exactly the rooms its user's row asks for, and nobody deleted has one. */
  predicate RoomsOk(w: World) {
    forall k :: k in w.sockets ==>
      && w.sockets[k].user in w.db.users && w.db.users[w.sockets[k].user].deletedAt == None
      && w.sockets[k].rooms == RoomsFor(w.db, w.sockets[k].user)
  }

  lemma CallRoomsFollow(w: World, r: Request, k: SocketId)
    requires RoomsOk(w) && Verdict(w.db, r) == None && k in SocketsAfter(w.db, w.sockets, r)
    ensures k in w.sockets && w.sockets[k].user == SocketsAfter(w.db, w.sockets, r)[k].user
    ensures SocketsAfter(w.db, w.sockets, r)[k].rooms == RoomsFor(Effect(w.db, r), w.sockets[k].user)
    ensures Effect(w.db, r).users[w.sockets[k].user].deletedAt == None
  {
    var u := w.sockets[k].user;
    assert w.sockets[k].rooms == RoomsFor(w.db, u);
    if Touches(r).Some? {
      assert Effect(w.db, r).users == w.db.users && SocketsAfter(w.db, w.sockets, r) == w.sockets;
    } else {
      var row := NewUser(w.db, r);
      assert Effect(w.db, r).users == w.db.users[r.operator := row];
      assert row.role == w.db.users[r.operator].role;
    }
  }

  /** Between handlers, a socket is in the broadcast room exactly if its operator is on shift. */
  lemma RoomsFollowShifts(w: World, step: Step)
    requires Good(w.db) && RoomsOk(w)
    ensures Good(After(w, step).db) && SameStaff(w.db, After(w, step).db)
    ensures RoomsOk(After(w, step))
  {
    if step.Call? && Verdict(w.db, step.req) == None {
      CommitKeepsGood(w.db, step.req, Handle(w.db, step.req));
      forall k | k in After(w, step).sockets
        ensures After(w, step).sockets[k].user in After(w, step).db.users
        ensures After(w, step).db.users[After(w, step).sockets[k].user].deletedAt == None
        ensures After(w, step).sockets[k].rooms == RoomsFor(After(w, step).db, After(w, step).sockets[k].user)
      {
        CallRoomsFollow(w, step.req, k);
      }
    }
  }

  // ---- The screen of an operator ----

  /** emergency:new puts a card on the screen, emergency:pool_removed takes it off. */
  function Shown(view: set<SessionId>, events: seq<Event>, k: Socket): set<SessionId>
    decreases |events|
  {
    if events == [] then view
    else
      var e := events[0];
      var view' :=
        if !Hears(e, k) || e.id == None then view
        else if e.kind == EmergencyNew then view + {e.id.value}
        else if e.kind == PoolRemoved then view - {e.id.value}
        else view;
      Shown(view', events[1..], k)
  }

  function View(view: set<SessionId>, w: World, steps: seq<Step>, k: SocketId): set<SessionId>
    decreases |steps|
  {
    if steps == [] || k !in w.sockets then view
    else View(Shown(view, Heard(w, steps[0]), w.sockets[k]), After(w, steps[0]), steps[1..], k)
  }

  /** What getPool returns, over all its pages. */
  function GetPool(db: Db, o: UserId): set<SessionId> {
    if OnShift(db, o) && OpenCalls(db, o) == {} then Pool(db) else {}
  }

  /** The operator is on shift, without an open call and connected on `k` all along. */
  predicate StaysFree(w: World, steps: seq<Step>, k: SocketId, o: UserId)
    decreases |steps|
  {
    && OnShift(w.db, o) && OpenCalls(w.db, o) == {}
    && k in w.sockets && w.sockets[k].user == o
    && (steps != [] ==> StaysFree(After(w, steps[0]), steps[1..], k, o))
  }

  /** An offer reaches an operator's socket exactly if he is on shift and has no open call; when it is
      not known who has one, exactly if he is on shift, so that no alarm is lost. */
  lemma OfferReachesExactlyTheFree(w: World, c: SessionId, includeAdmins: bool, busyKnown: bool, k: SocketId)
    requires RoomsOk(w) && c in w.db.sessions && k in w.sockets && IsOperator(w.db, w.sockets[k].user)
    ensures Hears(OfferEvent(w.db, c, includeAdmins, busyKnown), w.sockets[k]) <==>
              OnShift(w.db, w.sockets[k].user) && (busyKnown ==> OpenCalls(w.db, w.sockets[k].user) == {})
  {
    var o := w.sockets[k].user;
    var e := OfferEvent(w.db, c, includeAdmins, busyKnown);
    assert w.sockets[k].rooms == RoomsFor(w.db, o);
    if d :| d in OpenCalls(w.db, o) {
      assert IsOpenCall(w.db, d, o) && OperatorRoom(o) in BusyRooms(w.db);
      assert busyKnown ==> OperatorRoom(o) in e.except * w.sockets[k].rooms;
    }
    if x :| x in e.except * w.sockets[k].rooms {
      assert x == OperatorRoom(o);
      var d :| d in w.db.sessions && KeepsBusy(w.db.sessions[d].status) && w.db.sessions[d].assignee == Some(o);
      assert d in OpenCalls(w.db, o);
    }
    if OnShift(w.db, o) {
      assert OnShiftRoom in e.to * w.sockets[k].rooms;
    } else {
      assert e.to * w.sockets[k].rooms == {};
    }
  }

  predicate ChangesShift(r: Request, o: UserId) {
    (r.StartShift? || r.EndShift? || r.SetShift? || r.DropShift? || r.DeleteOperator?) && r.operator == o
  }

  /** If a handler changes the shift and fails before it moves the sockets, the rooms are right only if
      the flag stays what it was, in no deletion, or the operator is not connected; his sockets hear
      offers by the old flag, a deleted operator's included. */
  lemma UnmovedSocketsFollowTheOldFlag(w: World, r: Request, o: UserId)
    requires RoomsOk(w) && IsOperator(w.db, o) && ChangesShift(r, o) && Verdict(w.db, r) == None
    ensures var w' := World(Handle(w.db, r), w.sockets);
            && (RoomsOk(w') <==> (OnShift(w'.db, o) == OnShift(w.db, o) && !r.DeleteOperator?) || forall k :: k in w.sockets ==> w.sockets[k].user != o)
            && (forall k, c, includeAdmins, busyKnown :: k in w.sockets && w.sockets[k].user == o && c in w'.db.sessions ==>
                  (Hears(OfferEvent(w'.db, c, includeAdmins, busyKnown), w.sockets[k]) <==>
                     OnShift(w.db, o) && (busyKnown ==> OpenCalls(w'.db, o) == {})))
  {
    var w' := World(Handle(w.db, r), w.sockets);
    assert w'.db.users == w.db.users[o := NewUser(w.db, r)];
    forall k | k in w.sockets && w.sockets[k].user == o
      ensures (OnShiftRoom in w.sockets[k].rooms) == OnShift(w.db, o)
    {
      assert w.sockets[k].rooms == RoomsFor(w.db, o);
    }
    forall k, c, includeAdmins, busyKnown | k in w.sockets && w.sockets[k].user == o && c in w'.db.sessions
      ensures Hears(OfferEvent(w'.db, c, includeAdmins, busyKnown), w.sockets[k]) <==>
                OnShift(w.db, o) && (busyKnown ==> OpenCalls(w'.db, o) == {})
    {
      OfferReachesExactlyTheFree(w, c, includeAdmins, busyKnown, k);
      assert w'.db.sessions == w.db.sessions && OpenCalls(w'.db, o) == OpenCalls(w.db, o);
    }
  }

  /** Asking again moves the sockets after all, except for the cron, which finds the shift over, and for
      a deletion, which finds nobody to delete: these do nothing. */
  lemma RepeatingMovesTheSockets(w: World, r: Request, o: UserId)
    requires RoomsOk(w) && IsOperator(w.db, o) && ChangesShift(r, o) && Verdict(w.db, r) == None
    ensures var w' := World(Handle(w.db, r), w.sockets);
            if r.DropShift? || r.DeleteOperator? then Verdict(w'.db, r) != None && After(w', Call(r)) == w' else RoomsOk(After(w', Call(r)))
  {
    var w' := World(Handle(w.db, r), w.sockets);
    assert w'.db.users == w.db.users[o := NewUser(w.db, r)] && w'.db.sessions == w.db.sessions;
    assert OpenCalls(w'.db, o) == OpenCalls(w.db, o);
    if !r.DropShift? && !r.DeleteOperator? {
      var again := After(w', Call(r));
      assert again.sockets == SocketsAfter(w.db, w.sockets, r);
      forall k | k in again.sockets
        ensures again.sockets[k].user in again.db.users && again.db.users[again.sockets[k].user].deletedAt == None
        ensures again.sockets[k].rooms == RoomsFor(again.db, again.sockets[k].user)
      {
        CallRoomsFollow(w, r, k);
      }
    }
  }

  lemma EventShapes(db: Db, r: Request, busyKnown: bool)
    requires Good(db) && Refusal(db, r) == None && Touches(r).Some?
    ensures var c := Touches(r).value;
            var db' := Effect(db, r);
            var events := EventsOf(db, r, busyKnown);
            && c in db'.sessions
            && (var inPool := db'.sessions[c].status == NEW;
                || (events == [OfferEvent(db', c, true, busyKnown)] && inPool)
                || (|events| == 1 && events[0].kind != PoolRemoved && events[0].kind != EmergencyNew && (inPool <==> c in Pool(db)))
                || (|events| == 2 && events[0].kind != PoolRemoved && events[0].kind != EmergencyNew &&
                    ((events[1] == PoolRemovedEvent(c) && !inPool) ||
                     (events[1] == OfferEvent(db', c, true, busyKnown) && inPool) ||
                     (events[1] == OfferEvent(db', c, false, busyKnown) && inPool))))
  {}

  lemma ShownOne(view: set<SessionId>, e: Event, k: Socket)
    ensures e.kind == EmergencyNew && e.id.Some? && Hears(e, k) ==> Shown(view, [e], k) == view + {e.id.value}
    ensures e.kind == PoolRemoved && e.id.Some? && Hears(e, k) ==> Shown(view, [e], k) == view - {e.id.value}
    ensures e.kind != EmergencyNew && e.kind != PoolRemoved ==> Shown(view, [e], k) == view
  {}

  lemma FreeOperatorHears(w: World, r: Request, busyKnown: bool, k: SocketId, o: UserId)
    requires Good(w.db) && RoomsOk(w) && IsOperator(w.db, o) && k in w.sockets && w.sockets[k].user == o
    requires Refusal(w.db, r) == None && Touches(r).Some? && Touches(r).value in Effect(w.db, r).sessions
    requires OnShift(w.db, o) && OpenCalls(Effect(w.db, r), o) == {}
    ensures Hears(PoolRemovedEvent(Touches(r).value), w.sockets[k])
    ensures Hears(OfferEvent(Effect(w.db, r), Touches(r).value, true, busyKnown), w.sockets[k])
    ensures Hears(OfferEvent(Effect(w.db, r), Touches(r).value, false, busyKnown), w.sockets[k])
  {
    var db' := Effect(w.db, r);
    var k' := w.sockets[k];
    assert k'.rooms == RoomsFor(w.db, o) == RoomsFor(db', o);
    OfferReachesExactlyTheFree(World(db', map[k := k']), Touches(r).value, true, busyKnown, k);
    OfferReachesExactlyTheFree(World(db', map[k := k']), Touches(r).value, false, busyKnown, k);
    assert OnShiftRoom in PoolRemovedEvent(Touches(r).value).to * k'.rooms;
  }

  lemma ShownTwo(view: set<SessionId>, events: seq<Event>, k: Socket)
    requires |events| == 2 && events[0].kind != PoolRemoved && events[0].kind != EmergencyNew
    ensures Shown(view, events, k) == Shown(view, [events[1]], k)
  {
    assert events[1..] == [events[1]];
  }

  lemma CallChangesView(w: World, r: Request, busyKnown: bool, k: SocketId, o: UserId)
    requires Good(w.db) && RoomsOk(w) && IsOperator(w.db, o) && k in w.sockets && w.sockets[k].user == o
    requires Verdict(w.db, r) == None && Touches(r).Some?
    requires OnShift(w.db, o) && OpenCalls(Effect(w.db, r), o) == {}
    ensures Shown(Pool(w.db), EventsOf(w.db, r, busyKnown), w.sockets[k]) == Pool(Effect(w.db, r))
  {
    var events := EventsOf(w.db, r, busyKnown);
    EventShapes(w.db, r, busyKnown);
    PoolChangesOnlyAt(w.db, r);
    FreeOperatorHears(w, r, busyKnown, k, o);
    ShownOne(Pool(w.db), events[|events| - 1], w.sockets[k]);
    if |events| == 2 {
      ShownTwo(Pool(w.db), events, w.sockets[k]);
    } else {
      assert events == [events[0]];
    }
  }

  lemma ViewFollowsPoolOneStep(w: World, step: Step, k: SocketId, o: UserId)
    requires Good(w.db) && RoomsOk(w) && IsOperator(w.db, o)
    requires OnShift(w.db, o) && k in w.sockets && w.sockets[k].user == o && OpenCalls(After(w, step).db, o) == {}
    ensures Shown(Pool(w.db), Heard(w, step), w.sockets[k]) == Pool(After(w, step).db)
  {
    if step.Call? && Verdict(w.db, step.req) == None {
      if Touches(step.req).Some? {
        CallChangesView(w, step.req, step.busyKnown, k, o);
      } else {
        assert Pool(Effect(w.db, step.req)) == Pool(w.db);
        var events := EventsOf(w.db, step.req, step.busyKnown);
        if events != [] { assert events[1..] == []; }
      }
    }
  }

  lemma PoolChangesOnlyAt(db: Db, r: Request)
    requires Good(db) && Refusal(db, r) == None && Touches(r).Some?
    ensures var c := Touches(r).value;
            var row := Effect(db, r).sessions[c];
            && Pool(Effect(db, r)) == (if row.status == NEW then Pool(db) + {c} else Pool(db) - {c})
            && (row.status == NEW ==> row.assignee == None)
  {}

  /** For an operator who stays connected, on shift and free, folding the events over any run of
      handlers shows exactly what fetching the pool again would show, failing queries or not. */
  lemma {:induction false} ScreenShowsThePool(w: World, steps: seq<Step>, k: SocketId, o: UserId)
    requires Good(w.db) && RoomsOk(w) && IsOperator(w.db, o) && StaysFree(w, steps, k, o)
    ensures View(GetPool(w.db, o), w, steps, k) == GetPool(End(w, steps).db, o)
    decreases |steps|
  {
    if steps != [] {
      var w' := After(w, steps[0]);
      RoomsFollowShifts(w, steps[0]);
      ViewFollowsPoolOneStep(w, steps[0], k, o);
      ScreenShowsThePool(w', steps[1..], k, o);
    }
  }

  lemma CardsGoTo(db: Db, r: Request, busyKnown: bool, i: nat)
    requires Good(db) && Refusal(db, r) == None && i < |EventsOf(db, r, busyKnown)|
    requires EventsOf(db, r, busyKnown)[i].card.Some? && EventsOf(db, r, busyKnown)[i].kind != EmergencyNew
    ensures var e := EventsOf(db, r, busyKnown)[i];
            && e.id.Some? && Touches(r) == e.id && e.id.value in Effect(db, r).sessions
            && e == CardEvent(e.kind, e.id.value, Effect(db, r).sessions[e.id.value],
                              CardOperators(r, Effect(db, r).sessions[e.id.value], if ReadsBefore(r) then AssigneeIn(db, e.id.value) else None))
  {}

  lemma HearsCard(w: World, e: Event, told: set<UserId>, k: SocketId)
    requires RoomsOk(w) && k in w.sockets && IsOperator(w.db, w.sockets[k].user)
    requires e.card.Some? && e.to == SessionRooms(e.card.value.userId, told) && e.except == {}
    ensures Hears(e, w.sockets[k]) <==> w.sockets[k].user in told
  {}

  /** The full card of a call, except as an offer, reaches an operator's socket exactly if he is its
      assignee after the handler or the one it was taken from; the pool is only told an id. */
  lemma CardsReachOnlyWhoWorksTheCall(w: World, r: Request, busyKnown: bool, i: nat, k: SocketId)
    requires Good(w.db) && RoomsOk(w) && Verdict(w.db, r) == None && i < |EventsOf(w.db, r, busyKnown)|
    requires k in w.sockets && IsOperator(w.db, w.sockets[k].user)
    ensures var e := EventsOf(w.db, r, busyKnown)[i];
            && (e.kind == PoolRemoved ==> e.card == None)
            && (e.card.Some? && e.kind != EmergencyNew ==>
                  && e.id.Some?
                  && (Hears(e, w.sockets[k]) <==>
                        || AssigneeIn(Effect(w.db, r), e.id.value) == Some(w.sockets[k].user)
                        || ((ReadsBefore(r) || r.Reclaim?) && AssigneeIn(w.db, e.id.value) == Some(w.sockets[k].user))))
  {
    var e := EventsOf(w.db, r, busyKnown)[i];
    if e.card.Some? && e.kind != EmergencyNew {
      CardsGoTo(w.db, r, busyKnown, i);
      HearsCard(w, e, CardOperators(r, Effect(w.db, r).sessions[e.id.value], if ReadsBefore(r) then AssigneeIn(w.db, e.id.value) else None), k);
    }
  }
}
