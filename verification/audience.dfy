/** Who is told what, role by role. */
module Audience {
  import opened Rows
  import opened Handlers
  import opened Runs
  import opened Fanout
  import opened Promises

  function KindsOf(events: seq<Event>): seq<Kind> {
    seq(|events|, i requires 0 <= i < |events| => events[i].kind)
  }

  /** What a request that went through is announced as. */
  function Announcement(db: Db, r: Request): seq<Kind> {
    match r
    case Raise(_, _, _, _, _) => [EmergencyNew]
    case Accept(_, _) => [CallAssigned, PoolRemoved]
    case Assign(_, _) => [CallAssigned, PoolRemoved]
    case Reassign(_, _) => [CallReassigned]
    case Unassign(_) => [CallReassigned, EmergencyNew]
    case Reclaim(_, _) => [CallReassigned, EmergencyNew]
    case StartProgress(_, _) => [CallInProgress]
    case AddLocation(_, _, _) => [LocationUpdate]
    case Resolve(_, _, _, _) => [CallClosed, PoolRemoved]
    case CloseByAdmin(_, _, _) => [CallClosed, PoolRemoved]
    case CloseByUser(_, _, _) => [CallClosed, PoolRemoved]
    case SetShift(_, on, _) => if on then [] else [ShiftEnded]
    case DropShift(_) => [ShiftEnded]
    case DeleteOperator(o, _) => if o in db.users && db.users[o].onShift then [ShiftEnded] else []
    case StartShift(_, _) => []
    case EndShift(_) => []
  }

  /** The payload is the call as it is after the handler; the pool is told an id, the operator nothing more. */
  predicate PayloadOk(after: Db, r: Request, e: Event) {
    match e.kind
    case PoolRemoved => Touches(r).Some? && e.id == Touches(r) && e.card == None
    case ShiftEnded => e.id == None && e.card == None
    case _ =>
      && Touches(r).Some? && e.id == Touches(r)
      && e.id.value in after.sessions && e.card == Some(after.sessions[e.id.value])
  }

  /** How the event is built. */
  predicate Shaped(db: Db, after: Db, r: Request, busyKnown: bool, e: Event) {
    match e.kind
    case ShiftEnded => WritesUser(r).Some? && e == ShiftEndedEvent(WritesUser(r).value)
    case PoolRemoved => Touches(r).Some? && e == PoolRemovedEvent(Touches(r).value)
    case EmergencyNew => Touches(r).Some? && Touches(r).value in after.sessions && e == OfferEvent(after, Touches(r).value, !r.Unassign?, busyKnown)
    case _ =>
      Touches(r).Some? && Touches(r).value in after.sessions &&
      var c := Touches(r).value;
      e == CardEvent(e.kind, c, after.sessions[c], CardOperators(r, after.sessions[c], if ReadsBefore(r) then AssigneeIn(db, c) else None))
  }

  lemma AllShaped(db: Db, r: Request, busyKnown: bool, i: nat)
    requires Refusal(db, r) == None && i < |EventsOf(db, r, busyKnown)|
    ensures Shaped(db, Effect(db, r), r, busyKnown, EventsOf(db, r, busyKnown)[i])
  {}

  lemma EverythingIsAnnounced(db: Db, r: Request, busyKnown: bool)
    requires Refusal(db, r) == None
    ensures KindsOf(EventsOf(db, r, busyKnown)) == Announcement(db, r)
    ensures forall i :: 0 <= i < |EventsOf(db, r, busyKnown)| ==> PayloadOk(Effect(db, r), r, EventsOf(db, r, busyKnown)[i])
  {
    forall i | 0 <= i < |EventsOf(db, r, busyKnown)| ensures PayloadOk(Effect(db, r), r, EventsOf(db, r, busyKnown)[i]) {
      AllShaped(db, r, busyKnown, i);
    }
  }

  predicate IsCard(kind: Kind) {
    kind != EmergencyNew && kind != PoolRemoved && kind != ShiftEnded
  }

  function HolderOf(db: Db, c: SessionId): Option<UserId> {
    if c in db.sessions then db.sessions[c].assignee else None
  }

  /** Whom the event is meant for. A requester gets the cards of his own calls; an admin all cards and
      offers but those he caused himself by unassigning; an operator offers while free, removals while on
      shift, the end of his own shift, and the cards of calls he works on or has just lost. */
  predicate MeantFor(w: World, r: Request, busyKnown: bool, e: Event, u: UserId)
    requires u in w.db.users && Refusal(w.db, r) == None && PayloadOk(Effect(w.db, r), r, e)
  {
    match w.db.users[u].role
    case USER => IsCard(e.kind) && e.card.value.userId == u
    case ADMIN => IsCard(e.kind) || (e.kind == EmergencyNew && !r.Unassign?)
    case OPERATOR =>
      match e.kind
      case EmergencyNew => w.db.users[u].onShift && (busyKnown ==> !HasOpenCall(Effect(w.db, r), u))
      case PoolRemoved => w.db.users[u].onShift
      case ShiftEnded => WritesUser(r) == Some(u)
      case _ =>
        || HolderOf(Effect(w.db, r), e.id.value) == Some(u)
        || ((r.Reassign? || r.Unassign? || r.CloseByAdmin? || r.Reclaim?) && HolderOf(w.db, e.id.value) == Some(u))
  }

  /** Every event of every handler is heard by exactly those it is meant for. */
  lemma EventsReachExactlyTheirAudience(w: World, r: Request, busyKnown: bool, i: nat, k: SocketId)
    requires Good(w.db) && RoomsOk(w) && Verdict(w.db, r) == None && i < |EventsOf(w.db, r, busyKnown)| && k in w.sockets
    ensures var e := EventsOf(w.db, r, busyKnown)[i];
            PayloadOk(Effect(w.db, r), r, e) && (Hears(e, w.sockets[k]) <==> MeantFor(w, r, busyKnown, e, w.sockets[k].user))
  {
    AllShaped(w.db, r, busyKnown, i);
    var e := EventsOf(w.db, r, busyKnown)[i];
    match w.db.users[w.sockets[k].user].role
    case USER => RequestersHear(w, r, busyKnown, e, k);
    case ADMIN => AdminsHear(w, r, busyKnown, e, k);
    case OPERATOR =>
      match e.kind
      case EmergencyNew => OffersAreHeard(w, r, busyKnown, e, k);
      case PoolRemoved => SignalsAreHeard(w, r, busyKnown, e, k);
      case ShiftEnded => SignalsAreHeard(w, r, busyKnown, e, k);
      case _ => CardsAreHeard(w, r, busyKnown, e, k);
  }

  lemma RequestersHear(w: World, r: Request, busyKnown: bool, e: Event, k: SocketId)
    requires RoomsOk(w) && Refusal(w.db, r) == None && k in w.sockets && w.db.users[w.sockets[k].user].role == USER
    requires Shaped(w.db, Effect(w.db, r), r, busyKnown, e) && PayloadOk(Effect(w.db, r), r, e)
    ensures Hears(e, w.sockets[k]) <==> MeantFor(w, r, busyKnown, e, w.sockets[k].user)
  {
    HearsInOneRoom(e, w.sockets[k], UserRoom(w.sockets[k].user));
  }

  lemma AdminsHear(w: World, r: Request, busyKnown: bool, e: Event, k: SocketId)
    requires RoomsOk(w) && Refusal(w.db, r) == None && k in w.sockets && w.db.users[w.sockets[k].user].role == ADMIN
    requires Shaped(w.db, Effect(w.db, r), r, busyKnown, e) && PayloadOk(Effect(w.db, r), r, e)
    ensures Hears(e, w.sockets[k]) <==> MeantFor(w, r, busyKnown, e, w.sockets[k].user)
  {
    HearsInOneRoom(e, w.sockets[k], AdminRoom);
  }

  lemma HearsInOneRoom(e: Event, x: Socket, room: Room)
    requires x.rooms == {room}
    ensures Hears(e, x) <==> room in e.to && room !in e.except
  {
    assert room in e.to * x.rooms <==> room in e.to;
    assert room in e.except * x.rooms <==> room in e.except;
  }

  lemma SignalsAreHeard(w: World, r: Request, busyKnown: bool, e: Event, k: SocketId)
    requires RoomsOk(w) && Refusal(w.db, r) == None && k in w.sockets && w.db.users[w.sockets[k].user].role == OPERATOR
    requires Shaped(w.db, Effect(w.db, r), r, busyKnown, e) && PayloadOk(Effect(w.db, r), r, e) && (e.kind == PoolRemoved || e.kind == ShiftEnded)
    ensures Hears(e, w.sockets[k]) <==> MeantFor(w, r, busyKnown, e, w.sockets[k].user)
  {
    var x := w.sockets[k];
    assert x.rooms == RoomsFor(w.db, x.user);
    var room := if e.kind == PoolRemoved then OnShiftRoom else OperatorRoom(WritesUser(r).value);
    assert e.to == {room} && e.except == {};
    assert room in x.rooms <==> e.to * x.rooms != {};
  }

  lemma CardsAreHeard(w: World, r: Request, busyKnown: bool, e: Event, k: SocketId)
    requires RoomsOk(w) && Refusal(w.db, r) == None && k in w.sockets && w.db.users[w.sockets[k].user].role == OPERATOR
    requires Shaped(w.db, Effect(w.db, r), r, busyKnown, e) && PayloadOk(Effect(w.db, r), r, e) && IsCard(e.kind)
    ensures Hears(e, w.sockets[k]) <==> MeantFor(w, r, busyKnown, e, w.sockets[k].user)
  {
    var c := Touches(r).value;
    var told := CardOperators(r, Effect(w.db, r).sessions[c], if ReadsBefore(r) then AssigneeIn(w.db, c) else None);
    assert e == CardEvent(e.kind, c, Effect(w.db, r).sessions[c], told);
    HearsCard(w, e, told, k);
    ToldAre(w.db, r, c, w.sockets[k].user);
  }

  lemma ToldAre(db: Db, r: Request, c: SessionId, u: UserId)
    requires Refusal(db, r) == None && Touches(r) == Some(c) && c in Effect(db, r).sessions
    ensures u in CardOperators(r, Effect(db, r).sessions[c], if ReadsBefore(r) then AssigneeIn(db, c) else None) <==>
              || HolderOf(Effect(db, r), c) == Some(u)
              || ((r.Reassign? || r.Unassign? || r.CloseByAdmin? || r.Reclaim?) && HolderOf(db, c) == Some(u))
  {}

  lemma OffersAreHeard(w: World, r: Request, busyKnown: bool, e: Event, k: SocketId)
    requires RoomsOk(w) && Refusal(w.db, r) == None && k in w.sockets && w.db.users[w.sockets[k].user].role == OPERATOR
    requires Shaped(w.db, Effect(w.db, r), r, busyKnown, e) && e.kind == EmergencyNew
    ensures Hears(e, w.sockets[k]) <==>
              OnShift(w.db, w.sockets[k].user) && (busyKnown ==> !HasOpenCall(Effect(w.db, r), w.sockets[k].user))
  {
    var c, after := Touches(r).value, Effect(w.db, r);
    BusyMeansOpenCall(after, w.sockets[k].user);
    UsersStay(w.db, r);
    OfferReachesExactlyTheFree(World(after, w.sockets), c, !r.Unassign?, busyKnown, k);
  }

  lemma UsersStay(db: Db, r: Request)
    requires Refusal(db, r) == None && Touches(r).Some?
    ensures Effect(db, r).users == db.users
  {}
}
