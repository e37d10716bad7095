/** The rows the dispatch protocol reads and writes, as `prisma/schema.prisma` declares them. */
module Rows {

  // Identifiers are uuids in the database; only equality of identifiers matters.
  type UserId = nat
  type SessionId = nat
  type OrgId = nat
  type VenueId = nat
  type Time = nat  // milliseconds since the epoch, as Date.now() gives them

  datatype Option<+T> = None | Some(value: T)

  datatype Role = USER | OPERATOR | ADMIN

  datatype Status = NEW | ASSIGNED | IN_PROGRESS | CLOSED

  datatype Location = Location(latitude: real, longitude: real, accuracy: real)

  datatype EmergencyType = PERSONAL | VENUE

  datatype User = User(role: Role, deletedAt: Option<Time>, onShift: bool, shiftStartedAt: Option<Time>)

  datatype Session = Session(
    userId: UserId,
    organizationId: Option<OrgId>,
    venueId: Option<VenueId>,
    emergencyType: EmergencyType,
    status: Status,
    assignee: Option<UserId>,
    closedAt: Option<Time>,
    resolution: Option<string>,
    locations: seq<Location>)

  /** The committed rows. */
  datatype Db = Db(users: map<UserId, User>, sessions: map<SessionId, Session>)

  /** OPEN_ASSIGNED_STATUSES: the statuses that keep an operator busy. */
  predicate KeepsBusy(status: Status) {
    status == ASSIGNED || status == IN_PROGRESS
  }

  /** The call is one of the operator's open calls. */
  predicate IsOpenCall(db: Db, s: SessionId, operator: UserId) {
    s in db.sessions && db.sessions[s].assignee == Some(operator) && KeepsBusy(db.sessions[s].status)
  }

  /** The rows the `count` of open calls counts. */
  function OpenCalls(db: Db, operator: UserId): set<SessionId> {
    set s | s in db.sessions && IsOpenCall(db, s, operator)
  }

  predicate OnShift(db: Db, operator: UserId) {
    operator in db.users && db.users[operator].onShift
  }

  /** The unclaimed calls an operator on shift is offered. */
  function Pool(db: Db): set<SessionId> {
    set s | s in db.sessions && db.sessions[s].status == NEW && db.sessions[s].assignee == None
  }

  /** Status, assignee and closing time of one row fit together. */
  predicate Coherent(row: Session) {
    && (row.status != CLOSED ==> (row.assignee == None <==> row.status == NEW))
    && (row.closedAt != None <==> row.status == CLOSED)
  }

  /** What the protocol promises of the rows at every moment. */
  ghost predicate Good(db: Db) {
    && (forall s :: s in db.sessions ==> Coherent(db.sessions[s]))
    && (forall s, o :: IsOpenCall(db, s, o) ==> OnShift(db, o))
    && (forall s, r, o :: IsOpenCall(db, s, o) && IsOpenCall(db, r, o) ==> s == r)
  }
}
