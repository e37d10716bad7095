/** Organizations, venues and memberships, and who may raise an SOS from where. */
module Tenancy {
  import opened Rows
  import opened Handlers

  datatype OrgRole = OWNER | MANAGER | STAFF | MEMBER

  /** One membership per user, as the unique index demands. */
  datatype Member = Member(org: OrgId, venue: Option<VenueId>, role: OrgRole)

  datatype Tenants = Tenants(
    orgs: set<OrgId>,
    venues: map<VenueId, OrgId>,
    members: map<UserId, Member>,
    sessions: map<SessionId, Session>)

  datatype VenueChange = Keep | SetTo(venue: Option<VenueId>)

  datatype Op =
    | CreateOrg(user: UserId, org: OrgId)
    | AdminCreateOrg(org: OrgId)
    | CreateVenue(venue: VenueId, org: OrgId)
    | AddMember(org: OrgId, user: UserId, role: OrgRole, boundTo: Option<VenueId>)
    | UpdateMember(user: UserId, newRole: Option<OrgRole>, change: VenueChange)
    | RemoveMember(user: UserId)
    | BindToOrg(user: UserId, org: OrgId)
    | BindToVenue(user: UserId, at: VenueId)
    | ApproveOrg(user: UserId, org: OrgId, branches: set<VenueId>)
    | LeaveAll(user: UserId)  // account or operator deletion
    | DeleteVenue(venue: VenueId)
    | DeleteOrg(org: OrgId)
    | RaiseFrom(session: SessionId, user: UserId, fromVenue: Option<VenueId>)
    | Dispatch(users: map<UserId, User>, req: Request)

  datatype Denial = NotFound | AlreadyMember | VenueElsewhere | SoleOwner | OwnerStays | HasOpenCalls | NotEntitled | Taken

  predicate IsOwner(t: Tenants, u: UserId, o: OrgId) {
    u in t.members && t.members[u].org == o && t.members[u].role == OWNER
  }

  ghost predicate Owned(t: Tenants, o: OrgId) {
    exists u :: IsOwner(t, u, o)
  }

  predicate InOrg(t: Tenants, v: VenueId, o: OrgId) {
    v in t.venues && t.venues[v] == o
  }

  /** Bound venues and placed calls belong where they claim to. */
  ghost predicate Consistent(t: Tenants) {
    && (forall v :: v in t.venues ==> t.venues[v] in t.orgs)
    && (forall u :: u in t.members ==> t.members[u].org in t.orgs)
    && (forall u :: u in t.members && t.members[u].venue.Some? ==> InOrg(t, t.members[u].venue.value, t.members[u].org))
    && (forall c :: c in t.sessions ==> PlaceOk(t, t.sessions[c]))
    && (forall c :: c in t.sessions ==> Coherent(t.sessions[c]))
  }

  predicate PlaceOk(t: Tenants, row: Session) {
    && (row.organizationId.Some? ==> row.organizationId.value in t.orgs)
    && (row.venueId.Some? ==> row.organizationId.Some? && InOrg(t, row.venueId.value, row.organizationId.value))
  }

  ghost predicate OneOwnerEach(t: Tenants) {
    forall u, v, o :: IsOwner(t, u, o) && IsOwner(t, v, o) ==> u == v
  }

  // ---- Who may raise an SOS ----

  /** From a venue: bound to it, or its organization's owner, or an organization-wide member or manager. */
  predicate MayRaiseAt(t: Tenants, u: UserId, v: VenueId) {
    && v in t.venues && u in t.members
    && var m := t.members[u];
       || m.venue == Some(v)
       || (m.org == t.venues[v] && (m.role == OWNER || (m.venue == None && (m.role == MEMBER || m.role == MANAGER))))
  }

  predicate OwnsSomething(t: Tenants, u: UserId) {
    u in t.members && t.members[u].role == OWNER
  }

  function OrgOf(t: Tenants, u: UserId): Option<OrgId> {
    if u in t.members then Some(t.members[u].org) else None
  }

  // ---- The operations ----

  predicate VenueFits(t: Tenants, venue: Option<VenueId>, o: OrgId) {
    venue.Some? ==> InOrg(t, venue.value, o)
  }

  predicate HasOpenCallsOf(t: Tenants, o: OrgId) {
    exists c :: c in t.sessions && t.sessions[c].organizationId == Some(o) && t.sessions[c].closedAt == None
  }

  predicate ShouldDemote(op: Op, t: Tenants) {
    match op
    case AddMember(_, _, role, _) => role == OWNER
    case UpdateMember(u, role, _) => u in t.members && role == Some(OWNER) && t.members[u].role != OWNER
    case _ => false
  }

  function Refuses(t: Tenants, op: Op): Option<Denial> {
    match op
    case CreateOrg(u, o) => if u in t.members then Some(AlreadyMember) else if o in t.orgs then Some(Taken) else None
    case AdminCreateOrg(o) => if o in t.orgs then Some(Taken) else None
    case CreateVenue(v, o) => if o !in t.orgs then Some(NotFound) else if v in t.venues then Some(Taken) else None
    case AddMember(o, u, role, venue) =>
      if o !in t.orgs then Some(NotFound)
      else if u in t.members then Some(AlreadyMember)
      else if venue.Some? && venue.value !in t.venues then Some(NotFound)
      else if !VenueFits(t, venue, o) then Some(VenueElsewhere)
      else None
    case UpdateMember(u, role, change) =>
      if u !in t.members then Some(NotFound)
      else if change.SetTo? && change.venue.Some? && change.venue.value !in t.venues then Some(NotFound)
      else if change.SetTo? && !VenueFits(t, change.venue, t.members[u].org) then Some(VenueElsewhere)
      else if t.members[u].role == OWNER && role.Some? && role.value != OWNER then Some(SoleOwner)
      else None
    case RemoveMember(u) =>
      if u !in t.members then Some(NotFound) else if t.members[u].role == OWNER then Some(OwnerStays) else None
    case BindToOrg(u, o) =>
      if OwnsSomething(t, u) then Some(OwnerStays) else if o !in t.orgs then Some(NotFound) else None
    case BindToVenue(u, v) =>
      if OwnsSomething(t, u) then Some(OwnerStays) else if v !in t.venues then Some(NotFound) else None
    case ApproveOrg(u, o, branches) => if o in t.orgs || !(branches !! t.venues.Keys) then Some(Taken) else None
    case LeaveAll(_) => None
    case DeleteVenue(v) => if v !in t.venues then Some(NotFound) else None
    case DeleteOrg(o) => if o !in t.orgs then Some(NotFound) else if HasOpenCallsOf(t, o) then Some(HasOpenCalls) else None
    case RaiseFrom(c, u, v) =>
      if c in t.sessions then Some(Taken) else if v.Some? && !MayRaiseAt(t, u, v.value) then Some(NotEntitled) else None
    case Dispatch(users, r) => if r.Raise? || Refusal(Db(users, t.sessions), r).Some? then Some(NotFound) else None
  }

  /** demoteCurrentOwner: whoever owns the organization becomes a manager. */
  function Demoted(members: map<UserId, Member>, o: OrgId): map<UserId, Member> {
    map u | u in members :: if members[u].org == o && members[u].role == OWNER then members[u].(role := MANAGER) else members[u]
  }

  /** onDelete: SetNull for memberships and calls of a venue. */
  function WithoutVenues(t: Tenants, gone: set<VenueId>): Tenants {
    t.(venues := map v | v in t.venues && v !in gone :: t.venues[v],
       members := map u | u in t.members :: if t.members[u].venue.Some? && t.members[u].venue.value in gone then t.members[u].(venue := None) else t.members[u],
       sessions := map c | c in t.sessions :: if t.sessions[c].venueId.Some? && t.sessions[c].venueId.value in gone then t.sessions[c].(venueId := None) else t.sessions[c])
  }

  function VenuesOf(t: Tenants, o: OrgId): set<VenueId> {
    set v | v in t.venues && t.venues[v] == o
  }

  /** Members and venues go with the organization, past calls forget it. */
  function WithoutOrg(t: Tenants, o: OrgId): Tenants {
    var t' := WithoutVenues(t, VenuesOf(t, o));
    t'.(orgs := t.orgs - {o},
        members := map u | u in t'.members && t'.members[u].org != o :: t'.members[u],
        sessions := map c | c in t'.sessions :: if t'.sessions[c].organizationId == Some(o) then t'.sessions[c].(organizationId := None) else t'.sessions[c])
  }

  function Without(members: map<UserId, Member>, u: UserId): map<UserId, Member> {
    map x | x in members && x != u :: members[x]
  }

  function Apply(t: Tenants, op: Op): Tenants
    requires Refuses(t, op) == None
  {
    match op
    case CreateOrg(u, o) => t.(orgs := t.orgs + {o}, members := t.members[u := Member(o, None, OWNER)])
    case AdminCreateOrg(o) => t.(orgs := t.orgs + {o})
    case CreateVenue(v, o) => t.(venues := t.venues[v := o])
    case AddMember(o, u, role, venue) =>
      var members := if role == OWNER then Demoted(t.members, o) else t.members;
      t.(members := members[u := Member(o, venue, role)])
    case UpdateMember(u, role, change) =>
      var m := t.members[u];
      var members := if ShouldDemote(op, t) then Demoted(t.members, m.org) else t.members;
      t.(members := members[u := m.(role := if role.Some? then role.value else m.role, venue := if change.SetTo? then change.venue else m.venue)])
    case RemoveMember(u) => t.(members := Without(t.members, u))
    case BindToOrg(u, o) => t.(members := Without(t.members, u)[u := Member(o, None, MEMBER)])
    case BindToVenue(u, v) => t.(members := Without(t.members, u)[u := Member(t.venues[v], Some(v), MEMBER)])
    case ApproveOrg(u, o, branches) =>
      t.(orgs := t.orgs + {o},
         venues := map v | v in t.venues.Keys + branches :: if v in branches then o else t.venues[v],
         members := Without(t.members, u)[u := Member(o, None, OWNER)])
    case LeaveAll(u) => t.(members := Without(t.members, u))
    case DeleteVenue(v) => WithoutVenues(t, {v})
    case DeleteOrg(o) => WithoutOrg(t, o)
    case RaiseFrom(c, u, v) =>
      t.(sessions := t.sessions[c := if v.Some? then FreshSession(u, Some(t.venues[v.value]), v, EmergencyType.VENUE) else FreshSession(u, OrgOf(t, u), None, PERSONAL)])
    case Dispatch(users, r) => t.(sessions := Effect(Db(users, t.sessions), r).sessions)
  }

  /** No handler of the dispatch protocol moves a call to another organization or venue. */
  lemma DispatchKeepsPlaces(db: Db, r: Request)
    requires Refusal(db, r) == None && !r.Raise?
    ensures Effect(db, r).sessions.Keys == db.sessions.Keys
    ensures forall c :: c in db.sessions ==>
              Effect(db, r).sessions[c].organizationId == db.sessions[c].organizationId && Effect(db, r).sessions[c].venueId == db.sessions[c].venueId
  {}

  lemma DispatchKeepsCoherent(db: Db, r: Request, c: SessionId)
    requires Refusal(db, r) == None && !r.Raise? && c in db.sessions && Coherent(db.sessions[c])
    ensures c in Effect(db, r).sessions && Coherent(Effect(db, r).sessions[c])
  {}

  /** Every operation keeps bound venues inside the membership's organization, and every call with a
      venue inside that venue's organization. */
  lemma OperationsKeepConsistency(t: Tenants, op: Op)
    requires Consistent(t) && Refuses(t, op) == None
    ensures Consistent(Apply(t, op))
  {
    var t' := Apply(t, op);
    if op.Dispatch? {
      var db := Db(op.users, t.sessions);
      DispatchKeepsPlaces(db, op.req);
      forall c | c in t'.sessions ensures PlaceOk(t', t'.sessions[c]) && Coherent(t'.sessions[c]) {
        assert PlaceOk(t, t.sessions[c]);
        DispatchKeepsCoherent(db, op.req, c);
      }
    } else {
      MembersStayConsistent(t, op);
      CallsStayConsistent(t, op);
    }
  }

  /** A venue leaves an organization only by being deleted, alone or with it. */
  lemma VenuesStayPut(t: Tenants, op: Op, v: VenueId, o: OrgId)
    requires Refuses(t, op) == None && !op.Dispatch? && InOrg(t, v, o)
    ensures InOrg(Apply(t, op), v, o) || op == DeleteVenue(v) || op == DeleteOrg(o)
    ensures o in t.orgs ==> o in Apply(t, op).orgs || op == DeleteOrg(o)
  {}

  /** A membership the operation leaves or makes. */
  lemma MemberStaysOk(t: Tenants, op: Op, u: UserId)
    requires Refuses(t, op) == None && !op.Dispatch? && u in Apply(t, op).members
    requires u in t.members ==> t.members[u].org in t.orgs && VenueFits(t, t.members[u].venue, t.members[u].org)
    requires op.BindToVenue? ==> t.venues[op.at] in t.orgs
    ensures var m := Apply(t, op).members[u];
            m.org in Apply(t, op).orgs && VenueFits(Apply(t, op), m.venue, m.org)
  {
    if u in t.members && t.members[u].venue.Some? {
      VenuesStayPut(t, op, t.members[u].venue.value, t.members[u].org);
    }
  }

  lemma MembersStayConsistent(t: Tenants, op: Op)
    requires Consistent(t) && Refuses(t, op) == None && !op.Dispatch?
    ensures forall u :: u in Apply(t, op).members ==>
              var m := Apply(t, op).members[u];
              m.org in Apply(t, op).orgs && VenueFits(Apply(t, op), m.venue, m.org)
    ensures forall v :: v in Apply(t, op).venues ==> Apply(t, op).venues[v] in Apply(t, op).orgs
  {
    var t' := Apply(t, op);
    forall u | u in t'.members
      ensures t'.members[u].org in t'.orgs && VenueFits(t', t'.members[u].venue, t'.members[u].org)
    {
      MemberStaysOk(t, op, u);
    }
  }

  lemma CallStaysOk(t: Tenants, op: Op, c: SessionId)
    requires Refuses(t, op) == None && !op.Dispatch?
    requires c in t.sessions && PlaceOk(t, t.sessions[c]) && Coherent(t.sessions[c])
    ensures c in Apply(t, op).sessions && PlaceOk(Apply(t, op), Apply(t, op).sessions[c]) && Coherent(Apply(t, op).sessions[c])
  {
    if t.sessions[c].venueId.Some? {
      VenuesStayPut(t, op, t.sessions[c].venueId.value, t.sessions[c].organizationId.value);
    }
  }

  lemma CallsStayConsistent(t: Tenants, op: Op)
    requires Consistent(t) && Refuses(t, op) == None && !op.Dispatch?
    ensures forall c :: c in Apply(t, op).sessions ==> PlaceOk(Apply(t, op), Apply(t, op).sessions[c]) && Coherent(Apply(t, op).sessions[c])
  {
    var t' := Apply(t, op);
    forall c | c in t'.sessions ensures PlaceOk(t', t'.sessions[c]) && Coherent(t'.sessions[c]) {
      if c in t.sessions { CallStaysOk(t, op, c); }
    }
  }

  // ---- Ownership ----

  /** Handlers one at a time never give an organization a second owner. */
  lemma OwnersStayUnique(t: Tenants, op: Op)
    requires Consistent(t) && OneOwnerEach(t) && Refuses(t, op) == None
    ensures OneOwnerEach(Apply(t, op))
  {
    var t' := Apply(t, op);
    forall u, v, o | IsOwner(t', u, o) && IsOwner(t', v, o) ensures u == v {
      assert IsOwner(t, u, o) ==> o in t.orgs;
      assert IsOwner(t, v, o) ==> o in t.orgs;
    }
  }

  /** The operation may take the owner away from the organization. */
  predicate TakesOwner(t: Tenants, op: Op, o: OrgId) {
    op == DeleteOrg(o) || ((op.ApproveOrg? || op.LeaveAll?) && IsOwner(t, op.user, o))
  }

  /** An owned organization loses its owner exactly when it is deleted, or when the owner's own
      application is approved or account deleted. Adding, changing, removing and binding keep it owned. */
  lemma OwnerIsLostExactlyBy(t: Tenants, op: Op, o: OrgId)
    requires Consistent(t) && OneOwnerEach(t) && Refuses(t, op) == None && Owned(t, o)
    ensures Owned(Apply(t, op), o) <==> !TakesOwner(t, op, o)
  {
    var t' := Apply(t, op);
    var u :| IsOwner(t, u, o);
    assert o in t.orgs;
    if !TakesOwner(t, op, o) {
      var heir := if ShouldDemote(op, t) && (if op.AddMember? then op.org else t.members[op.user].org) == o then op.user else u;
      assert IsOwner(t', heir, o);
    } else {
      forall v ensures !IsOwner(t', v, o) {
        if v in t.members && IsOwner(t, v, o) { assert v == u; }
      }
    }
  }

  /** The operations were carried out one after another. */
  ghost predicate Course(t: Tenants, ops: seq<Op>, t': Tenants)
    decreases |ops|
  {
    if ops == [] then t' == t
    else Refuses(t, ops[0]) == None && Course(Apply(t, ops[0]), ops[1..], t')
  }

  /** At every state of the course, the next operation leaves the organization its owner. */
  ghost predicate NobodyTakesOwner(t: Tenants, ops: seq<Op>, t': Tenants, o: OrgId)
    requires Course(t, ops, t')
    decreases |ops|
  {
    ops == [] || (!TakesOwner(t, ops[0], o) && NobodyTakesOwner(Apply(t, ops[0]), ops[1..], t', o))
  }

  /** Over any course of operations: consistent rows and one owner each, and an organization owned at
      the start is owned at the end if nothing on the way took its owner. */
  lemma {:induction false} CourseKeepsOrder(t: Tenants, ops: seq<Op>, t': Tenants, o: OrgId)
    requires Consistent(t) && OneOwnerEach(t) && Course(t, ops, t')
    ensures Consistent(t') && OneOwnerEach(t')
    ensures Owned(t, o) && NobodyTakesOwner(t, ops, t', o) ==> Owned(t', o)
    decreases |ops|
  {
    if ops != [] {
      OperationsKeepConsistency(t, ops[0]);
      OwnersStayUnique(t, ops[0]);
      CourseKeepsOrder(Apply(t, ops[0]), ops[1..], t', o);
      if Owned(t, o) { OwnerIsLostExactlyBy(t, ops[0], o); }
    }
  }

  /** Deleting an organization is refused exactly while one of its calls is not closed; if it goes
      through, no open call loses its organization or venue. */
  lemma DeletionSparesOpenCalls(t: Tenants, o: OrgId)
    requires Consistent(t) && o in t.orgs
    ensures Refuses(t, DeleteOrg(o)) == None <==>
              forall c :: c in t.sessions && t.sessions[c].organizationId == Some(o) ==> t.sessions[c].status == CLOSED
    ensures Refuses(t, DeleteOrg(o)) == None ==>
              forall c :: c in t.sessions && t.sessions[c].status != CLOSED ==>
                c in WithoutOrg(t, o).sessions && WithoutOrg(t, o).sessions[c] == t.sessions[c]
  {
    forall c | c in t.sessions ensures t.sessions[c].closedAt == None <==> t.sessions[c].status != CLOSED {
      assert Coherent(t.sessions[c]);
    }
    forall c | c in t.sessions && t.sessions[c].venueId.Some? && t.sessions[c].venueId.value in VenuesOf(t, o)
      ensures t.sessions[c].organizationId == Some(o)
    {
      assert PlaceOk(t, t.sessions[c]);
    }
  }
}
