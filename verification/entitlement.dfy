/** What each membership operation leaves of everybody's membership, and who may raise an SOS from where. */
module Entitlement {
  import opened Rows
  import opened Tenancy
  import opened Subscription
  import opened Emergency

  // ---- Memberships, one user at a time ----

  function Get(t: Tenants, u: UserId): Option<Member> {
    if u in t.members then Some(t.members[u]) else None
  }

  predicate OwnerOf(m: Option<Member>, o: OrgId) {
    m.Some? && m.value.org == o && m.value.role == OWNER
  }

  /** An old owner becomes a manager when somebody is made the owner. */
  function GivenWay(m: Option<Member>, o: OrgId): Option<Member> {
    if OwnerOf(m, o) then Some(m.value.(role := MANAGER)) else m
  }

  function WithoutVenue(m: Option<Member>, gone: set<VenueId>): Option<Member> {
    if m.Some? && m.value.venue.Some? && m.value.venue.value in gone then Some(m.value.(venue := None)) else m
  }

  /** The membership of `v` after the operation. */
  function Afterwards(t: Tenants, op: Op, v: UserId): Option<Member> {
    var m := Get(t, v);
    match op
    case CreateOrg(u, o) => if v == u then Some(Member(o, None, OWNER)) else m
    case AddMember(o, u, role, venue) => if v == u then Some(Member(o, venue, role)) else if role == OWNER then GivenWay(m, o) else m
    case UpdateMember(u, role, change) =>
      if u !in t.members then m
      else if v == u then
        Some(Member(t.members[u].org, if change.SetTo? then change.venue else t.members[u].venue, if role.Some? then role.value else t.members[u].role))
      else if role == Some(OWNER) && t.members[u].role != OWNER then GivenWay(m, t.members[u].org)
      else m
    case RemoveMember(u) => if v == u then None else m
    case LeaveAll(u) => if v == u then None else m
    case BindToOrg(u, o) => if v == u then Some(Member(o, None, MEMBER)) else m
    case BindToVenue(u, at) => if v == u && at in t.venues then Some(Member(t.venues[at], Some(at), MEMBER)) else m
    case ApproveOrg(u, o, _) => if v == u then Some(Member(o, None, OWNER)) else m
    case DeleteVenue(at) => WithoutVenue(m, {at})
    case DeleteOrg(o) => if m.Some? && m.value.org == o then None else m
    case _ => m
  }

  /** Every operation leaves everybody exactly the membership it says. */
  lemma MembershipAfterwards(t: Tenants, op: Op, v: UserId)
    requires Consistent(t) && Refuses(t, op) == None
    ensures Get(Apply(t, op), v) == Afterwards(t, op, v)
  {}

  /** The organizations and venues there are after the operation. */
  lemma PlacesAfterwards(t: Tenants, op: Op, o: OrgId, v: VenueId)
    requires Refuses(t, op) == None
    ensures o in Apply(t, op).orgs <==>
              (o in t.orgs && op != DeleteOrg(o)) || ((op.CreateOrg? || op.AdminCreateOrg? || op.ApproveOrg?) && op.org == o)
    ensures InOrg(Apply(t, op), v, o) <==>
              || (InOrg(t, v, o) && op != DeleteVenue(v) && op != DeleteOrg(o))
              || op == CreateVenue(v, o)
              || (op.ApproveOrg? && op.org == o && v in op.branches)
  {}

  /** Deleting a venue or an organization makes calls forget it, and changes nothing else about any call. */
  lemma CallsAfterwards(t: Tenants, op: Op, c: SessionId)
    requires Consistent(t) && Refuses(t, op) == None && !op.RaiseFrom? && !op.Dispatch?
    ensures c in Apply(t, op).sessions <==> c in t.sessions
    ensures c in t.sessions ==>
              var row := t.sessions[c];
              Apply(t, op).sessions[c] == row.(
                organizationId := if row.organizationId.Some? && op == DeleteOrg(row.organizationId.value) then None else row.organizationId,
                venueId := if row.venueId.Some? && (op == DeleteVenue(row.venueId.value) || op == DeleteOrg(t.venues[row.venueId.value])) then None else row.venueId)
  {
    if c in t.sessions { assert PlaceOk(t, t.sessions[c]); }
  }

  /** What an operation demands. */
  predicate Allowed(t: Tenants, op: Op) {
    match op
    case CreateOrg(u, o) => u !in t.members && o !in t.orgs
    case AdminCreateOrg(o) => o !in t.orgs
    case CreateVenue(v, o) => o in t.orgs && v !in t.venues
    case AddMember(o, u, _, venue) => o in t.orgs && u !in t.members && (venue == None || (venue.value in t.venues && t.venues[venue.value] == o))
    case UpdateMember(u, role, change) =>
      && u in t.members
      && (change.SetTo? && change.venue.Some? ==> change.venue.value in t.venues && t.venues[change.venue.value] == t.members[u].org)
      && (t.members[u].role == OWNER ==> role == None || role == Some(OWNER))
    case RemoveMember(u) => u in t.members && t.members[u].role != OWNER
    case BindToOrg(u, o) => o in t.orgs && !(u in t.members && t.members[u].role == OWNER)
    case BindToVenue(u, v) => v in t.venues && !(u in t.members && t.members[u].role == OWNER)
    case ApproveOrg(_, o, branches) => o !in t.orgs && branches !! t.venues.Keys
    case LeaveAll(_) => true
    case DeleteVenue(v) => v in t.venues
    case DeleteOrg(o) => o in t.orgs && forall c :: c in t.sessions && t.sessions[c].organizationId == Some(o) ==> t.sessions[c].closedAt.Some?
    case _ => Refuses(t, op) == None
  }

  lemma AcceptedIffAllowed(t: Tenants, op: Op)
    ensures Refuses(t, op) == None <==> Allowed(t, op)
  {}

  // ---- Who may raise an SOS ----

  /** From a venue, role by role. */
  lemma FromAVenue(t: Tenants, sub: Option<Sub>, u: UserId, v: VenueId, now: Time)
    ensures v !in t.venues ==> Entitled(t, sub, u, Some(v), now) == Refusal(VenueNotFound)
    ensures v in t.venues && u !in t.members ==> Entitled(t, sub, u, Some(v), now) == Refusal(VenueBindRequired)
    ensures v in t.venues && u in t.members ==>
              var m, home := t.members[u], t.venues[v];
              var allowed := match m.role
                             case OWNER => m.org == home || m.venue == Some(v)
                             case MANAGER => m.venue == Some(v) || (m.org == home && m.venue == None)
                             case MEMBER => m.venue == Some(v) || (m.org == home && m.venue == None)
                             case STAFF => m.venue == Some(v);
              Entitled(t, sub, u, Some(v), now) == if allowed then Placement(Some(home), Some(v), EmergencyType.VENUE) else Refusal(VenueBindRequired)
  {}

  /** From nowhere in particular: owners of anything, and subscribers whose date has not come. */
  lemma FromAnywhere(t: Tenants, sub: Option<Sub>, u: UserId, now: Time)
    ensures (u in t.members && t.members[u].role == OWNER) || (sub.Some? && sub.value.active && (sub.value.expires == None || now < sub.value.expires.value)) ==>
              Entitled(t, sub, u, None, now) == Placement(if u in t.members then Some(t.members[u].org) else None, None, PERSONAL)
    ensures !(u in t.members && t.members[u].role == OWNER) && !(sub.Some? && sub.value.active && (sub.value.expires == None || now < sub.value.expires.value)) ==>
              Entitled(t, sub, u, None, now) ==
                Refusal(NoSubscription(if sub.Some? && sub.value.active && sub.value.expires.Some? then SubscriptionExpired else SubscriptionRequired))
  {}

  /** A venue's invite code entitles to that venue, and to no other unless one owns it. */
  lemma VenueCodeEntitlesThere(t: Tenants, sub: Option<Sub>, u: UserId, v: VenueId, w: VenueId, now: Time)
    requires Consistent(t) && Refuses(t, BindToVenue(u, v)) == None && w in t.venues
    ensures Entitled(Apply(t, BindToVenue(u, v)), sub, u, Some(w), now) ==
              if w == v then Placement(Some(t.venues[v]), Some(v), EmergencyType.VENUE) else Refusal(VenueBindRequired)
  {}

  /** An organization's code, like being approved as its owner, entitles to exactly its venues. */
  lemma OrgCodeEntitlesEverywhere(t: Tenants, sub: Option<Sub>, u: UserId, o: OrgId, w: VenueId, now: Time)
    requires Consistent(t) && Refuses(t, BindToOrg(u, o)) == None && w in t.venues
    ensures Entitled(Apply(t, BindToOrg(u, o)), sub, u, Some(w), now) ==
              if t.venues[w] == o then Placement(Some(o), Some(w), EmergencyType.VENUE) else Refusal(VenueBindRequired)
  {}

  lemma ApprovalEntitlesToTheBranches(t: Tenants, sub: Option<Sub>, u: UserId, o: OrgId, branches: set<VenueId>, w: VenueId, now: Time)
    requires Consistent(t) && Refuses(t, ApproveOrg(u, o, branches)) == None
    ensures var t' := Apply(t, ApproveOrg(u, o, branches));
            && (w in branches ==> Entitled(t', sub, u, Some(w), now) == Placement(Some(o), Some(w), EmergencyType.VENUE))
            && (w in t.venues ==> Entitled(t', sub, u, Some(w), now) == Refusal(VenueBindRequired))
            && Entitled(t', sub, u, None, now) == Placement(Some(o), None, PERSONAL)
  {}

  /** Who gives up the ownership stays entitled wherever a manager is. */
  lemma DemotedOwnerIsManager(t: Tenants, sub: Option<Sub>, u: UserId, o: OrgId, heir: UserId, v: VenueId, now: Time)
    requires Consistent(t) && IsOwner(t, u, o) && Refuses(t, AddMember(o, heir, OWNER, None)) == None && InOrg(t, v, o)
    ensures var t' := Apply(t, AddMember(o, heir, OWNER, None));
            && Entitled(t', sub, heir, Some(v), now) == Placement(Some(o), Some(v), EmergencyType.VENUE)
            && (Entitled(t', sub, u, Some(v), now).Placement? <==> t.members[u].venue == None || t.members[u].venue == Some(v))
  {}

  /** Who has left is entitled to no venue. */
  lemma LeaversAreRefused(t: Tenants, sub: Option<Sub>, u: UserId, op: Op, v: VenueId, now: Time)
    requires (op == RemoveMember(u) || op == LeaveAll(u)) && Refuses(t, op) == None && v in t.venues
    ensures Entitled(Apply(t, op), sub, u, Some(v), now) == Refusal(VenueBindRequired)
  {}

  // ---- Subscriptions in time ----

  /** An approved subscription admits its user until its date and not from then on; the date is the one
      given or thirty days ahead. A date that has passed changes nothing. */
  lemma ApprovalAdmitsUntil(s: State, u: UserId, until: Option<Time>, ms: nat)
    requires u in s.subs
    ensures var expires := if until.Some? then until.value else s.now + 2_592_000_000;
            var s' := AfterEvent(s, Approve(u, until));
            if expires <= s.now then s' == s
            else
              var later := AfterEvent(s', Event.Pass(ms));
              IsSubscribed(Lookup(later.subs, u), later.now) <==> later.now < expires
  {}

  /** Deleting an account ends the subscription at once, and only its own. */
  lemma DeletionEndsSubscription(s: State, u: UserId, v: UserId)
    requires u in s.subs
    ensures var s' := AfterEvent(s, DeleteAccount(u));
            && !IsSubscribed(Lookup(s'.subs, u), s'.now)
            && (v != u ==> Lookup(s'.subs, v) == Lookup(s.subs, v))
  {}
}
