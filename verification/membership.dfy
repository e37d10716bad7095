/** The membership, venue and organization services over mutable tables, proved against the operations. */
module Membership {
  import opened Rows
  import opened Services
  import opened Subscription
  import T = Tenancy

  class Registry {
    const db: Database
    var orgs: set<OrgId>
    var venues: map<VenueId, OrgId>
    var members: map<UserId, T.Member>
    var orgCodes: map<string, OrgId>      // by normalized invite code
    var venueCodes: map<string, VenueId>
    var subs: Subs

    constructor (db: Database)
      ensures this.db == db && orgs == {} && venues == map[] && members == map[] && subs == map[]
      ensures orgCodes == map[] && venueCodes == map[]
    {
      this.db := db;
      orgs, venues, members, subs := {}, map[], map[], map[];
      orgCodes, venueCodes := map[], map[];
    }

    function Tenants(): T.Tenants
      reads this, db
    {
      T.Tenants(orgs, venues, members, db.sessions)
    }

    ghost predicate Valid()
      reads this, db
    {
      && T.Consistent(Tenants()) && T.OneOwnerEach(Tenants())
      && (forall code :: code in orgCodes ==> orgCodes[code] in orgs)
      && (forall code :: code in venueCodes ==> venueCodes[code] in venues)
    }

    /** OrganizationService.create */
    method Create(user: UserId, org: OrgId) returns (denial: Option<T.Denial>)
      requires Valid() && org !in orgs
      modifies this`orgs, this`members
      ensures Valid()
      ensures denial == T.Refuses(old(Tenants()), T.CreateOrg(user, org))
      ensures Tenants() == if denial == None then T.Apply(old(Tenants()), T.CreateOrg(user, org)) else old(Tenants())
    {
      if user in members { return Some(T.AlreadyMember); }
      Kept(T.CreateOrg(user, org));
      orgs := orgs + {org};
      members := members[user := T.Member(org, None, T.OWNER)];
      return None;
    }

    lemma Kept(op: T.Op)
      requires Valid() && T.Refuses(Tenants(), op) == None
      ensures T.Consistent(T.Apply(Tenants(), op)) && T.OneOwnerEach(T.Apply(Tenants(), op))
    {
      T.OperationsKeepConsistency(Tenants(), op);
      T.OwnersStayUnique(Tenants(), op);
    }

    method AssertVenueBelongsToOrg(venue: Option<VenueId>, org: OrgId) returns (denial: Option<T.Denial>)
      ensures denial == if venue.Some? && venue.value !in venues then Some(T.NotFound)
                        else if !T.VenueFits(Tenants(), venue, org) then Some(T.VenueElsewhere) else None
    {
      if venue == None { return None; }
      if venue.value !in venues { return Some(T.NotFound); }
      if venues[venue.value] != org { return Some(T.VenueElsewhere); }
      return None;
    }

    /** findFirst of the owner, then one update; one owner at most makes it all of them. */
    method DemoteCurrentOwner(org: OrgId)
      requires T.OneOwnerEach(Tenants())
      modifies this`members
      ensures members == T.Demoted(old(members), org)
    {
      var owners := set u | u in members && members[u].org == org && members[u].role == T.OWNER;
      forall u | u in members && members[u].org == org && members[u].role == T.OWNER ensures u in owners && T.IsOwner(Tenants(), u, org) {}
      if owners == {} {
        forall u | u in members ensures T.Demoted(members, org)[u] == members[u] {
          if members[u].org == org && members[u].role == T.OWNER { assert u in owners; }
        }
        assert T.Demoted(members, org) == members;
        return;
      }
      var current :| current in owners;
      members := members[current := members[current].(role := T.MANAGER)];
      assert members == T.Demoted(old(members), org);
    }

    method AddOrganizationMember(org: OrgId, user: UserId, role: T.OrgRole, venue: Option<VenueId>) returns (denial: Option<T.Denial>)
      requires Valid()
      modifies this`members
      ensures Valid()
      ensures denial == T.Refuses(old(Tenants()), T.AddMember(org, user, role, venue))
      ensures Tenants() == if denial == None then T.Apply(old(Tenants()), T.AddMember(org, user, role, venue)) else old(Tenants())
    {
      if org !in orgs { return Some(T.NotFound); }
      if user in members { return Some(T.AlreadyMember); }
      denial := AssertVenueBelongsToOrg(venue, org);
      if denial != None { return; }
      Kept(T.AddMember(org, user, role, venue));
      if role == T.OWNER { DemoteCurrentOwner(org); }
      members := members[user := T.Member(org, venue, role)];
    }

    method UpdateOrganizationMember(user: UserId, role: Option<T.OrgRole>, change: T.VenueChange) returns (denial: Option<T.Denial>)
      requires Valid()
      modifies this`members
      ensures Valid()
      ensures denial == T.Refuses(old(Tenants()), T.UpdateMember(user, role, change))
      ensures Tenants() == if denial == None then T.Apply(old(Tenants()), T.UpdateMember(user, role, change)) else old(Tenants())
    {
      if user !in members { return Some(T.NotFound); }
      var member := members[user];
      if change.SetTo? && change.venue.Some? {
        denial := AssertVenueBelongsToOrg(change.venue, member.org);
        if denial != None { return; }
      }
      if member.role == T.OWNER && role.Some? && role.value != T.OWNER { return Some(T.SoleOwner); }
      Kept(T.UpdateMember(user, role, change));
      if role == Some(T.OWNER) && member.role != T.OWNER { DemoteCurrentOwner(member.org); }
      members := members[user := member.(role := if role.Some? then role.value else member.role,
                                         venue := if change.SetTo? then change.venue else member.venue)];
      return None;
    }

    method RemoveOrganizationMember(user: UserId) returns (denial: Option<T.Denial>)
      requires Valid()
      modifies this`members
      ensures Valid()
      ensures denial == T.Refuses(old(Tenants()), T.RemoveMember(user))
      ensures Tenants() == if denial == None then T.Apply(old(Tenants()), T.RemoveMember(user)) else old(Tenants())
    {
      if user !in members { return Some(T.NotFound); }
      if members[user].role == T.OWNER { return Some(T.OwnerStays); }
      Kept(T.RemoveMember(user));
      members := T.Without(members, user);
      return None;
    }

    /** The operation an invite code asks for: an organization's code comes before a venue's. */
    function Invitation(user: UserId, code: string): Option<T.Op>
      reads this
    {
      if code in orgCodes then Some(T.BindToOrg(user, orgCodes[code]))
      else if code in venueCodes then Some(T.BindToVenue(user, venueCodes[code]))
      else None
    }

    method BindByInviteCode(user: UserId, code: string) returns (denial: Option<T.Denial>)
      requires Valid()
      modifies this`members
      ensures Valid()
      ensures denial == if T.OwnsSomething(old(Tenants()), user) then Some(T.OwnerStays)
                        else if Invitation(user, code) == None then Some(T.NotFound)
                        else T.Refuses(old(Tenants()), Invitation(user, code).value)
      ensures denial == None ==> Tenants() == T.Apply(old(Tenants()), Invitation(user, code).value)
      ensures denial == None ==>
                if code in orgCodes then members == old(members)[user := T.Member(orgCodes[code], None, T.MEMBER)]
                else code in venueCodes && members == old(members)[user := T.Member(venues[venueCodes[code]], Some(venueCodes[code]), T.MEMBER)]
      ensures denial != None ==> Tenants() == old(Tenants())
    {
      if user in members && members[user].role == T.OWNER { return Some(T.OwnerStays); }
      if code in orgCodes {
        var org := orgCodes[code];
        Kept(T.BindToOrg(user, org));
        members := T.Without(members, user);
        members := members[user := T.Member(org, None, T.MEMBER)];
        return None;
      }
      if code !in venueCodes { return Some(T.NotFound); }
      var venue := venueCodes[code];
      Kept(T.BindToVenue(user, venue));
      members := T.Without(members, user);
      members := members[user := T.Member(venues[venue], Some(venue), T.MEMBER)];
      return None;
    }

    method FindUserOrgId(user: UserId) returns (org: Option<OrgId>)
      ensures org == T.OrgOf(Tenants(), user)
    {
      org := if user in members then Some(members[user].org) else None;
    }
  }
}
