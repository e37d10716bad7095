/** The requester side: raising, locating and closing a call. */
module Emergency {
  import opened Rows
  import opened Handlers
  import opened Runs
  import opened Fanout
  import opened Promises
  import opened Redis
  import opened Services
  import opened Membership
  import opened Subscription
  import Lease
  import T = Tenancy

  datatype Denied = VenueNotFound | VenueBindRequired | NoSubscription(code: Subscription.Refusal)

  datatype Placement = Placement(org: Option<OrgId>, venue: Option<VenueId>, kind: EmergencyType) | Refusal(why: Denied)

  /** Who may raise an SOS, and where the call then belongs, in one sentence each. */
  function Entitled(t: T.Tenants, sub: Option<Sub>, user: UserId, venue: Option<VenueId>, now: Time): Placement {
    match venue
    case Some(v) =>
      if v !in t.venues then Refusal(VenueNotFound)
      else if T.MayRaiseAt(t, user, v) then Placement(Some(t.venues[v]), Some(v), EmergencyType.VENUE)
      else Refusal(VenueBindRequired)
    case None =>
      if IsSubscribed(sub, now) || T.OwnsSomething(t, user) then Placement(T.OrgOf(t, user), None, PERSONAL)
      else Refusal(NoSubscription(RefusalCode(sub)))
  }

  datatype Answer = Existing(session: SessionId) | Created(session: SessionId) | SosInProgress | NotAllowed(why: Denied)

  predicate HasOpenSession(db: Db, user: UserId, c: SessionId) {
    c in db.sessions && db.sessions[c].userId == user && db.sessions[c].status != CLOSED
  }

  ghost predicate AnyOpenSession(db: Db, user: UserId) {
    exists c :: HasOpenSession(db, user, c)
  }

  class EmergencyService {
    const db: Database
    const redis: RedisService
    const gateway: WebsocketGateway
    const registry: Registry

    constructor (db: Database, redis: RedisService, gateway: WebsocketGateway, registry: Registry)
      requires gateway.db == db && registry.db == db
      ensures this.db == db && this.redis == redis && this.gateway == gateway && this.registry == registry
    {
      this.db, this.redis, this.gateway, this.registry := db, redis, gateway, registry;
    }

    predicate Wired() { gateway.db == db && registry.db == db }

    /** What the one declarative rule says now. */
    ghost function Rule(user: UserId, venueId: Option<VenueId>): Placement
      reads registry, registry.db, redis
    {
      Entitled(registry.Tenants(), Lookup(registry.subs, user), user, venueId, redis.now)
    }

    /** The new call is there, placed as the rule says, and offered. */
    ghost predicate Raised(before: World, sent: seq<Fanout.Event>, newId: SessionId, user: UserId, placement: Placement, busyKnown: bool)
      requires Wired()
      reads gateway, db
    {
      placement.Placement? &&
      var step := Call(Raise(newId, user, placement.org, placement.venue, placement.kind), busyKnown);
      gateway.World() == After(before, step) && gateway.sent == sent + Heard(before, step)
    }

    method FindOpenSession(user: UserId) returns (found: Option<SessionId>)
      ensures found.Some? ==> HasOpenSession(db.Rows(), user, found.value)
      ensures found.Some? <==> AnyOpenSession(db.Rows(), user)
    {
      var open := set c | c in db.sessions && db.sessions[c].userId == user && db.sessions[c].status != CLOSED;
      if open == {} {
        found := None;
        assert forall c :: HasOpenSession(db.Rows(), user, c) ==> c in open;
      } else {
        var c :| c in open;
        assert HasOpenSession(db.Rows(), user, c);
        found := Some(c);
      }
    }

    /** The cascade of membership queries equals the one declarative rule. */
    method Entitle(user: UserId, venueId: Option<VenueId>) returns (placement: Placement)
      requires Wired() && registry.Valid()
      ensures placement == Rule(user, venueId)
    {
      var organizationId: Option<OrgId> := None;
      var sessionVenueId: Option<VenueId> := None;
      var emergencyType := PERSONAL;
      if venueId.Some? {
        var id := venueId.value;
        if id !in registry.venues { return Refusal(VenueNotFound); }
        var home := registry.venues[id];
        // findFirst { userId, venueId }
        if user in registry.members && registry.members[user].venue == Some(id) {
          organizationId := Some(registry.members[user].org);
          sessionVenueId := registry.members[user].venue;
          emergencyType := EmergencyType.VENUE;
        } else {
          var orgWideMember := user in registry.members && registry.members[user].org == home && registry.members[user].venue == None
            && (registry.members[user].role == T.MEMBER || registry.members[user].role == T.MANAGER);
          if orgWideMember {
            organizationId, sessionVenueId, emergencyType := Some(home), Some(id), EmergencyType.VENUE;
          } else {
            var orgOwner := user in registry.members && registry.members[user].org == home && registry.members[user].role == T.OWNER;
            if !orgOwner { return Refusal(VenueBindRequired); }
            organizationId, sessionVenueId, emergencyType := Some(home), Some(id), EmergencyType.VENUE;
          }
        }
      } else {
        var subscriber := Lookup(registry.subs, user);
        var hasActiveSubscription := subscriber.Some? && subscriber.value.active
          && (subscriber.value.expires == None || subscriber.value.expires.value > redis.now);
        var isOrgOwner := user in registry.members && registry.members[user].role == T.OWNER;
        if !hasActiveSubscription && !isOrgOwner {
          var expired := subscriber.Some? && subscriber.value.active && subscriber.value.expires.Some?;
          return Refusal(NoSubscription(if expired then SubscriptionExpired else SubscriptionRequired));
        }
        organizationId := registry.FindUserOrgId(user);
      }
      placement := Placement(organizationId, sessionVenueId, emergencyType);
    }

    method Insert(newId: SessionId, user: UserId, placement: Placement, busyKnown: bool)
      requires Wired() && db.Valid() && newId !in db.sessions && user in db.users && placement.Placement?
      modifies db, gateway`sent
      ensures db.Valid()
      ensures db.Rows() == old(db.Rows()).(sessions := old(db.sessions)[newId := FreshSession(user, placement.org, placement.venue, placement.kind)])
      ensures gateway.World() == After(old(gateway.World()), Call(Raise(newId, user, placement.org, placement.venue, placement.kind), busyKnown))
      ensures gateway.sent == old(gateway.sent) + Heard(old(gateway.World()), Call(Raise(newId, user, placement.org, placement.venue, placement.kind), busyKnown))
    {
      HandleKeepsGood(db.Rows(), Raise(newId, user, placement.org, placement.venue, placement.kind));
      db.sessions := db.sessions[newId := FreshSession(user, placement.org, placement.venue, placement.kind)];
      gateway.OfferToFreeOperators(newId, true, busyKnown);
      assert gateway.sent == old(gateway.sent) + EventsOf(old(db.Rows()), Raise(newId, user, placement.org, placement.venue, placement.kind), busyKnown);
    }

    /** An open call of the user is returned; otherwise the entitled get a new one, where they belong. */
    method StartSessionLocked(user: UserId, venueId: Option<VenueId>, newId: SessionId, busyKnown: bool) returns (answer: Answer)
      requires Wired() && db.Valid() && registry.Valid() && newId !in db.sessions && user in db.users
      modifies db, gateway`sent
      ensures db.Valid()
      ensures answer.Existing? ==>
                answer.session in old(db.sessions) && old(db.sessions)[answer.session].userId == user && old(db.sessions)[answer.session].status != CLOSED
      ensures answer.Created? ==>
                && old(Rule(user, venueId)).Placement?
                && (forall c :: c in old(db.sessions) && old(db.sessions)[c].userId == user ==> old(db.sessions)[c].status == CLOSED)
                && db.sessions == old(db.sessions)[newId := Session(user, old(Rule(user, venueId)).org, old(Rule(user, venueId)).venue, old(Rule(user, venueId)).kind, NEW, None, None, None, [])]
      ensures answer.Existing? <==> AnyOpenSession(old(db.Rows()), user)
      ensures !answer.Existing? ==>
                answer == if old(Rule(user, venueId)).Refusal? then NotAllowed(old(Rule(user, venueId)).why) else Created(newId)
      ensures answer.Created? ==> Raised(old(gateway.World()), old(gateway.sent), newId, user, old(Rule(user, venueId)), busyKnown)
      ensures !answer.Created? ==> gateway.World() == old(gateway.World()) && gateway.sent == old(gateway.sent)
      ensures registry.Valid()
    {
      var activeSession := FindOpenSession(user);
      if activeSession.Some? { return Existing(activeSession.value); }
      forall c | c in db.sessions && db.sessions[c].userId == user ensures db.sessions[c].status == CLOSED {
        assert !HasOpenSession(db.Rows(), user, c);
      }
      assert db.Rows() == old(db.Rows());
      var placement := Entitle(user, venueId);
      if placement.Refusal? { return NotAllowed(placement.why); }
      ghost var op := T.RaiseFrom(newId, user, venueId);
      assert T.Refuses(registry.Tenants(), op) == None;
      registry.Kept(op);
      Insert(newId, user, placement, busyKnown);
      return Created(newId);
    }

    /** Another trigger of the user holds the lease: answer with its call if it is there already. */
    method AnswerWhileLocked(user: UserId) returns (answer: Answer)
      ensures answer == SosInProgress || (answer.Existing? && HasOpenSession(db.Rows(), user, answer.session))
      ensures answer.Existing? <==> AnyOpenSession(db.Rows(), user)
    {
      var inFlight := FindOpenSession(user);
      return if inFlight.Some? then Existing(inFlight.value) else SosInProgress;
    }

    /** Start, and give the lease back whatever came out. */
    method StartAndRelease(user: UserId, venueId: Option<VenueId>, newId: SessionId, token: Option<Token>, releaseUp: bool, busyKnown: bool) returns (answer: Answer)
      requires Wired() && db.Valid() && registry.Valid() && redis.Valid() && newId !in db.sessions && user in db.users
      modifies db, redis`store, gateway`sent
      ensures db.Valid()
      ensures registry.Valid() && redis.Valid()
      ensures answer.Existing? ==>
                answer.session in old(db.sessions) && old(db.sessions)[answer.session].userId == user && old(db.sessions)[answer.session].status != CLOSED
      ensures answer.Created? ==>
                && old(Rule(user, venueId)).Placement?
                && (forall c :: c in old(db.sessions) && old(db.sessions)[c].userId == user ==> old(db.sessions)[c].status == CLOSED)
                && db.sessions == old(db.sessions)[newId := Session(user, old(Rule(user, venueId)).org, old(Rule(user, venueId)).venue, old(Rule(user, venueId)).kind, NEW, None, None, None, [])]
      ensures answer.Existing? <==> AnyOpenSession(old(db.Rows()), user)
      ensures !answer.Existing? ==>
                answer == if old(Rule(user, venueId)).Refusal? then NotAllowed(old(Rule(user, venueId)).why) else Created(newId)
      ensures answer.Created? ==> Raised(old(gateway.World()), old(gateway.sent), newId, user, old(Rule(user, venueId)), busyKnown)
      ensures !answer.Created? ==> gateway.World() == old(gateway.World()) && gateway.sent == old(gateway.sent)
      ensures redis.store == if token.Some? && releaseUp then DeleteIfOwned(old(redis.store), SosTrigger(user), token.value, redis.now) else old(redis.store)
    {
      answer := StartSessionLocked(user, venueId, newId, busyKnown);
      if token.Some? && releaseUp {
        redis.ReleaseLock(SosTrigger(user), token.value);
      }
    }

    /** Without an answer the process goes on without the lease, even if the key has been set for it. */
    method RequestLease(user: UserId, acquiring: Reply) returns (token: Option<Token>, lockAvailable: bool)
      requires redis.Valid()
      modifies redis`store, redis`nextToken
      ensures redis.Valid()
      ensures lockAvailable == acquiring.Answers?
      ensures token == if acquiring.Answers? && !Live(old(redis.store), SosTrigger(user), redis.now) then Some(old(redis.nextToken)) else None
      ensures token.Some? ==> Owns(redis.store, SosTrigger(user), token.value, redis.now)
      ensures !acquiring.Fails? && !Live(old(redis.store), SosTrigger(user), redis.now) ==>
                Live(redis.store, SosTrigger(user), redis.now) && redis.store[SosTrigger(user)].expiresAt == redis.now + 30_000
      ensures forall key, t: Token :: t < old(redis.nextToken) && Owns(old(redis.store), key, t, redis.now) ==> Owns(redis.store, key, t, redis.now)
    {
      token, lockAvailable := None, acquiring.Answers?;
      if acquiring.Fails? { return; }
      var given := redis.AcquireLock(SosTrigger(user), Lease.SOS_TRIGGER_LOCK_TTL_SECONDS);
      if lockAvailable { token := given; }
    }

    /** The lease keeps repeated taps apart; a failing Redis must not refuse an alarm. */
    method StartSession(user: UserId, venueId: Option<VenueId>, newId: SessionId, acquiring: Reply, releaseUp: bool, busyKnown: bool) returns (answer: Answer)
      requires Wired() && db.Valid() && registry.Valid() && redis.Valid() && newId !in db.sessions && user in db.users
      modifies db, redis, gateway`sent
      ensures db.Valid()
      ensures registry.Valid() && redis.Valid() && redis.now == old(redis.now)
      ensures answer.Existing? ==>
                answer.session in old(db.sessions) && old(db.sessions)[answer.session].userId == user && old(db.sessions)[answer.session].status != CLOSED
      ensures answer.Created? ==>
                && old(Rule(user, venueId)).Placement?
                && (forall c :: c in old(db.sessions) && old(db.sessions)[c].userId == user ==> old(db.sessions)[c].status == CLOSED)
                && db.sessions == old(db.sessions)[newId := Session(user, old(Rule(user, venueId)).org, old(Rule(user, venueId)).venue, old(Rule(user, venueId)).kind, NEW, None, None, None, [])]
      ensures answer.Existing? <==> AnyOpenSession(old(db.Rows()), user)
      ensures !answer.Existing? ==>
                answer == if acquiring.Answers? && Live(old(redis.store), SosTrigger(user), redis.now) then SosInProgress
                          else if old(Rule(user, venueId)).Refusal? then NotAllowed(old(Rule(user, venueId)).why)
                          else Created(newId)
      ensures answer.Created? ==> Raised(old(gateway.World()), old(gateway.sent), newId, user, old(Rule(user, venueId)), busyKnown)
      ensures !answer.Created? ==> gateway.World() == old(gateway.World()) && gateway.sent == old(gateway.sent)
      ensures forall key, t: Token :: t < old(redis.nextToken) && Owns(old(redis.store), key, t, redis.now) ==> Owns(redis.store, key, t, redis.now)
      ensures acquiring.Answers? && releaseUp && !Live(old(redis.store), SosTrigger(user), redis.now) ==> !Live(redis.store, SosTrigger(user), redis.now)
    {
      var token, lockAvailable := RequestLease(user, acquiring);
      if lockAvailable && token == None {
        assert db.Rows() == old(db.Rows());
        answer := AnswerWhileLocked(user);
        return;
      }
      answer := StartAndRelease(user, venueId, newId, token, releaseUp, busyKnown);
    }

    method AddLocation(c: SessionId, user: UserId, location: Location) returns (answer: Outcome)
      requires Wired() && db.Valid()
      modifies db, gateway`sent
      ensures db.Valid()
      ensures answer == AnswerOf(Obstacle(old(db.Rows()), Request.AddLocation(c, user, location)))
      ensures if answer == Done then Written(old(db.Rows()), Request.AddLocation(c, user, location), db.Rows()) else db.Rows() == old(db.Rows())
      ensures answer == AnswerOf(Verdict(old(db.Rows()), Request.AddLocation(c, user, location)))
      ensures gateway.World() == After(old(gateway.World()), Call(Request.AddLocation(c, user, location)))
      ensures gateway.sent == old(gateway.sent) + Heard(old(gateway.World()), Call(Request.AddLocation(c, user, location)))
    {
      HandledAsPromised(db.Rows(), Request.AddLocation(c, user, location));
      if c in db.sessions && db.sessions[c].userId == user && db.sessions[c].status != CLOSED {
        db.sessions := db.sessions[c := db.sessions[c].(locations := db.sessions[c].locations + [location])];
        NamedPair(db.sessions[c].assignee, None);
        gateway.EmitCard(LocationUpdate, c, db.sessions[c], [db.sessions[c].assignee]);
        assert gateway.sent == old(gateway.sent) + EventsOf(old(db.Rows()), Request.AddLocation(c, user, location));
        return Done;
      }
      if c !in db.sessions { return Refused(SessionNotFound); }
      if db.sessions[c].userId != user { return Refused(NotYourSession); }
      return Refused(SessionAlreadyClosed);
    }

    method CloseSession(c: SessionId, user: UserId) returns (answer: Outcome)
      requires Wired() && db.Valid()
      modifies db, gateway`sent
      ensures db.Valid()
      ensures answer == AnswerOf(Obstacle(old(db.Rows()), CloseByUser(c, user, redis.now)))
      ensures if answer == Done then Written(old(db.Rows()), CloseByUser(c, user, redis.now), db.Rows()) else db.Rows() == old(db.Rows())
      ensures answer == AnswerOf(Verdict(old(db.Rows()), CloseByUser(c, user, redis.now)))
      ensures gateway.World() == After(old(gateway.World()), Call(CloseByUser(c, user, redis.now)))
      ensures gateway.sent == old(gateway.sent) + Heard(old(gateway.World()), Call(CloseByUser(c, user, redis.now)))
    {
      HandledAsPromised(db.Rows(), CloseByUser(c, user, redis.now));
      if c in db.sessions && db.sessions[c].userId == user && db.sessions[c].status != CLOSED {
        db.sessions := db.sessions[c := db.sessions[c].(status := CLOSED, closedAt := Some(redis.now))];
        NamedPair(db.sessions[c].assignee, None);
        gateway.EmitCard(CallClosed, c, db.sessions[c], [db.sessions[c].assignee]);
        gateway.EmitPoolRemoved(c);
        assert gateway.sent == old(gateway.sent) + EventsOf(old(db.Rows()), CloseByUser(c, user, redis.now));
        return Done;
      }
      if c !in db.sessions { return Refused(SessionNotFound); }
      if db.sessions[c].userId != user { return Refused(NotYourSession); }
      return Refused(SessionAlreadyClosed);
    }
  }
}
