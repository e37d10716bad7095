/** The Redis keys the protocol uses: token leases and expiring heartbeats. */
module Redis {
  import opened Rows
  import opened Presence

  datatype Key = SosTrigger(user: UserId) | StaleAssignments | ExpireSubscriptions | Heartbeat(operator: UserId)

  type Token = nat

  datatype Entry = Lease(token: Token, expiresAt: Time) | Beat(raw: string, expiresAt: Time)

  type Store = map<Key, Entry>

  /** The key is set and its time to live has not run out. */
  predicate Live(store: Store, key: Key, now: Time) {
    key in store && now < store[key].expiresAt
  }

  /** SET key token EX ttl NX. */
  function SetIfAbsent(store: Store, key: Key, token: Token, ttl: nat, now: Time): Store {
    if Live(store, key, now) then store else store[key := Lease(token, now + ttl * 1000)]
  }

  predicate Owns(store: Store, key: Key, token: Token, now: Time) {
    Live(store, key, now) && store[key].Lease? && store[key].token == token
  }

  /** The compare-and-delete script. */
  function DeleteIfOwned(store: Store, key: Key, token: Token, now: Time): Store {
    if Owns(store, key, token, now) then map k | k in store && k != key :: store[k] else store
  }

  function RawHeartbeat(store: Store, operator: UserId, now: Time): Option<string> {
    var key := Heartbeat(operator);
    if Live(store, key, now) && store[key].Beat? then Some(store[key].raw) else None
  }

  /** Freshness judged from a map of last beats that never expires. */
  predicate FreshForever(beats: map<UserId, Time>, operator: UserId, threshold: nat, now: Time) {
    operator in beats && now < beats[operator] + threshold
  }

  /** The expiring keys follow the eternal map: a key that is gone held a beat older than its TTL. */
  ghost predicate Follows(store: Store, beats: map<UserId, Time>) {
    && (forall o :: o in beats ==>
          && Heartbeat(o) in store
          && store[Heartbeat(o)].Beat?
          && store[Heartbeat(o)].raw == ToDecimal(beats[o])
          && beats[o] + TTL_MS <= store[Heartbeat(o)].expiresAt)
    && (forall o :: Heartbeat(o) in store ==> o in beats)
  }

  /** For every threshold up to the TTL the expiring key and the eternal map agree, at all times. */
  lemma ExpiryNeverMatters(store: Store, beats: map<UserId, Time>, o: UserId, threshold: nat, now: Time)
    requires Follows(store, beats) && threshold <= 300_000
    ensures IsHeartbeatFresh(RawHeartbeat(store, o, now), threshold, now) <==> FreshForever(beats, o, threshold, now)
  {
    if o in beats { HeartbeatRoundTrip(beats[o]); }
  }

  /** Beyond the TTL the expiring key can only be more pessimistic, and it is so exactly once the key is gone. */
  lemma BeyondTheTtl(store: Store, beats: map<UserId, Time>, o: UserId, threshold: nat, now: Time)
    requires Follows(store, beats) && FreshForever(beats, o, threshold, now)
    ensures IsHeartbeatFresh(RawHeartbeat(store, o, now), threshold, now) <==> now < store[Heartbeat(o)].expiresAt
  {
    HeartbeatRoundTrip(beats[o]);
  }

  /** What a process hears of its request: the answer, an error, or an error although the request was carried out. */
  datatype Reply = Answers | Fails | ReplyLost

  /** One Redis server with the clock the processes share. */
  class RedisService {
    var store: Store
    var now: Time
    ghost var beats: map<UserId, Time>
    var nextToken: Token

    ghost predicate Valid()
      reads this
    {
      && Follows(store, beats)
      && (forall k :: k in store && store[k].Lease? ==> store[k].token < nextToken)
    }

    constructor (start: Time)
      ensures Valid() && store == map[] && beats == map[] && now == start
    {
      store, now, beats, nextToken := map[], start, map[], 0;
    }

    method AcquireLock(key: Key, ttl: nat) returns (token: Option<Token>)
      requires Valid() && !key.Heartbeat?
      modifies this`store, this`nextToken
      ensures Valid()
      ensures token == if Live(old(store), key, now) then None else Some(old(nextToken))
      ensures store == SetIfAbsent(old(store), key, old(nextToken), ttl, now)
      ensures token.Some? && ttl > 0 ==> Owns(store, key, token.value, now)
      ensures token.Some? ==> forall t: Time :: t >= now ==> (Owns(store, key, token.value, t) <==> t < now + 1000 * ttl)
      ensures nextToken == old(nextToken) + 1
    {
      var uuid := nextToken;
      nextToken := nextToken + 1;
      if Live(store, key, now) {
        token := None;
      } else {
        store := store[key := Lease(uuid, now + ttl * 1000)];
        token := Some(uuid);
      }
    }

    /** A release never touches a lock that another token holds. */
    method ReleaseLock(key: Key, token: Token)
      requires Valid() && !key.Heartbeat?
      modifies this`store
      ensures Valid()
      ensures store == DeleteIfOwned(old(store), key, token, now)
      ensures forall k, t :: t != token && Owns(old(store), k, t, now) ==> Owns(store, k, t, now)
      ensures !Owns(store, key, token, now)
    {
      if Live(store, key, now) && store[key].Lease? && store[key].token == token {
        store := map k | k in store && k != key :: store[k];
      }
    }

    /** The value is the time read before the SET, which lands `delay` later. */
    method SetOperatorHeartbeat(operator: UserId, delay: nat)
      requires Valid()
      modifies this`store, this`now, this`beats
      ensures Valid()
      ensures now == old(now) + delay && beats == old(beats)[operator := old(now)]
      ensures Live(store, Heartbeat(operator), now) && store[Heartbeat(operator)].expiresAt == now + 300_000
      ensures forall k :: k != Heartbeat(operator) ==> (k in store <==> k in old(store)) && (k in store ==> store[k] == old(store)[k])
    {
      var raw := ToDecimal(now);
      beats := beats[operator := now];
      now := now + delay;
      store := store[Heartbeat(operator) := Beat(raw, now + TTL_MS)];
    }

    method GetOperatorHeartbeat(operator: UserId) returns (raw: Option<string>)
      requires Valid()
      ensures raw == RawHeartbeat(store, operator, now)
      ensures forall threshold :: 0 <= threshold <= 300_000 ==>
                (IsHeartbeatFresh(raw, threshold, now) <==> FreshForever(beats, operator, threshold, now))
    {
      raw := RawHeartbeat(store, operator, now);
      forall threshold | 0 <= threshold <= 300_000
        ensures IsHeartbeatFresh(raw, threshold, now) <==> FreshForever(beats, operator, threshold, now)
      {
        ExpiryNeverMatters(store, beats, operator, threshold, now);
      }
    }

    /** MGET over a list, parsed into a map; ids whose key is gone or unreadable are absent. */
    method GetOperatorHeartbeats(operators: seq<UserId>) returns (result: map<UserId, Time>)
      requires Valid()
      ensures forall o :: o in result <==> o in operators && Live(store, Heartbeat(o), now)
      ensures forall o :: o in result ==> o in beats && result[o] == beats[o]
      ensures forall o :: o in operators && o in beats && now < beats[o] + 300_000 ==> o in result
    {
      result := map[];
      var i := 0;
      while i < |operators|
        invariant 0 <= i <= |operators|
        invariant forall o :: o in result <==> o in operators[..i] && Live(store, Heartbeat(o), now)
        invariant forall o :: o in result ==> o in beats && result[o] == beats[o]
      {
        var id := operators[i];
        var ts := ParseHeartbeat(RawHeartbeat(store, id, now));
        if id in beats { HeartbeatRoundTrip(beats[id]); }
        if ts.Some? {
          result := result[id := ts.value];
        }
        i := i + 1;
      }
    }
  }

  /** The batch read decides "silent for so long" as the eternal map does. */
  lemma BatchAgrees(beats: map<UserId, Time>, result: map<UserId, Time>, o: UserId, threshold: nat, now: Time)
    requires o in result ==> o in beats && result[o] == beats[o]
    requires o in beats && now < beats[o] + TTL_MS ==> o in result
    requires threshold <= TTL_MS
    ensures (o !in result || now - result[o] >= threshold) <==> !FreshForever(beats, o, threshold, now)
  {}
}
