/** Personal subscriptions: the hourly clean-up changes nobody's right to raise an SOS. */
module Subscription {
  import opened Rows

  const APPROVAL_MS: nat := 30 * 24 * 60 * 60 * 1000

  datatype Sub = Sub(active: bool, expires: Option<Time>)

  type Subs = map<UserId, Sub>

  /** A subscription without an expiry date never lapses. */
  predicate IsSubscribed(sub: Option<Sub>, now: Time) {
    sub.Some? && sub.value.active && (sub.value.expires == None || sub.value.expires.value > now)
  }

  function Lookup(subs: Subs, u: UserId): Option<Sub> {
    if u in subs then Some(subs[u]) else None
  }

  datatype Event =
    | Approve(user: UserId, until: Option<Time>)  // None: thirty days from now
    | ActivateDemo(user: UserId)
    | DeleteAccount(user: UserId)
    | CleanUp
    | Pass(ms: nat)

  datatype State = State(now: Time, subs: Subs)

  /** The flag the clean-up puts out: active, with a date in the past. */
  predicate Lapsed(sub: Sub, now: Time) {
    sub.active && sub.expires.Some? && sub.expires.value < now
  }

  function AfterEvent(s: State, e: Event): State {
    match e
    case Approve(u, until) =>
      var expiresAt := if until.Some? then until.value else s.now + APPROVAL_MS;
      if expiresAt <= s.now || u !in s.subs then s else s.(subs := s.subs[u := Sub(true, Some(expiresAt))])
    case ActivateDemo(u) => if u in s.subs then s.(subs := s.subs[u := s.subs[u].(active := true)]) else s
    case DeleteAccount(u) => if u in s.subs then s.(subs := s.subs[u := Sub(false, None)]) else s
    case CleanUp => s.(subs := map u | u in s.subs :: if Lapsed(s.subs[u], s.now) then s.subs[u].(active := false) else s.subs[u])
    case Pass(ms) => s.(now := s.now + ms)
  }

  function AfterAll(s: State, events: seq<Event>): State
    decreases |events|
  {
    if events == [] then s else AfterAll(AfterEvent(s, events[0]), events[1..])
  }

  function WithoutCleanUps(events: seq<Event>): seq<Event> {
    if events == [] then [] else (if events[0].CleanUp? then [] else [events[0]]) + WithoutCleanUps(events[1..])
  }

  /** The same but for flags of lapsed subscriptions, which `cleaned` may have put out. */
  predicate Alike(kept: State, cleaned: State) {
    && kept.now == cleaned.now && kept.subs.Keys == cleaned.subs.Keys
    && forall u :: u in kept.subs ==>
         (kept.subs[u] == cleaned.subs[u] || (Lapsed(kept.subs[u], kept.now) && cleaned.subs[u] == kept.subs[u].(active := false)))
  }

  lemma AlikeStays(kept: State, cleaned: State, e: Event)
    requires Alike(kept, cleaned)
    ensures if e.CleanUp? then Alike(kept, AfterEvent(cleaned, e)) else Alike(AfterEvent(kept, e), AfterEvent(cleaned, e))
  {}

  /** A run with clean-ups at any moments and the same run without them agree at the end, so at every
      instant, on who may raise a personal SOS. */
  lemma {:induction false} CleanUpIsInvisible(kept: State, cleaned: State, events: seq<Event>, u: UserId)
    requires Alike(kept, cleaned)
    ensures Alike(AfterAll(kept, WithoutCleanUps(events)), AfterAll(cleaned, events))
    ensures var a := AfterAll(kept, WithoutCleanUps(events));
            var b := AfterAll(cleaned, events);
            IsSubscribed(Lookup(a.subs, u), a.now) <==> IsSubscribed(Lookup(b.subs, u), b.now)
    decreases |events|
  {
    if events != [] {
      AlikeStays(kept, cleaned, events[0]);
      if events[0].CleanUp? {
        assert [] + WithoutCleanUps(events[1..]) == WithoutCleanUps(events[1..]);
        CleanUpIsInvisible(kept, AfterEvent(cleaned, events[0]), events[1..], u);
      } else {
        assert ([events[0]] + WithoutCleanUps(events[1..]))[1..] == WithoutCleanUps(events[1..]);
        CleanUpIsInvisible(AfterEvent(kept, events[0]), AfterEvent(cleaned, events[0]), events[1..], u);
      }
    }
  }

  datatype Refusal = SubscriptionRequired | SubscriptionExpired

  function RefusalCode(sub: Option<Sub>): Refusal {
    if sub.Some? && sub.value.active && sub.value.expires.Some? then SubscriptionExpired else SubscriptionRequired
  }

  /** Only the code of a refusal can differ, and it does exactly when a clean-up has put out the flag. */
  lemma OnlyTheCodeDiffers(kept: State, cleaned: State, u: UserId)
    requires Alike(kept, cleaned) && u in kept.subs && !IsSubscribed(Lookup(kept.subs, u), kept.now)
    ensures RefusalCode(Lookup(kept.subs, u)) != RefusalCode(Lookup(cleaned.subs, u)) <==> kept.subs[u] != cleaned.subs[u]
    ensures kept.subs[u] != cleaned.subs[u] ==> RefusalCode(Lookup(kept.subs, u)) == SubscriptionExpired
  {}

  /** A demo activation admits its user exactly if no past expiry date is left in the row. */
  lemma DemoDoesNotRevive(s: State, u: UserId)
    requires u in s.subs
    ensures var s' := AfterEvent(s, ActivateDemo(u));
            IsSubscribed(Lookup(s'.subs, u), s'.now) <==> !(s.subs[u].expires.Some? && s.subs[u].expires.value <= s.now)
  {}
}
