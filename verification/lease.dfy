/** Simultaneous SOS triggers: what the Redis lease guarantees, and what holds without it. */
module Lease {
  import opened Rows
  import opened Redis

  const SOS_TRIGGER_LOCK_TTL_SECONDS: nat := 30

  type ProcId = nat

  datatype Answer = Existing(session: SessionId) | Created(session: SessionId) | InProgress | NotEntitled

  /** Where one call of startSession stands. */
  datatype Pc =
    | Arrived
    | Blocked                  // the lock was taken
    | Entered                  // has the lease, or Redis failed
    | FoundNone                // read no open call of the user
    | Leaving(answer: Answer)  // the lock is to be released
    | Answered(answer: Answer)

  /** `until` is the end of the lease the process was given, `checkedAt` the step at which it read that
      the user has no open call. */
  datatype Proc = Proc(user: UserId, pc: Pc, token: Option<Token>, until: Time, redisFailed: bool, checkedAt: nat)

  /** A raised call, with the steps of the check and of the insert that made it. */
  datatype Alarm = Alarm(user: UserId, open: bool, checkedAt: nat, createdAt: nat)

  datatype State = State(now: Time, step: nat, store: Store, procs: seq<Proc>, alarms: map<SessionId, Alarm>)

  datatype Label =
    | Arrive(user: UserId)
    | Acquire(p: ProcId)
    | AcquireFails(p: ProcId, applied: bool)  // `applied`: the key is set all the same, the reply is lost
    | Peek(p: ProcId)
    | Check(p: ProcId)
    | Refuse(p: ProcId)
    | Create(p: ProcId, session: SessionId)
    | Release(p: ProcId)
    | ReleaseFails(p: ProcId)
    | Close(session: SessionId)
    | Pass(ms: nat)

  predicate OpenFor(s: State, a: SessionId, u: UserId) {
    a in s.alarms && s.alarms[a].open && s.alarms[a].user == u
  }

  predicate Can(s: State, l: Label) {
    match l
    case Arrive(_) => true
    case Acquire(p) => p < |s.procs| && s.procs[p].pc == Arrived
    case AcquireFails(p, _) => p < |s.procs| && s.procs[p].pc == Arrived
    case Peek(p) => p < |s.procs| && s.procs[p].pc == Blocked
    case Check(p) => p < |s.procs| && s.procs[p].pc == Entered
    case Refuse(p) => p < |s.procs| && s.procs[p].pc == FoundNone
    case Create(p, a) => p < |s.procs| && s.procs[p].pc == FoundNone && a !in s.alarms
    case Release(p) => p < |s.procs| && s.procs[p].pc.Leaving?
    case ReleaseFails(p) => p < |s.procs| && s.procs[p].pc.Leaving?
    case Close(a) => a in s.alarms
    case Pass(_) => true
  }

  function With(s: State, p: ProcId, x: Proc): State
    requires p < |s.procs|
  {
    s.(procs := s.procs[p := x])
  }

  ghost predicate Reads(s: State, u: UserId, found: Option<SessionId>) {
    if found.Some? then OpenFor(s, found.value, u) else forall a :: !OpenFor(s, a, u)
  }

  /** The step leads from `s` to `s'`; a read returns any open call of the user, if there is one. */
  ghost predicate Takes(s: State, l: Label, s': State) {
    Can(s, l) && Counted(s', s.step + 1) &&
    var t := s'.(step := s.step);
    match l
    case Arrive(u) => t == s.(procs := s.procs + [Proc(u, Arrived, None, 0, false, 0)])
    case Acquire(p) =>
      var x := s.procs[p];
      var key := SosTrigger(x.user);
      if Live(s.store, key, s.now) then t == With(s, p, x.(pc := Blocked))
      else t == With(s, p, x.(pc := Entered, token := Some(p), until := s.now + SOS_TRIGGER_LOCK_TTL_SECONDS * 1000)).(
                  store := SetIfAbsent(s.store, key, p, SOS_TRIGGER_LOCK_TTL_SECONDS, s.now))
    case AcquireFails(p, applied) =>
      t == With(s, p, s.procs[p].(pc := Entered, redisFailed := true)).(store :=
        if applied then SetIfAbsent(s.store, SosTrigger(s.procs[p].user), p, SOS_TRIGGER_LOCK_TTL_SECONDS, s.now) else s.store)
    case Peek(p) =>
      exists found :: Reads(s, s.procs[p].user, found) &&
        t == With(s, p, s.procs[p].(pc := Answered(if found.Some? then Existing(found.value) else InProgress)))
    case Check(p) =>
      exists found :: Reads(s, s.procs[p].user, found) &&
        t == With(s, p, s.procs[p].(pc := if found.Some? then Leaving(Existing(found.value)) else FoundNone, checkedAt := s.step))
    case Refuse(p) => t == With(s, p, s.procs[p].(pc := Leaving(NotEntitled)))
    case Create(p, a) =>
      t == With(s, p, s.procs[p].(pc := Leaving(Created(a)))).(alarms := s.alarms[a := Alarm(s.procs[p].user, true, s.procs[p].checkedAt, s.step)])
    case Release(p) =>
      var x := s.procs[p];
      t == With(s, p, x.(pc := Answered(x.pc.answer))).(store :=
        if x.token.Some? then DeleteIfOwned(s.store, SosTrigger(x.user), x.token.value, s.now) else s.store)
    case ReleaseFails(p) => t == With(s, p, s.procs[p].(pc := Answered(s.procs[p].pc.answer)))
    case Close(a) => t == s.(alarms := s.alarms[a := s.alarms[a].(open := false)])
    case Pass(ms) => t == s.(now := s.now + ms)
  }

  predicate Counted(s: State, step: nat) { s.step == step }

  ghost predicate Run(s: State, labels: seq<Label>, s': State)
    decreases |labels|
  {
    if labels == [] then s' == s
    else exists m :: Takes(s, labels[0], m) && Run(m, labels[1..], s')
  }

  predicate Fresh(s: State) {
    s.procs == [] && s.alarms == map[] && s.store == map[]
  }

  predicate InCriticalSection(x: Proc) {
    x.pc == Entered || x.pc == FoundNone
  }

  // ---- With the lease ----

  /** Every process in the critical section still owns its user's lease. */
  predicate LeasesHold(s: State) {
    forall p :: 0 <= p < |s.procs| && InCriticalSection(s.procs[p]) ==>
      HasLease(s, p)
  }

  predicate HasLease(s: State, p: ProcId)
    requires p < |s.procs|
  {
    var key := SosTrigger(s.procs[p].user);
    s.procs[p].token == Some(p) && Owns(s.store, key, p, s.now) && s.store[key].expiresAt == s.procs[p].until
  }

  ghost predicate AtMostOneOpenEach(s: State) {
    forall a, b, u :: OpenFor(s, a, u) && OpenFor(s, b, u) ==> a == b
  }

  ghost predicate Exclusive(s: State) {
    && LeasesHold(s)
    && (forall p :: 0 <= p < |s.procs| && s.procs[p].token.Some? ==> s.procs[p].token == Some(p))
    && (forall p, a :: 0 <= p < |s.procs| && s.procs[p].pc == FoundNone ==> !OpenFor(s, a, s.procs[p].user))
    && AtMostOneOpenEach(s)
  }

  ghost predicate AtMostOneInsideEach(s: State) {
    forall p, q ::
      0 <= p < |s.procs| && 0 <= q < |s.procs| && InCriticalSection(s.procs[p]) && InCriticalSection(s.procs[q]) && s.procs[p].user == s.procs[q].user
      ==> p == q
  }

  lemma OneInCriticalSection(s: State, p: ProcId, q: ProcId)
    requires LeasesHold(s) && p < |s.procs| && q < |s.procs|
    requires InCriticalSection(s.procs[p]) && InCriticalSection(s.procs[q]) && s.procs[p].user == s.procs[q].user
    ensures p == q
  {}

  /** Redis answers when asked for a lease, and every process leaves the critical section within its 30 s. */
  ghost predicate Healthy(s: State, l: Label, s': State) {
    && Takes(s, l, s') && !l.AcquireFails?
    && (l.Pass? ==> forall p :: 0 <= p < |s'.procs| && InCriticalSection(s'.procs[p]) ==> s'.now < s'.procs[p].until)
  }

  ghost predicate HealthyRun(s: State, labels: seq<Label>, s': State)
    decreases |labels|
  {
    if labels == [] then s' == s
    else exists m :: Healthy(s, labels[0], m) && HealthyRun(m, labels[1..], s')
  }

  lemma LeasesStay(s: State, l: Label, s': State)
    requires Exclusive(s) && Healthy(s, l, s')
    ensures LeasesHold(s')
    ensures forall p :: 0 <= p < |s'.procs| && s'.procs[p].token.Some? ==> s'.procs[p].token == Some(p)
  {
    forall p | 0 <= p < |s'.procs| && InCriticalSection(s'.procs[p])
      ensures HasLease(s', p)
    {
      if p < |s.procs| && InCriticalSection(s.procs[p]) { assert HasLease(s, p); }
    }
  }

  /** A call that is open after a step was open before it, unless the step has just created it. */
  lemma OpenBefore(s: State, l: Label, s': State, a: SessionId, u: UserId)
    requires Takes(s, l, s') && OpenFor(s', a, u)
    ensures (l.Create? && l.session == a && s.procs[l.p].user == u && s'.alarms[a] == Alarm(u, true, s.procs[l.p].checkedAt, s.step))
         || (OpenFor(s, a, u) && s'.alarms[a] == s.alarms[a])
  {}

  lemma ChecksStayTrue(s: State, l: Label, s': State, p: ProcId, a: SessionId)
    requires Exclusive(s) && Healthy(s, l, s') && p < |s'.procs| && s'.procs[p].pc == FoundNone
    ensures !OpenFor(s', a, s'.procs[p].user)
  {
    if OpenFor(s', a, s'.procs[p].user) {
      OpenBefore(s, l, s', a, s'.procs[p].user);
      if l.Create? && l.p != p { OneInCriticalSection(s, p, l.p); }
    }
  }

  lemma HealthyStepKeepsExclusive(s: State, l: Label, s': State)
    requires Exclusive(s) && Healthy(s, l, s')
    ensures Exclusive(s')
  {
    LeasesStay(s, l, s');
    forall p, a | 0 <= p < |s'.procs| && s'.procs[p].pc == FoundNone ensures !OpenFor(s', a, s'.procs[p].user) {
      ChecksStayTrue(s, l, s', p, a);
    }
    forall a, b, u | OpenFor(s', a, u) && OpenFor(s', b, u) ensures a == b {
      OpenBefore(s, l, s', a, u);
      OpenBefore(s, l, s', b, u);
    }
  }

  lemma {:induction false} StaysExclusive(s: State, labels: seq<Label>, s': State)
    requires Exclusive(s) && HealthyRun(s, labels, s')
    ensures Exclusive(s')
    decreases |labels|
  {
    if labels != [] {
      var m :| Healthy(s, labels[0], m) && HealthyRun(m, labels[1..], s');
      HealthyStepKeepsExclusive(s, labels[0], m);
      StaysExclusive(m, labels[1..], s');
    }
  }

  /** In every healthy interleaving one process per user is in the critical section, and every user
      has at most one open call. */
  lemma OneOpenCallPerUser(s: State, labels: seq<Label>, s': State)
    requires Fresh(s) && HealthyRun(s, labels, s')
    ensures AtMostOneOpenEach(s') && AtMostOneInsideEach(s')
  {
    FreshStart(s);
    StaysExclusive(s, labels, s');
  }

  // ---- With or without it ----

  /** The check of each came before the insert of the other. */
  predicate Overlap(a: Alarm, b: Alarm) {
    a.checkedAt < b.createdAt && b.checkedAt < a.createdAt
  }

  /** A process for which Redis failed goes on without a lease and is never told to wait. */
  predicate FailureIsNoRefusal(x: Proc) {
    && (x.redisFailed ==> x.token == None && x.pc != Arrived && x.pc != Blocked && x.pc != Answered(InProgress))
    && x.pc != Leaving(InProgress)
    && (x.pc == Arrived ==> x.token == None)
  }

  ghost predicate Windows(s: State) {
    && (forall a :: a in s.alarms ==> s.alarms[a].checkedAt < s.alarms[a].createdAt < s.step)
    && (forall p :: 0 <= p < |s.procs| && s.procs[p].pc == FoundNone ==> s.procs[p].checkedAt < s.step)
    && (forall p, a :: 0 <= p < |s.procs| && s.procs[p].pc == FoundNone && OpenFor(s, a, s.procs[p].user) ==>
          s.procs[p].checkedAt < s.alarms[a].createdAt)
    && (forall a, b, u :: OpenFor(s, a, u) && OpenFor(s, b, u) && a != b ==> Overlap(s.alarms[a], s.alarms[b]))
    && (forall p :: 0 <= p < |s.procs| ==> FailureIsNoRefusal(s.procs[p]))
  }

  lemma ProcsKeepWindows(s: State, l: Label, s': State, p: ProcId)
    requires Windows(s) && Takes(s, l, s') && p < |s'.procs|
    ensures s'.procs[p].pc == FoundNone ==> s'.procs[p].checkedAt < s'.step
    ensures forall a :: s'.procs[p].pc == FoundNone && OpenFor(s', a, s'.procs[p].user) ==> s'.procs[p].checkedAt < s'.alarms[a].createdAt
  {
    forall a | s'.procs[p].pc == FoundNone && OpenFor(s', a, s'.procs[p].user)
      ensures s'.procs[p].checkedAt < s'.alarms[a].createdAt
    {
      OpenBefore(s, l, s', a, s'.procs[p].user);
    }
  }

  lemma AlarmsKeepWindows(s: State, l: Label, s': State, a: SessionId, b: SessionId, u: UserId)
    requires Windows(s) && Takes(s, l, s') && OpenFor(s', a, u) && OpenFor(s', b, u) && a != b
    ensures Overlap(s'.alarms[a], s'.alarms[b])
  {
    OpenBefore(s, l, s', a, u);
    OpenBefore(s, l, s', b, u);
  }

  lemma StepKeepsWindows(s: State, l: Label, s': State)
    requires Windows(s) && Takes(s, l, s')
    ensures Windows(s')
  {
    forall p, a | 0 <= p < |s'.procs| && s'.procs[p].pc == FoundNone && OpenFor(s', a, s'.procs[p].user)
      ensures s'.procs[p].checkedAt < s'.alarms[a].createdAt
    {
      ProcsKeepWindows(s, l, s', p);
    }
    forall p | 0 <= p < |s'.procs| && s'.procs[p].pc == FoundNone ensures s'.procs[p].checkedAt < s'.step {
      ProcsKeepWindows(s, l, s', p);
    }
    forall a, b, u | OpenFor(s', a, u) && OpenFor(s', b, u) && a != b ensures Overlap(s'.alarms[a], s'.alarms[b]) {
      AlarmsKeepWindows(s, l, s', a, b, u);
    }
    forall p | 0 <= p < |s'.procs| ensures FailureIsNoRefusal(s'.procs[p]) {
      FailedNeverBlocked(s, l, s', p);
    }
  }

  lemma FailedNeverBlocked(s: State, l: Label, s': State, p: ProcId)
    requires Windows(s) && Takes(s, l, s') && p < |s'.procs|
    ensures FailureIsNoRefusal(s'.procs[p])
  {}

  lemma {:induction false} StaysInWindows(s: State, labels: seq<Label>, s': State)
    requires Windows(s) && Run(s, labels, s')
    ensures Windows(s')
    decreases |labels|
  {
    if labels != [] {
      var m :| Takes(s, labels[0], m) && Run(m, labels[1..], s');
      StepKeepsWindows(s, labels[0], m);
      StaysInWindows(m, labels[1..], s');
    }
  }

  /** In every interleaving at all, Redis failing and leases lapsing as they may: two open calls of one
      user come only from triggers whose check-to-insert windows overlap, and a process whose own request
      for the lease failed is never answered "already being processed". */
  lemma DuplicatesNeedOverlap(s: State, labels: seq<Label>, s': State)
    requires Fresh(s) && Run(s, labels, s')
    ensures forall a, b, u :: OpenFor(s', a, u) && OpenFor(s', b, u) && a != b ==> Overlap(s'.alarms[a], s'.alarms[b])
    ensures forall p :: 0 <= p < |s'.procs| && s'.procs[p].redisFailed ==> s'.procs[p].pc != Blocked && s'.procs[p].pc != Answered(InProgress)
  {
    FreshStart(s);
    StaysInWindows(s, labels, s');
  }

  lemma FreshStart(s: State)
    requires Fresh(s)
    ensures Exclusive(s) && Windows(s)
  {}

  // ---- Who stands in the way of a trigger ----

  predicate Works(x: Proc, u: UserId) {
    x.user == u && (x.pc == Entered || x.pc == FoundNone || x.pc.Leaving?)
  }

  ghost predicate NobodyWorks(s: State, u: UserId) {
    forall p :: 0 <= p < |s.procs| ==> !Works(s.procs[p], u)
  }

  /** The release of the process failed, or the reply to its request for the lease was lost. */
  predicate LeftBehind(labels: set<Label>, p: ProcId) {
    ReleaseFails(p) in labels || AcquireFails(p, true) in labels
  }

  function Seen(labels: seq<Label>): set<Label> {
    set l | l in labels
  }

  /** The user's lease, if there is one, is of a process of his; if that process is done and the lease
      still lives, it was left behind. */
  predicate LeaseKnown(s: State, done: set<Label>, u: UserId) {
    SosTrigger(u) in s.store ==>
      && s.store[SosTrigger(u)].Lease?
      && s.store[SosTrigger(u)].expiresAt <= s.now + SOS_TRIGGER_LOCK_TTL_SECONDS * 1000
      && var p := s.store[SosTrigger(u)].token;
         && p < |s.procs| && s.procs[p].user == u && s.procs[p].pc != Arrived && s.procs[p].pc != Blocked
         && (s.procs[p].token == None ==> LeftBehind(done, p))
         && (s.procs[p].token.Some? ==> s.procs[p].token == Some(p))
         && (s.procs[p].pc.Answered? && Live(s.store, SosTrigger(u), s.now) ==> LeftBehind(done, p))
  }

  /** A process at work whose request was answered owns the lease until its time is up. */
  predicate WorkerLeased(s: State, p: ProcId)
    requires p < |s.procs|
  {
    Works(s.procs[p], s.procs[p].user) && !s.procs[p].redisFailed && s.now < s.procs[p].until ==> HasLease(s, p)
  }

  /** Whoever was given a lease has his own number as the token. */
  ghost predicate WorkersLeased(s: State) {
    && (forall p :: 0 <= p < |s.procs| ==> WorkerLeased(s, p))
    && (forall p :: 0 <= p < |s.procs| && s.procs[p].token.Some? ==> s.procs[p].token == Some(p))
    && (forall p :: 0 <= p < |s.procs| && s.procs[p].pc == Arrived ==> s.procs[p].token == None)
  }

  lemma WorkerStaysLeased(s: State, l: Label, s': State, p: ProcId)
    requires WorkersLeased(s) && Takes(s, l, s') && p < |s'.procs|
    ensures WorkerLeased(s', p)
  {
    if p < |s.procs| { assert WorkerLeased(s, p); }
  }

  lemma StepKeepsWorkersLeased(s: State, l: Label, s': State)
    requires WorkersLeased(s) && Takes(s, l, s')
    ensures WorkersLeased(s')
  {
    forall p | 0 <= p < |s'.procs| ensures WorkerLeased(s', p) { WorkerStaysLeased(s, l, s', p); }
  }

  lemma {:induction false} WorkersStayLeased(s: State, labels: seq<Label>, s': State)
    requires WorkersLeased(s) && Run(s, labels, s')
    ensures WorkersLeased(s')
    decreases |labels|
  {
    if labels != [] {
      var m :| Takes(s, labels[0], m) && Run(m, labels[1..], s');
      StepKeepsWorkersLeased(s, labels[0], m);
      WorkersStayLeased(m, labels[1..], s');
    }
  }

  lemma LeaseStaysKnown(s: State, l: Label, s': State, done: set<Label>, u: UserId)
    requires Windows(s) && LeaseKnown(s, done, u) && Takes(s, l, s')
    ensures LeaseKnown(s', done + {l}, u)
  {}

  lemma SeenSplit(done: set<Label>, labels: seq<Label>)
    requires labels != []
    ensures done + {labels[0]} + Seen(labels[1..]) == done + Seen(labels)
  {
    assert labels == [labels[0]] + labels[1..];
  }

  lemma {:induction false} LeasesStayKnown(s: State, labels: seq<Label>, s': State, done: set<Label>, u: UserId)
    requires Windows(s) && LeaseKnown(s, done, u) && Run(s, labels, s')
    ensures LeaseKnown(s', done + Seen(labels), u)
    decreases |labels|
  {
    if labels == [] {
      assert done + Seen(labels) == done;
    } else {
      var m :| Takes(s, labels[0], m) && Run(m, labels[1..], s');
      StepKeepsWindows(s, labels[0], m);
      LeaseStaysKnown(s, labels[0], m, done, u);
      LeasesStayKnown(m, labels[1..], s', done + {labels[0]}, u);
      SeenSplit(done, labels);
    }
  }

  /** A trigger that asks Redis is held up exactly while a lease of its user lives. */
  lemma BlockedIffLeased(s: State, p: ProcId, s': State)
    requires Takes(s, Acquire(p), s')
    ensures s'.procs[p].pc == Blocked <==> Live(s.store, SosTrigger(s.procs[p].user), s.now)
  {}

  /** While a lease of the user lives, nobody works on his behalf exactly if the process the lease was
      given to is done and no process at work went without an answer or has outlived its own lease. The
      lease was then left behind by a failed release or a lost reply, and lives for 30 s at most. */
  lemma NobodyInTheWayIff(s: State, labels: seq<Label>, s': State, u: UserId)
    requires Fresh(s) && Run(s, labels, s') && Live(s'.store, SosTrigger(u), s'.now)
    ensures s'.store[SosTrigger(u)].Lease?
    ensures var key := SosTrigger(u);
            var p := s'.store[key].token;
            && p < |s'.procs| && s'.procs[p].user == u
            && (NobodyWorks(s', u) <==>
                  s'.procs[p].pc.Answered? && forall q :: 0 <= q < |s'.procs| && Works(s'.procs[q], u) ==> !s'.procs[q].redisFailed && s'.now < s'.procs[q].until)
            && (s'.procs[p].pc.Answered? ==> ReleaseFails(p) in labels || AcquireFails(p, true) in labels)
            && s'.store[key].expiresAt <= s'.now + 30_000
  {
    FreshStart(s);
    LeasesStayKnown(s, labels, s', {}, u);
    WorkersStayLeased(s, labels, s');
    assert {} + Seen(labels) == Seen(labels);
    var p := s'.store[SosTrigger(u)].token;
    if !s'.procs[p].pc.Answered? { assert Works(s'.procs[p], u); }
    forall q | 0 <= q < |s'.procs| && Works(s'.procs[q], u) && !s'.procs[q].redisFailed && s'.now < s'.procs[q].until ensures q == p {
      assert WorkerLeased(s', q);
    }
  }

  // ---- Witnesses ----

  const ANN: UserId := 1

  /** Two triggers of one user at the given stages, `step` steps into a run. */
  function Two(step: nat, now: Time, store: Store, x: Proc, y: Proc, alarms: map<SessionId, Alarm>): State {
    State(now, step, store, [x, y], alarms)
  }

  function Arriving(): Proc { Proc(ANN, Arrived, None, 0, false, 0) }

  function Unleased(pc: Pc): Proc { Proc(ANN, pc, None, 0, true, 0) }

  function Holder(pc: Pc, p: ProcId, until: Time): Proc { Proc(ANN, pc, Some(p), until, false, 0) }

  function LeaseOf(p: ProcId, until: Time): Store { map[SosTrigger(ANN) := Redis.Lease(p, until)] }

  lemma One(s: State, l: Label, m: State, labels: seq<Label>, s': State)
    requires Takes(s, l, m) && Run(m, labels, s')
    ensures Run(s, [l] + labels, s')
  {
    assert ([l] + labels)[0] == l && ([l] + labels)[1..] == labels;
  }

  /** Two calls, the check of each before the insert of the other. */
  function BothIn(step: nat): map<SessionId, Alarm> {
    map[10 := Alarm(ANN, true, step, step + 2), 11 := Alarm(ANN, true, step + 1, step + 3)]
  }

  lemma BothInsert(step: nat, now: Time, store: Store, x: Proc, y: Proc) returns (s': State)
    requires x.user == y.user == ANN && x.pc == y.pc == FoundNone && x.checkedAt == step && y.checkedAt == step + 1
    ensures Run(Two(step + 2, now, store, x, y, map[]), [Create(0, 10), Create(1, 11)], s') && s'.alarms == BothIn(step)
  {
    var m := Two(step + 3, now, store, x.(pc := Leaving(Created(10))), y, map[10 := Alarm(ANN, true, step, step + 2)]);
    s' := Two(step + 4, now, store, x.(pc := Leaving(Created(10))), y.(pc := Leaving(Created(11))), BothIn(step));
    assert Run(s', [], s');
    One(m, Create(1, 11), s', [], s');
    One(Two(step + 2, now, store, x, y, map[]), Create(0, 10), m, [Create(1, 11)], s');
    assert [Create(0, 10)] + [Create(1, 11)] == [Create(0, 10), Create(1, 11)];
  }

  lemma ReadNothing(s: State, p: ProcId, m: State)
    requires Can(s, Check(p)) && s.alarms == map[]
    requires m == With(s, p, s.procs[p].(pc := FoundNone, checkedAt := s.step)).(step := s.step + 1)
    ensures Takes(s, Check(p), m)
  {
    assert Reads(s, s.procs[p].user, None);
  }

  function ChecksAndInserts(): seq<Label> {
    [Check(0)] + ([Check(1)] + [Create(0, 10), Create(1, 11)])
  }

  /** Two processes that both got in check, one after the other, and then both insert. */
  lemma BothCheckAndInsert(step: nat, now: Time, store: Store, x: Proc, y: Proc) returns (s': State)
    requires x.user == y.user == ANN && x.pc == y.pc == Entered
    ensures Run(Two(step, now, store, x, y, map[]), ChecksAndInserts(), s') && s'.alarms == BothIn(step)
  {
    var x' := x.(pc := FoundNone, checkedAt := step);
    var y' := y.(pc := FoundNone, checkedAt := step + 1);
    var m := Two(step + 1, now, store, x', y, map[]);
    s' := BothInsert(step, now, store, x', y');
    ReadNothing(m, 1, Two(step + 2, now, store, x', y', map[]));
    One(m, Check(1), Two(step + 2, now, store, x', y', map[]), [Create(0, 10), Create(1, 11)], s');
    ReadNothing(Two(step, now, store, x, y, map[]), 0, m);
    One(Two(step, now, store, x, y, map[]), Check(0), m, [Check(1)] + [Create(0, 10), Create(1, 11)], s');
  }

  lemma BothAreOpen(s: State, step: nat)
    requires s.alarms == BothIn(step)
    ensures OpenFor(s, 10, ANN) && OpenFor(s, 11, ANN) && !AtMostOneOpenEach(s)
  {
    assert OpenFor(s, 10, ANN) && OpenFor(s, 11, ANN);
  }

  function Nothing(): State { State(0, 0, map[], [], map[]) }

  lemma FirstArrives(labels: seq<Label>, s': State)
    requires Run(State(0, 1, map[], [Arriving()], map[]), labels, s')
    ensures Run(Nothing(), [Arrive(ANN)] + labels, s')
  {
    One(Nothing(), Arrive(ANN), State(0, 1, map[], [Arriving()], map[]), labels, s');
  }

  lemma RedisDownBothEnter(labels: seq<Label>, s': State)
    requires Run(Two(4, 0, map[], Unleased(Entered), Unleased(Entered), map[]), labels, s')
    ensures Run(Two(2, 0, map[], Arriving(), Arriving(), map[]), [AcquireFails(0, false)] + ([AcquireFails(1, false)] + labels), s')
  {
    var s3 := Two(3, 0, map[], Unleased(Entered), Arriving(), map[]);
    One(s3, AcquireFails(1, false), Two(4, 0, map[], Unleased(Entered), Unleased(Entered), map[]), labels, s');
    One(Two(2, 0, map[], Arriving(), Arriving(), map[]), AcquireFails(0, false), s3, [AcquireFails(1, false)] + labels, s');
  }

  /** With Redis down for both, two simultaneous triggers of one user both raise a call. */
  lemma RedisDownTwoCalls() returns (s: State, labels: seq<Label>, s': State)
    ensures Fresh(s) && Run(s, labels, s')
    ensures OpenFor(s', 10, ANN) && OpenFor(s', 11, ANN) && !AtMostOneOpenEach(s')
  {
    s := Nothing();
    s' := BothCheckAndInsert(4, 0, map[], Unleased(Entered), Unleased(Entered));
    RedisDownBothEnter(ChecksAndInserts(), s');
    labels := [AcquireFails(0, false)] + ([AcquireFails(1, false)] + ChecksAndInserts());
    One(State(0, 1, map[], [Arriving()], map[]), Arrive(ANN), Two(2, 0, map[], Arriving(), Arriving(), map[]), labels, s');
    FirstArrives([Arrive(ANN)] + labels, s');
    labels := [Arrive(ANN)] + ([Arrive(ANN)] + labels);
    BothAreOpen(s', 4);
  }

  /** The first process has the lease. */
  function FirstWorks(): State {
    State(0, 2, LeaseOf(0, 30_000), [Holder(Entered, 0, 30_000)], map[])
  }

  lemma FirstAcquires(labels: seq<Label>, s': State)
    requires Run(FirstWorks(), labels, s')
    ensures Run(Nothing(), [Arrive(ANN)] + ([Acquire(0)] + labels), s')
  {
    var s1 := State(0, 1, map[], [Arriving()], map[]);
    assert SetIfAbsent(s1.store, SosTrigger(ANN), 0, SOS_TRIGGER_LOCK_TTL_SECONDS, 0) == LeaseOf(0, 30_000);
    One(s1, Acquire(0), FirstWorks(), labels, s');
    FirstArrives([Acquire(0)] + labels, s');
  }

  lemma LeaseLapses(labels: seq<Label>, s': State)
    requires Run(Two(5, 30_000, LeaseOf(1, 60_000), Holder(Entered, 0, 30_000), Holder(Entered, 1, 60_000), map[]), labels, s')
    ensures Run(FirstWorks(), [Arrive(ANN)] + ([Pass(30_000)] + ([Acquire(1)] + labels)), s')
  {
    var s3 := Two(3, 0, LeaseOf(0, 30_000), Holder(Entered, 0, 30_000), Arriving(), map[]);
    var s4 := s3.(step := 4, now := 30_000);
    var s5 := Two(5, 30_000, LeaseOf(1, 60_000), Holder(Entered, 0, 30_000), Holder(Entered, 1, 60_000), map[]);
    assert s5.store == s4.store[SosTrigger(ANN) := Redis.Lease(1, 60_000)];
    One(s4, Acquire(1), s5, labels, s');
    One(s3, Pass(30_000), s4, [Acquire(1)] + labels, s');
    One(FirstWorks(), Arrive(ANN), s3, [Pass(30_000)] + ([Acquire(1)] + labels), s');
  }

  function LapseLabels(): seq<Label> {
    [Arrive(ANN)] + ([Acquire(0)] + ([Arrive(ANN)] + ([Pass(30_000)] + ([Acquire(1)] + ChecksAndInserts()))))
  }

  lemma NothingFails()
    ensures forall i :: 0 <= i < |LapseLabels()| ==> !LapseLabels()[i].AcquireFails? && !LapseLabels()[i].ReleaseFails?
  {}

  /** A holder that works on past its 30 s shares the critical section with the next one: both raise a
      call, though Redis never fails. */
  lemma LapsedLeaseTwoCalls() returns (s: State, labels: seq<Label>, s': State)
    ensures Fresh(s) && Run(s, labels, s')
    ensures forall i :: 0 <= i < |labels| ==> !labels[i].AcquireFails? && !labels[i].ReleaseFails?
    ensures OpenFor(s', 10, ANN) && OpenFor(s', 11, ANN) && !AtMostOneOpenEach(s')
  {
    s := Nothing();
    s' := BothCheckAndInsert(5, 30_000, LeaseOf(1, 60_000), Holder(Entered, 0, 30_000), Holder(Entered, 1, 60_000));
    LeaseLapses(ChecksAndInserts(), s');
    FirstAcquires([Arrive(ANN)] + ([Pass(30_000)] + ([Acquire(1)] + ChecksAndInserts())), s');
    labels := LapseLabels();
    NothingFails();
    BothAreOpen(s', 5);
  }

  function Raised(open: bool): map<SessionId, Alarm> { map[10 := Alarm(ANN, open, 2, 3)] }

  /** The first call was raised, its lease is not given back, and it is closed. */
  lemma ReleaseFailsAndCloses(labels: seq<Label>, s': State)
    requires Run(State(0, 6, LeaseOf(0, 30_000), [Holder(Answered(Created(10)), 0, 30_000).(checkedAt := 2)], Raised(false)), labels, s')
    ensures Run(State(0, 4, LeaseOf(0, 30_000), [Holder(Leaving(Created(10)), 0, 30_000).(checkedAt := 2)], Raised(true)),
                [ReleaseFails(0)] + ([Close(10)] + labels), s')
  {
    var s4 := State(0, 4, LeaseOf(0, 30_000), [Holder(Leaving(Created(10)), 0, 30_000).(checkedAt := 2)], Raised(true));
    var s5 := State(0, 5, LeaseOf(0, 30_000), [Holder(Answered(Created(10)), 0, 30_000).(checkedAt := 2)], Raised(true));
    One(s5, Close(10), s5.(step := 6, alarms := Raised(false)), labels, s');
    One(s4, ReleaseFails(0), s5, [Close(10)] + labels, s');
  }

  lemma LeaseStaysBehind(labels: seq<Label>, s': State)
    requires Run(State(0, 6, LeaseOf(0, 30_000), [Holder(Answered(Created(10)), 0, 30_000).(checkedAt := 2)], Raised(false)), labels, s')
    ensures Run(FirstWorks(), [Check(0)] + ([Create(0, 10)] + ([ReleaseFails(0)] + ([Close(10)] + labels))), s')
  {
    var x := Holder(FoundNone, 0, 30_000).(checkedAt := 2);
    var s3 := State(0, 3, LeaseOf(0, 30_000), [x], map[]);
    var s4 := State(0, 4, LeaseOf(0, 30_000), [x.(pc := Leaving(Created(10)))], Raised(true));
    ReleaseFailsAndCloses(labels, s');
    One(s3, Create(0, 10), s4, [ReleaseFails(0)] + ([Close(10)] + labels), s');
    ReadNothing(FirstWorks(), 0, s3);
    One(FirstWorks(), Check(0), s3, [Create(0, 10)] + ([ReleaseFails(0)] + ([Close(10)] + labels)), s');
  }

  lemma SecondIsTurnedAway() returns (s': State)
    ensures Run(State(0, 6, LeaseOf(0, 30_000), [Holder(Answered(Created(10)), 0, 30_000).(checkedAt := 2)], Raised(false)),
                [Arrive(ANN)] + ([Acquire(1)] + ([Peek(1)] + [])), s')
    ensures |s'.procs| == 2 && s'.procs[0].pc == Answered(Created(10)) && s'.procs[1] == Arriving().(pc := Answered(InProgress))
    ensures s'.alarms == Raised(false)
  {
    var x := Holder(Answered(Created(10)), 0, 30_000).(checkedAt := 2);
    var closed := Raised(false);
    var s7 := Two(7, 0, LeaseOf(0, 30_000), x, Arriving(), closed);
    var s8 := Two(8, 0, LeaseOf(0, 30_000), x, Arriving().(pc := Blocked), closed);
    s' := Two(9, 0, LeaseOf(0, 30_000), x, Arriving().(pc := Answered(InProgress)), closed);
    assert Reads(s8, ANN, None);
    assert Run(s', [], s');
    One(s8, Peek(1), s', [], s');
    One(s7, Acquire(1), s8, [Peek(1)] + [], s');
    One(State(0, 6, LeaseOf(0, 30_000), [x], closed), Arrive(ANN), s7, [Acquire(1)] + ([Peek(1)] + []), s');
  }

  /** A failed release turns the user's next trigger away although he has no open call and nobody works
      on raising one. */
  lemma FailedReleaseTurnsAway() returns (s: State, labels: seq<Label>, s': State)
    ensures Fresh(s) && Run(s, labels, s')
    ensures |s'.procs| == 2 && s'.procs[1].user == ANN && s'.procs[1].pc == Answered(InProgress)
    ensures NobodyWorks(s', ANN) && forall a :: !OpenFor(s', a, ANN)
  {
    s := Nothing();
    s' := SecondIsTurnedAway();
    labels := [Arrive(ANN)] + ([Acquire(1)] + ([Peek(1)] + []));
    LeaseStaysBehind(labels, s');
    labels := [Check(0)] + ([Create(0, 10)] + ([ReleaseFails(0)] + ([Close(10)] + labels)));
    FirstAcquires(labels, s');
    labels := [Arrive(ANN)] + ([Acquire(0)] + labels);
  }
}
