/** How soon a silent operator loses a waiting call and the shift, whatever others do meanwhile. */
module RealTime {
  import opened Rows
  import opened Handlers
  import opened Runs
  import opened Presence
  import opened Redis
  import opened Cron

  /** What happens, in order: acts of others, and ticks, each with all that happened while it ran. */
  datatype Chunk = Acts(act: Act) | Tick(connected: set<UserId>, script: Script)

  function Later(w: Scene, e: Chunk): Scene {
    match e
    case Acts(act) => ItemAfter(w, Other(act))
    case Tick(_, script) => Played(w, script)
  }

  function Evolved(w: Scene, events: seq<Chunk>): Scene {
    if events == [] then w else Later(Evolved(w, events[..|events| - 1]), events[|events| - 1])
  }

  predicate BeatIn(x: Item, o: UserId) {
    x == Other(Ping(o)) || x == KeptAlive(o)
  }

  ghost predicate NoBeatIn(script: Script, o: UserId) {
    forall x :: x in Items(script) ==> !BeatIn(x, o)
  }

  ghost predicate NoBeat(e: Chunk, o: UserId) {
    match e
    case Acts(act) => act != Ping(o)
    case Tick(_, script) => NoBeatIn(script, o)
  }

  /** No ping and no socket since `since`. The beat that going on shift seeds is a Ping of its own. */
  ghost predicate SilentSince(w: Scene, events: seq<Chunk>, o: UserId, since: Time) {
    && (o in w.beats ==> w.beats[o] <= since)
    && (forall i :: 0 <= i < |events| ==> NoBeat(events[i], o))
  }

  /** The tick begins no earlier than `from` and is complete within `gap` of it. */
  ghost predicate DoneWithin(w: Scene, events: seq<Chunk>, i: nat, from: Time, gap: nat)
    requires i < |events|
  {
    && events[i].Tick?
    && from <= Evolved(w, events[..i]).now
    && Evolved(w, events[..i + 1]).now <= from + gap
    && CompletedTick(Evolved(w, events[..i]), events[i].connected, events[i].script)
  }

  ghost predicate TickComes(w: Scene, events: seq<Chunk>, t: Time, gap: nat) {
    exists i :: 0 <= i < |events| && DoneWithin(w, events, i, t, gap)
  }

  /** Whatever moment up to `until` is taken, a tick begins after it and is complete within `gap`. */
  ghost predicate TicksKeepComing(w: Scene, events: seq<Chunk>, until: Time, gap: nat) {
    forall t :: w.now <= t <= until ==> TickComes(w, events, t, gap)
  }

  function Max(a: nat, b: nat): nat {
    if a < b then b else a
  }

  /** Silence of two minutes takes a waiting call away, silence of three ends the shift. */
  lemma SilenceInNumbers(w: Scene, o: UserId)
    ensures Silent(w, o) <==> !(o in w.beats && w.now < w.beats[o] + 120_000)
    ensures Gone(w, o) <==> !(o in w.beats && w.now < w.beats[o] + 180_000)
  {}

  // ---- Time and beats along a script ----

  lemma {:induction false} BeatsStay(w: Scene, script: Script, o: UserId)
    requires NoBeatIn(script, o)
    ensures o in Played(w, script).beats <==> o in w.beats
    ensures o in w.beats ==> Played(w, script).beats[o] == w.beats[o]
    ensures w.now <= Played(w, script).now
  {
    if script.Then? {
      BeatsStay(w, script.init, o);
      assert !BeatIn(script.last, o);
    }
  }

  lemma {:induction false} TimeGoesOn(w: Scene, p: Script, script: Script)
    requires GoesOn(p, script)
    ensures Played(w, p).now <= Played(w, script).now
  {
    if p != script { TimeGoesOn(w, p, script.init); }
  }

  lemma StillSilent(w: Scene, p: Script, script: Script, o: UserId)
    requires GoesOn(p, script) && NoBeatIn(script, o)
    ensures Silent(w, o) ==> Silent(Played(w, p), o)
    ensures Gone(w, o) ==> Gone(Played(w, p), o)
  {
    ItemsStay(p, script);
    BeatsStay(w, p, o);
  }

  lemma {:induction false} BeatsStayOld(w: Scene, events: seq<Chunk>, o: UserId, since: Time)
    requires SilentSince(w, events, o, since)
    ensures o in Evolved(w, events).beats ==> Evolved(w, events).beats[o] <= since
  {
    if events != [] {
      var init, e := events[..|events| - 1], events[|events| - 1];
      forall i | 0 <= i < |init| ensures NoBeat(init[i], o) { assert init[i] == events[i]; }
      BeatsStayOld(w, init, o, since);
      assert NoBeat(e, o);
      if e.Tick? { BeatsStay(Evolved(w, init), e.script, o); }
    }
  }

  /** At a tick that begins late enough the operator is silent, and he stays so while it runs. */
  lemma SilentThroughout(w: Scene, events: seq<Chunk>, i: nat, p: Script, o: UserId, since: Time)
    requires SilentSince(w, events, o, since) && i < |events| && events[i].Tick? && GoesOn(p, events[i].script)
    ensures var s := Evolved(w, events[..i]);
            && (since + 120_000 <= s.now ==> Silent(Played(s, p), o))
            && (since + 180_000 <= s.now ==> Gone(Played(s, p), o))
            && Played(s, p).now <= Evolved(w, events[..i + 1]).now
  {
    var s := Evolved(w, events[..i]);
    assert events[..i + 1][..i] == events[..i];
    forall j | 0 <= j < i ensures NoBeat(events[..i][j], o) { assert events[..i][j] == events[j]; }
    BeatsStayOld(w, events[..i], o, since);
    assert NoBeat(events[i], o);
    StillSilent(s, p, events[i].script, o);
    TimeGoesOn(s, p, events[i].script);
  }

  // ---- A waiting call ----

  /** The item changes nothing about the call, unless a cron takes it back or its requester sends a
      location. A request that is refused is spared, whatever it asks for. */
  predicate Spares(db: Db, x: Item, c: SessionId) {
    x.Other? && x.act.Handler? && Touches(x.act.req) == Some(c) && Refusal(db, x.act.req) == None ==>
      x.act.req.Reclaim? || x.act.req.AddLocation?
  }

  predicate SparedIn(w: Scene, script: Script, c: SessionId) {
    script.Then? ==> SparedIn(w, script.init, c) && Spares(Played(w, script.init).db, script.last, c)
  }

  ghost predicate Spared(w: Scene, e: Chunk, c: SessionId) {
    match e
    case Acts(act) => Spares(w.db, Other(act), c)
    case Tick(_, script) => SparedIn(w, script, c)
  }

  ghost predicate Untouched(w: Scene, events: seq<Chunk>, c: SessionId) {
    forall i :: 0 <= i < |events| ==> Spared(Evolved(w, events[..i]), events[i], c)
  }

  predicate WaitsOrFree(db: Db, c: SessionId, o: UserId) {
    WaitsFor(db, c, o) || c in Pool(db)
  }

  lemma SparedItem(w: Scene, x: Item, c: SessionId, o: UserId)
    requires Spares(w.db, x, c)
    ensures WaitsOrFree(w.db, c, o) ==> WaitsOrFree(ItemAfter(w, x).db, c, o)
    ensures c in Pool(w.db) ==> c in Pool(ItemAfter(w, x).db)
  {}

  lemma {:induction false} SparedScript(w: Scene, script: Script, c: SessionId, o: UserId)
    requires SparedIn(w, script, c)
    ensures WaitsOrFree(w.db, c, o) ==> WaitsOrFree(Played(w, script).db, c, o)
  {
    if script.Then? {
      SparedScript(w, script.init, c, o);
      SparedItem(Played(w, script.init), script.last, c, o);
    }
  }

  lemma {:induction false} SparedRest(w: Scene, p: Script, script: Script, c: SessionId)
    requires GoesOn(p, script) && SparedIn(w, script, c)
    ensures SparedIn(w, p, c)
    ensures c in Pool(Played(w, p).db) ==> c in Pool(Played(w, script).db)
  {
    if p != script {
      SparedRest(w, p, script.init, c);
      SparedItem(Played(w, script.init), script.last, c, 0);
    }
  }

  lemma {:induction false} WaitsUntilFree(w: Scene, events: seq<Chunk>, c: SessionId, o: UserId)
    requires WaitsFor(w.db, c, o) && Untouched(w, events, c)
    ensures WaitsOrFree(Evolved(w, events).db, c, o)
  {
    if events != [] {
      var init, e := events[..|events| - 1], events[|events| - 1];
      forall i | 0 <= i < |init| ensures Spared(Evolved(w, init[..i]), init[i], c) {
        assert init[..i] == events[..i] && Spared(Evolved(w, events[..i]), events[i], c);
      }
      WaitsUntilFree(w, init, c, o);
      assert Spared(Evolved(w, init), e, c);
      match e
      case Acts(act) => SparedItem(Evolved(w, init), Other(act), c, o);
      case Tick(_, script) => SparedScript(Evolved(w, init), script, c, o);
    }
  }

  /** A call of an operator silent since `since` no longer waits for him at some moment up to
      max(since + 120 s, now) + gap, whatever others do, in and between the ticks. Unless somebody else has
      changed it by then (given it away, begun or closed it), it is in the pool, and it is still there when
      that tick ends unless somebody has claimed or closed it. */
  lemma SilentCallIsBackInTime(w: Scene, events: seq<Chunk>, c: SessionId, o: UserId, since: Time, gap: nat) returns (i: nat, p: Script)
    requires SilentSince(w, events, o, since)
    requires TicksKeepComing(w, events, Max(since + 120_000, w.now), gap)
    ensures i < |events| && events[i].Tick? && GoesOn(p, events[i].script)
    ensures var begun := Evolved(w, events[..i]);
            var later := Played(begun, p);
            && later.now <= Max(since + 120_000, w.now) + gap
            && !WaitsFor(later.db, c, o)
            && (WaitsFor(w.db, c, o) && Untouched(w, events[..i], c) && SparedIn(begun, p, c) ==> c in Pool(later.db))
            && (WaitsFor(w.db, c, o) && Untouched(w, events[..i + 1], c) ==> c in Pool(Evolved(w, events[..i + 1]).db))
  {
    var due := Max(since + 120_000, w.now);
    assert TickComes(w, events, due, gap);
    i :| 0 <= i < |events| && DoneWithin(w, events, i, due, gap);
    var s, script := Evolved(w, events[..i]), events[i].script;
    p := LeftAt(s, events[i].connected, script, c, o);
    SilentThroughout(w, events, i, p, o, since);
    if WaitsFor(w.db, c, o) && Untouched(w, events[..i], c) {
      WaitsUntilFree(w, events[..i], c, o);
      if SparedIn(s, p, c) { SparedScript(s, p, c, o); }
    }
    if WaitsFor(w.db, c, o) && Untouched(w, events[..i + 1], c) {
      UntouchedBefore(w, events, i, c);
      WaitsUntilFree(w, events[..i], c, o);
      SparedRest(s, p, script, c);
      SparedScript(s, p, c, o);
    }
  }

  lemma UntouchedBefore(w: Scene, events: seq<Chunk>, i: nat, c: SessionId)
    requires i < |events| && Untouched(w, events[..i + 1], c)
    ensures Untouched(w, events[..i], c) && Spared(Evolved(w, events[..i]), events[i], c)
    ensures Evolved(w, events[..i + 1]) == Later(Evolved(w, events[..i]), events[i])
  {
    var upTo := events[..i + 1];
    assert upTo[..i] == events[..i] && Spared(Evolved(w, upTo[..i]), upTo[i], c);
    forall j | 0 <= j < i ensures Spared(Evolved(w, events[..i][..j]), events[..i][j], c) {
      assert upTo[..j] == events[..i][..j] && Spared(Evolved(w, upTo[..j]), upTo[j], c);
    }
  }

  /** A moment of a completed tick at which the call does not wait for the operator, or he is not silent. */
  lemma LeftAt(s: Scene, connected: set<UserId>, script: Script, c: SessionId, o: UserId) returns (p: Script)
    requires CompletedTick(s, connected, script)
    ensures GoesOn(p, script) && !(Silent(Played(s, p), o) && WaitsFor(Played(s, p).db, c, o))
  {
    var first, mid :| KeptAll(connected, first) && Unjudged(first) && GoesOn(first, mid) && AllLetGo(s, first, mid)
                      && GoesOn(mid, script) && AllShiftsLetGo(s, mid, script);
    assert LetGo(s, first, mid, c, o);
    p :| GoesOn(first, p) && GoesOn(p, mid) && !(Silent(Played(s, p), o) && WaitsFor(Played(s, p).db, c, o));
    GoesOnAndOn(p, mid, script);
  }

  // ---- A shift ----

  predicate HasCallInProgress(db: Db, o: UserId) {
    exists c :: c in db.sessions && db.sessions[c].status == IN_PROGRESS && db.sessions[c].assignee == Some(o)
  }

  /** The item commits a claim or reassignment that gives the operator the call. */
  predicate Gives(db: Db, x: Item, c: SessionId, o: UserId) {
    && x.Other? && x.act.Handler? && Refusal(db, x.act.req) == None
    && Target(x.act.req) == Some(o) && Touches(x.act.req) == Some(c)
  }

  /** Somebody has given the operator a call, or he has taken one, as far as the script goes. */
  ghost predicate GivenACall(w: Scene, script: Script, o: UserId) {
    exists q, c :: GoesOn(q, script) && q.Then? && Gives(Played(w, q.init).db, q.last, c, o)
  }

  lemma OnlyGivingGives(w: Scene, x: Item, c: SessionId, o: UserId)
    requires !WaitsFor(w.db, c, o) && WaitsFor(ItemAfter(w, x).db, c, o)
    ensures Gives(w.db, x, c, o)
  {}

  lemma {:induction false} GivenBetween(w: Scene, p: Script, q: Script, c: SessionId, o: UserId)
    requires GoesOn(p, q) && !WaitsFor(Played(w, p).db, c, o) && WaitsFor(Played(w, q).db, c, o)
    ensures exists r :: GoesOn(r, q) && r.Then? && Gives(Played(w, r.init).db, r.last, c, o)
  {
    assert p != q;
    if WaitsFor(Played(w, q.init).db, c, o) {
      GivenBetween(w, p, q.init, c, o);
      var r :| GoesOn(r, q.init) && r.Then? && Gives(Played(w, r.init).db, r.last, c, o);
      assert GoesOn(r, q);
    } else {
      OnlyGivingGives(Played(w, q.init), q.last, c, o);
      assert GoesOn(q, q);
    }
  }

  lemma {:induction false} StaysOperator(w: Scene, script: Script, o: UserId)
    requires IsOperator(w.db, o)
    ensures IsOperator(Played(w, script).db, o)
  {
    if script.Then? {
      StaysOperator(w, script.init, o);
      RoleStays(Played(w, script.init), script.last, o);
    }
  }

  lemma RoleStays(w: Scene, x: Item, o: UserId)
    requires IsOperator(w.db, o)
    ensures IsOperator(ItemAfter(w, x).db, o)
  {
    if x.Other? && x.act.Handler? && Refusal(w.db, x.act.req) == None && WritesUser(x.act.req).Some? {
      assert NewUser(w.db, x.act.req).role == w.db.users[x.act.req.operator].role;
    }
  }

  lemma {:induction false} RemainsOperator(w: Scene, events: seq<Chunk>, o: UserId)
    requires IsOperator(w.db, o)
    ensures IsOperator(Evolved(w, events).db, o)
  {
    if events != [] {
      var init, e := events[..|events| - 1], events[|events| - 1];
      RemainsOperator(w, init, o);
      match e
      case Acts(act) => RoleStays(Evolved(w, init), Other(act), o);
      case Tick(_, script) => StaysOperator(Evolved(w, init), script, o);
    }
  }

  /** A moment of a completed tick at which an operator gone all the while is off shift, has a call in
      progress, or has been given a call while the tick ran. */
  lemma OffShiftAt(s: Scene, connected: set<UserId>, script: Script, o: UserId) returns (p: Script)
    requires CompletedTick(s, connected, script) && IsOperator(s.db, o)
    requires forall q :: GoesOn(q, script) ==> Silent(Played(s, q), o) && Gone(Played(s, q), o)
    ensures GoesOn(p, script)
    ensures OnShift(Played(s, p).db, o) ==> HasCallInProgress(Played(s, p).db, o) || GivenACall(s, p, o)
  {
    var first, mid :| KeptAll(connected, first) && Unjudged(first) && GoesOn(first, mid) && AllLetGo(s, first, mid)
                      && GoesOn(mid, script) && AllShiftsLetGo(s, mid, script);
    assert ShiftLetGo(s, mid, script, o);
    p :| GoesOn(mid, p) && GoesOn(p, script) && !DeadShift(Played(s, p), o);
    StaysOperator(s, p, o);
    if OnShift(Played(s, p).db, o) {
      var c :| c in OpenCalls(Played(s, p).db, o);
      if WaitsFor(Played(s, p).db, c, o) {
        assert LetGo(s, first, mid, c, o);
        var q :| GoesOn(first, q) && GoesOn(q, mid) && !(Silent(Played(s, q), o) && WaitsFor(Played(s, q).db, c, o));
        GoesOnAndOn(q, mid, p);
        GoesOnAndOn(q, p, script);
        GivenBetween(s, q, p, c, o);
      }
    }
  }

  /** At some moment up to max(since + 180 s, now) + gap an operator silent since `since` is off shift,
      whatever others do, unless he has a call in progress or is given one while that very tick runs. */
  lemma SilentShiftEndsInTime(w: Scene, events: seq<Chunk>, o: UserId, since: Time, gap: nat) returns (i: nat, p: Script)
    requires IsOperator(w.db, o) && SilentSince(w, events, o, since)
    requires TicksKeepComing(w, events, Max(since + 180_000, w.now), gap)
    ensures i < |events| && events[i].Tick? && GoesOn(p, events[i].script)
    ensures var later := Played(Evolved(w, events[..i]), p);
            && later.now <= Max(since + 180_000, w.now) + gap
            && (OnShift(later.db, o) ==> HasCallInProgress(later.db, o) || GivenACall(Evolved(w, events[..i]), p, o))
  {
    var due := Max(since + 180_000, w.now);
    assert TickComes(w, events, due, gap);
    i :| 0 <= i < |events| && DoneWithin(w, events, i, due, gap);
    var s, script := Evolved(w, events[..i]), events[i].script;
    forall q | GoesOn(q, script) ensures Silent(Played(s, q), o) && Gone(Played(s, q), o) {
      SilentThroughout(w, events, i, q, o, since);
    }
    RemainsOperator(w, events[..i], o);
    p := OffShiftAt(s, events[i].connected, script, o);
    SilentThroughout(w, events, i, p, o, since);
  }

  /** The tick itself never changes a call in progress, nor the row of an operator who has one. */
  lemma TickSparesCallsInProgress(w: Scene, script: Script, x: Item)
    requires Truthful(w, Then(script, x)) && !x.Other?
    ensures var before, after := Played(w, script).db, Played(w, Then(script, x)).db;
            && (forall c :: c in before.sessions && before.sessions[c].status == IN_PROGRESS ==>
                  c in after.sessions && after.sessions[c] == before.sessions[c])
            && (forall o: UserId :: HasCallInProgress(before, o) && o in before.users ==> o in after.users && after.users[o] == before.users[o])
  {
    var before := Played(w, script).db;
    forall o: UserId | HasCallInProgress(before, o) ensures OpenCalls(before, o) != {} {
      var c :| c in before.sessions && before.sessions[c].status == IN_PROGRESS && before.sessions[c].assignee == Some(o);
      assert c in OpenCalls(before, o);
    }
  }

  lemma OpenAfterReclaim(w: Scene, c: SessionId, o: UserId)
    requires Silent(w, o) && IsOpenCall(ReclaimedFrom(w, w.db.sessions.Keys).db, c, o)
    ensures c in w.db.sessions && w.db.sessions[c].status == IN_PROGRESS && w.db.sessions[c].assignee == Some(o)
  {}

  /** An undisturbed tick ends the shift of a gone operator exactly if he has no call in progress. */
  lemma QuietTickEndsShiftIff(w: Scene, connected: set<UserId>, o: UserId)
    requires IsOperator(w.db, o) && Gone(w, o) && o !in connected
    ensures OnShift(QuietTick(w, connected).db, o) <==> OnShift(w.db, o) && HasCallInProgress(w.db, o)
  {
    var w1 := Refreshed(w, connected);
    var w2 := ReclaimedFrom(w1, w1.db.sessions.Keys);
    assert Silent(w1, o) && Gone(w2, o);
    if c :| c in w.db.sessions && w.db.sessions[c].status == IN_PROGRESS && w.db.sessions[c].assignee == Some(o) {
      assert c in OpenCalls(w2.db, o);
    } else if d :| d in OpenCalls(w2.db, o) {
      OpenAfterReclaim(w1, d, o);
    }
  }

  // ---- The window between judging and reclaiming ----

  /** The operator's last beat after `from`, along `to`. */
  function LastBeat(w: Scene, from: Script, to: Script, o: UserId): Option<Time>
    requires GoesOn(from, to)
  {
    if from == to then None
    else if BeatIn(to.last, o) then Some(Played(w, to.init).now)
    else LastBeat(w, from, to.init, o)
  }

  lemma {:induction false} BeatsAreLastBeats(w: Scene, from: Script, to: Script, o: UserId)
    requires GoesOn(from, to)
    ensures var later, last := Played(w, to), LastBeat(w, from, to, o);
            if last.Some? then o in later.beats && later.beats[o] == last.value
            else (o in later.beats <==> o in Played(w, from).beats) && (o in later.beats ==> later.beats[o] == Played(w, from).beats[o])
  {
    if from != to { BeatsAreLastBeats(w, from, to.init, o); }
  }

  /** An operator judged silent is silent later exactly if his last beat since, if there is one, is two minutes old. */
  lemma SilentLaterIff(w: Scene, judged: Script, to: Script, o: UserId)
    requires GoesOn(judged, to) && Silent(Played(w, judged), o)
    ensures var last := LastBeat(w, judged, to, o);
            Silent(Played(w, to), o) <==> (last.Some? ==> last.value + 120_000 <= Played(w, to).now)
  {
    BeatsAreLastBeats(w, judged, to, o);
    TimeGoesOn(w, judged, to);
  }

  lemma {:induction false} JudgementIn(w: Scene, script: Script, c: SessionId, o: UserId) returns (judged: Script)
    requires Truthful(w, script) && JudgedSilent(c, o) in Items(script)
    ensures GoesOn(judged, script) && judged.Then? && judged.last == JudgedSilent(c, o) && Silent(Played(w, judged), o)
  {
    if script.last == JudgedSilent(c, o) { return script; }
    judged := JudgementIn(w, script.init, c, o);
  }

  /** A reclaim hits an operator who is alive exactly if he has beaten between the judgement and the
      update, less than two minutes before the update. */
  lemma ReclaimHitsTheLivingIff(w: Scene, script: Script, c: SessionId, o: UserId) returns (judged: Script)
    requires Truthful(w, Then(script, Reclaimed(c, o)))
    ensures GoesOn(judged, script) && judged.Then? && judged.last == JudgedSilent(c, o)
    ensures var last := LastBeat(w, judged, script, o);
            !Silent(Played(w, script), o) <==> last.Some? && Played(w, script).now < last.value + 120_000
  {
    judged := JudgementIn(w, script, c, o);
    SilentLaterIff(w, judged, script, o);
  }

  /** One operator on shift and the call he has not begun, never heard of at 200 s. */
  function OneWaiting(): Scene {
    var call := FreshSession(7, None, None, PERSONAL).(status := ASSIGNED, assignee := Some(1));
    Scene(Db(map[1 := User(OPERATOR, None, true, Some(0))], map[10 := call]), map[], 200_000, multiset{})
  }

  /** It happens: the operator beats right after the judgement and loses the call all the same. */
  lemma ReclaimFromTheLiving()
    ensures var beaten := Then(Then(Start, JudgedSilent(10, 1)), Other(Ping(1)));
            && Good(OneWaiting().db) && Truthful(OneWaiting(), Then(beaten, Reclaimed(10, 1)))
            && !Silent(Played(OneWaiting(), beaten), 1)
            && 10 in Pool(Played(OneWaiting(), Then(beaten, Reclaimed(10, 1))).db)
  {
    var judged := Then(Start, JudgedSilent(10, 1));
    assert Truthful(OneWaiting(), judged) && Played(OneWaiting(), judged) == OneWaiting();
    assert JudgedSilent(10, 1) in Items(Then(judged, Other(Ping(1))));
  }
}
