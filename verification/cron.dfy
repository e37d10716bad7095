/** The 30-second tick: silent operators lose waiting calls, then dead shifts end. */
module Cron {
  import opened Rows
  import opened Handlers
  import opened Runs
  import opened Fanout
  import opened Presence
  import opened Redis
  import opened Services

  const STALE_LOCK_TTL_SECONDS: nat := 45

  /** What other actors can do between two statements of the tick: commit a handler, as the interleaving
      lets it commit, beat, or let time go by. */
  datatype Act = Handler(req: Request) | Ping(operator: UserId) | Wait(ms: nat)

  /** What others do before the tick's next call to a store, whether this call then fails, and whether
      a query for the busy operators made after it answers. */
  datatype Schedule = Over | Slot(acts: seq<Act>, fails: bool, busyKnown: bool, rest: Schedule)

  /** `offered` only observes: the calls this service has offered, each as often as it was. */
  datatype Scene = Scene(db: Db, beats: map<UserId, Time>, now: Time, offered: multiset<SessionId>)

  /** What happened during a tick, in order. */
  datatype Item =
    | Other(act: Act)
    | KeptAlive(operator: UserId)
    | JudgedSilent(call: SessionId, operator: UserId)
    | Reclaimed(call: SessionId, operator: UserId)
    | JudgedGone(operator: UserId)
    | Dropped(operator: UserId)

  /** The items so far. */
  datatype Script = Start | Then(init: Script, last: Item)

  predicate Silent(w: Scene, o: UserId) {
    !FreshForever(w.beats, o, RECLAIM_ASSIGNMENT_THRESHOLD_MS, w.now)
  }

  predicate Gone(w: Scene, o: UserId) {
    !FreshForever(w.beats, o, SHIFT_ALIVE_THRESHOLD_MS, w.now)
  }

  /** The calls these events offer. */
  function Offered(events: seq<Event>): multiset<SessionId> {
    if events == [] then multiset{}
    else
      var last := events[|events| - 1];
      Offered(events[..|events| - 1]) + (if last.kind == EmergencyNew && last.id.Some? then multiset{last.id.value} else multiset{})
  }

  lemma OfferedMore(events: seq<Event>, e: Event)
    ensures Offered(events + [e]) == Offered(events) + (if e.kind == EmergencyNew && e.id.Some? then multiset{e.id.value} else multiset{})
  {
    assert (events + [e])[..|events|] == events;
  }

  function Committed(db: Db, r: Request): Db {
    if Refusal(db, r) == None then Effect(db, r) else db
  }

  /** The call waits for the operator. */
  predicate WaitsFor(db: Db, c: SessionId, o: UserId) {
    c in db.sessions && db.sessions[c].status == ASSIGNED && db.sessions[c].assignee == Some(o)
  }

  function BackInPool(row: Session): Session {
    row.(status := NEW, assignee := None)
  }

  /** The conditional update of a stale call, which is then offered. */
  function TakenBack(w: Scene, c: SessionId, o: UserId): Scene {
    if WaitsFor(w.db, c, o)
    then w.(db := w.db.(sessions := w.db.sessions[c := BackInPool(w.db.sessions[c])]), offered := w.offered + multiset{c})
    else w
  }

  /** The conditional end of a shift. */
  function ShiftOver(w: Scene, o: UserId): Scene {
    if OnShift(w.db, o) && OpenCalls(w.db, o) == {}
    then w.(db := w.db.(users := w.db.users[o := w.db.users[o].(onShift := false, shiftStartedAt := None)]))
    else w
  }

  /** The tick's own writes are the handlers the rest of the model speaks of. */
  lemma OwnWritesAreHandlers(w: Scene, c: SessionId, o: UserId)
    ensures TakenBack(w, c, o).db == Committed(w.db, Reclaim(c, o)) && ShiftOver(w, o).db == Committed(w.db, DropShift(o))
    ensures WaitsFor(w.db, c, o) <==> Refusal(w.db, Reclaim(c, o)) == None
    ensures OnShift(w.db, o) && OpenCalls(w.db, o) == {} <==> Refusal(w.db, DropShift(o)) == None
  {}

  function ItemAfter(w: Scene, x: Item): Scene {
    match x
    case Other(Handler(r)) => w.(db := Committed(w.db, r))
    case Other(Ping(o)) => w.(beats := w.beats[o := w.now])
    case Other(Wait(ms)) => w.(now := w.now + ms)
    case KeptAlive(o) => w.(beats := w.beats[o := w.now])
    case Reclaimed(c, o) => TakenBack(w, c, o)
    case Dropped(o) => ShiftOver(w, o)
    case _ => w
  }

  /** Everything the script says happened. */
  function Played(w: Scene, script: Script): Scene {
    match script
    case Start => w
    case Then(init, x) => ItemAfter(Played(w, init), x)
  }

  function Items(script: Script): set<Item> {
    match script
    case Start => {}
    case Then(init, x) => Items(init) + {x}
  }

  /** A judgement is right when it is made; a reclaim hits a call that is still ASSIGNED to an operator
      this tick has judged silent for that call; a drop hits an operator judged gone, without open calls. */
  predicate ItemOk(w: Scene, before: set<Item>, x: Item) {
    match x
    case Other(_) => true
    case KeptAlive(_) => true
    case JudgedSilent(_, o) => Silent(w, o)
    case Reclaimed(c, o) => JudgedSilent(c, o) in before && WaitsFor(w.db, c, o)
    case JudgedGone(o) => Gone(w, o)
    case Dropped(o) => JudgedGone(o) in before && OnShift(w.db, o) && OpenCalls(w.db, o) == {}
  }

  predicate Truthful(w: Scene, script: Script) {
    match script
    case Start => true
    case Then(init, x) => Truthful(w, init) && ItemOk(Played(w, init), Items(init), x)
  }

  function OthersOf(script: Script): seq<Act> {
    match script
    case Start => []
    case Then(init, x) => OthersOf(init) + (if x.Other? then [x.act] else [])
  }

  /** The operators whose shift the tick ended. */
  function DroppedIn(script: Script): set<UserId> {
    match script
    case Start => {}
    case Then(init, x) => DroppedIn(init) + (if x.Dropped? then {x.operator} else {})
  }

  /** `to` tells what `from` tells, and goes on. */
  predicate GoesOn(from: Script, to: Script) {
    from == to || (to.Then? && GoesOn(from, to.init))
  }

  lemma {:induction false} GoesOnAndOn(a: Script, b: Script, c: Script)
    requires GoesOn(a, b) && GoesOn(b, c)
    ensures GoesOn(a, c)
  {
    if b != c { GoesOnAndOn(a, b, c.init); }
  }

  lemma {:induction false} ItemsStay(from: Script, to: Script)
    requires GoesOn(from, to)
    ensures Items(from) <= Items(to)
  {
    if from != to { ItemsStay(from, to.init); }
  }

  lemma {:induction false} AllBegins(script: Script)
    ensures GoesOn(Start, script)
  {
    if script.Then? { AllBegins(script.init); }
  }

  /** Nobody has been judged yet. */
  ghost predicate Unjudged(script: Script) {
    forall x :: x in Items(script) ==> x.Other? || x.KeptAlive?
  }

  function WithOthers(script: Script, acts: seq<Act>): Script {
    if acts == [] then script else Then(WithOthers(script, acts[..|acts| - 1]), Other(acts[|acts| - 1]))
  }

  lemma {:induction false} OnlyOthersAdded(script: Script, acts: seq<Act>)
    ensures var script' := WithOthers(script, acts);
            && OthersOf(script') == OthersOf(script) + acts && DroppedIn(script') == DroppedIn(script)
            && GoesOn(script, script') && (Unjudged(script) ==> Unjudged(script'))
  {
    if acts != [] {
      OnlyOthersAdded(script, acts[..|acts| - 1]);
      assert acts == acts[..|acts| - 1] + [acts[|acts| - 1]];
    }
  }

  /** What a reclaim that runs alone changes and emits. */
  lemma ReclaimAlone(w: World, c: SessionId, o: UserId, busyKnown: bool)
    ensures After(w, Call(Reclaim(c, o), busyKnown)) == w.(db := Committed(w.db, Reclaim(c, o)))
    ensures Refusal(w.db, Reclaim(c, o)) == None ==>
              var db' := Effect(w.db, Reclaim(c, o));
              && c in db'.sessions
              && Heard(w, Call(Reclaim(c, o), busyKnown)) ==
                   [CardEvent(CallReassigned, c, db'.sessions[c], AsSet(db'.sessions[c].assignee) + {o}), OfferEvent(db', c, true, busyKnown)]
    ensures Refusal(w.db, Reclaim(c, o)) != None ==> Heard(w, Call(Reclaim(c, o), busyKnown)) == []
  {}

  function Endings(ended: seq<UserId>): seq<Event> {
    if ended == [] then [] else Endings(ended[..|ended| - 1]) + [ShiftEndedEvent(ended[|ended| - 1])]
  }

  lemma {:induction false} EndingsOfferNothing(events: seq<Event>, ended: seq<UserId>)
    ensures Offered(events + Endings(ended)) == Offered(events)
  {
    if ended == [] {
      assert events + Endings(ended) == events;
    } else {
      var init := ended[..|ended| - 1];
      EndingsOfferNothing(events, init);
      OfferedMore(events + Endings(init), ShiftEndedEvent(ended[|ended| - 1]));
      assert events + Endings(ended) == events + Endings(init) + [ShiftEndedEvent(ended[|ended| - 1])];
    }
  }

  function AllLeave(sockets: Sockets, ended: seq<UserId>): Sockets {
    if ended == [] then sockets else MoveShiftRoom(AllLeave(sockets, ended[..|ended| - 1]), ended[|ended| - 1], false)
  }

  function AllJudgedGone(dead: seq<UserId>): set<Item> {
    set o | o in dead :: JudgedGone(o)
  }

  // ---- An undisturbed tick, declaratively ----

  /** The calls that wait for an operator who has fallen silent. */
  predicate Stale(w: Scene, c: SessionId) {
    c in w.db.sessions && w.db.sessions[c].status == ASSIGNED && w.db.sessions[c].assignee.Some? && Silent(w, w.db.sessions[c].assignee.value)
  }

  function StaleIn(w: Scene, done: set<SessionId>): set<SessionId> {
    set c | c in w.db.sessions && c in done && Stale(w, c)
  }

  function ReclaimedFrom(w: Scene, done: set<SessionId>): Scene {
    w.(db := w.db.(sessions := map c | c in w.db.sessions :: if c in done && Stale(w, c) then BackInPool(w.db.sessions[c]) else w.db.sessions[c]),
       offered := w.offered + multiset(StaleIn(w, done)))
  }

  /** On shift, without an open call, and gone. */
  predicate DeadShift(w: Scene, o: UserId) {
    IsOperator(w.db, o) && OnShift(w.db, o) && OpenCalls(w.db, o) == {} && Gone(w, o)
  }

  function DroppedFrom(w: Scene, done: set<UserId>): Scene {
    w.(db := w.db.(users := map u | u in w.db.users ::
      if u in done && DeadShift(w, u) then w.db.users[u].(onShift := false, shiftStartedAt := None) else w.db.users[u]))
  }

  /** A live socket counts as a beat. */
  function Refreshed(w: Scene, connected: set<UserId>): Scene {
    w.(beats := map o | o in w.beats.Keys + connected :: if o in connected then w.now else w.beats[o])
  }

  function QuietTick(w: Scene, connected: set<UserId>): Scene {
    var w1 := Refreshed(w, connected);
    var w2 := ReclaimedFrom(w1, w1.db.sessions.Keys);
    DroppedFrom(w2, w2.db.users.Keys)
  }

  /** One entry of the schedule is used up. */
  lemma Consumed(script: Script, schedule: Schedule)
    requires schedule.Slot?
    ensures var script', rest := WithOthers(script, schedule.acts), schedule.rest;
            && OthersOf(script') + Flat(rest) == OthersOf(script) + Flat(schedule)
            && DroppedIn(script') == DroppedIn(script)
            && GoesOn(script, script') && (Unjudged(script) ==> Unjudged(script'))
            && (NoFailures(schedule) ==> NoFailures(rest) && !schedule.fails)
            && (Quiet(schedule) ==> Quiet(rest) && !schedule.fails && schedule.acts == [] && script' == script)
  {
    OnlyOthersAdded(script, schedule.acts);
  }

  /** The steps the schedule still holds for the other actors. */
  function Flat(schedule: Schedule): seq<Act> {
    match schedule
    case Over => []
    case Slot(acts, _, _, rest) => acts + Flat(rest)
  }

  predicate NoFailures(schedule: Schedule) {
    schedule.Slot? ==> !schedule.fails && NoFailures(schedule.rest)
  }

  /** Nobody else acts, and every store answers. */
  predicate Quiet(schedule: Schedule) {
    schedule.Slot? ==> schedule.acts == [] && !schedule.fails && Quiet(schedule.rest)
  }

  function Members(list: seq<nat>): set<nat> {
    set x | x in list
  }

  lemma MembersAdd(list: seq<nat>, x: nat)
    ensures Members(list + [x]) == Members(list) + {x}
  {}

  predicate Distinct(list: seq<nat>) {
    forall j, k :: 0 <= j < k < |list| ==> list[j] != list[k]
  }

  lemma MembersSplit(list: seq<nat>)
    requires list != [] && Distinct(list)
    ensures var init, last := list[..|list| - 1], list[|list| - 1];
            Distinct(init) && Members(list) == Members(init) + {last} && last !in Members(init)
  {
    assert list == list[..|list| - 1] + [list[|list| - 1]];
  }

  /** An undisturbed iteration of the loop. */
  function AfterOne(w: Scene, c: SessionId, o: UserId): Scene {
    if Silent(w, o) then TakenBack(w, c, o) else w
  }

  lemma ReclaimStep(w: Scene, done: set<SessionId>, c: SessionId, o: UserId)
    requires c !in done && WaitsFor(w.db, c, o)
    ensures ReclaimedFrom(w, done + {c}) == AfterOne(ReclaimedFrom(w, done), c, o)
  {
    var a, b := ReclaimedFrom(w, done), ReclaimedFrom(w, done + {c});
    if Stale(w, c) {
      assert StaleIn(w, done + {c}) == StaleIn(w, done) + {c};
      assert b.db.sessions == a.db.sessions[c := BackInPool(w.db.sessions[c])];
    } else {
      assert StaleIn(w, done + {c}) == StaleIn(w, done);
      assert b.db.sessions == a.db.sessions;
    }
  }

  /** A row of the query: a call and its assignee. */
  datatype Waiting = Waiting(id: SessionId, assignee: UserId)

  function Ids(list: seq<Waiting>): set<SessionId> {
    set x | x in list :: x.id
  }

  /** The list is what the rows say: calls that wait, each once, with their assignees. */
  predicate Snapshot(db: Db, list: seq<Waiting>) {
    && (forall j, k :: 0 <= j < k < |list| ==> list[j].id != list[k].id)
    && (forall j :: 0 <= j < |list| ==> WaitsFor(db, list[j].id, list[j].assignee))
  }

  // The three loops, one entry after the other.

  function KeptInTurn(w: Scene, ids: seq<UserId>): Scene {
    if ids == [] then w else ItemAfter(KeptInTurn(w, ids[..|ids| - 1]), KeptAlive(ids[|ids| - 1]))
  }

  function ReclaimedInTurn(w: Scene, list: seq<Waiting>): Scene {
    if list == [] then w
    else
      var x := list[|list| - 1];
      AfterOne(ReclaimedInTurn(w, list[..|list| - 1]), x.id, x.assignee)
  }

  function DroppedInTurn(w: Scene, dead: seq<UserId>): Scene {
    if dead == [] then w else ItemAfter(DroppedInTurn(w, dead[..|dead| - 1]), Dropped(dead[|dead| - 1]))
  }

  lemma {:induction false} KeptIsRefreshed(w: Scene, ids: seq<UserId>)
    requires Distinct(ids)
    ensures KeptInTurn(w, ids) == Refreshed(w, Members(ids))
  {
    if ids == [] {
      assert Refreshed(w, Members(ids)).beats == w.beats;
    } else {
      var init := ids[..|ids| - 1];
      MembersSplit(ids);
      KeptIsRefreshed(w, init);
      assert Refreshed(w, Members(ids)).beats == Refreshed(w, Members(init)).beats[ids[|ids| - 1] := w.now];
    }
  }

  lemma {:induction false} ReclaimedIsReclaimedFrom(w: Scene, list: seq<Waiting>)
    requires Snapshot(w.db, list)
    ensures ReclaimedInTurn(w, list) == ReclaimedFrom(w, Ids(list))
  {
    if list == [] {
      assert ReclaimedFrom(w, Ids(list)).db.sessions == w.db.sessions;
      assert StaleIn(w, Ids(list)) == {};
    } else {
      var init, x := list[..|list| - 1], list[|list| - 1];
      assert list == init + [x];
      assert Ids(list) == Ids(init) + {x.id} && x.id !in Ids(init);
      ReclaimedIsReclaimedFrom(w, init);
      ReclaimStep(w, Ids(init), x.id, x.assignee);
    }
  }

  lemma DropStep(w: Scene, done: set<UserId>, o: UserId)
    requires o !in done && DeadShift(w, o)
    ensures DroppedFrom(w, done + {o}) == ItemAfter(DroppedFrom(w, done), Dropped(o))
  {
    var a := DroppedFrom(w, done);
    assert OpenCalls(a.db, o) == OpenCalls(w.db, o);
    assert DroppedFrom(w, done + {o}).db.users == a.db.users[o := w.db.users[o].(onShift := false, shiftStartedAt := None)];
  }

  lemma {:induction false} DroppedIsDroppedFrom(w: Scene, dead: seq<UserId>)
    requires Distinct(dead) && forall o :: o in dead ==> DeadShift(w, o)
    ensures DroppedInTurn(w, dead) == DroppedFrom(w, Members(dead))
  {
    if dead == [] {
      assert DroppedFrom(w, Members(dead)).db.users == w.db.users;
    } else {
      MembersSplit(dead);
      DroppedIsDroppedFrom(w, dead[..|dead| - 1]);
      DropStep(w, Members(dead[..|dead| - 1]), dead[|dead| - 1]);
    }
  }

  /** The operators of the list who have been silent for too long. */
  function GoneOf(w: Scene, list: seq<UserId>): seq<UserId> {
    if list == [] then []
    else
      var o := list[|list| - 1];
      GoneOf(w, list[..|list| - 1]) + (if Gone(w, o) then [o] else [])
  }

  lemma {:induction false} GoneOnly(w: Scene, list: seq<UserId>)
    ensures forall o :: o in GoneOf(w, list) <==> o in list && Gone(w, o)
    ensures Distinct(list) ==> Distinct(GoneOf(w, list))
  {
    if list != [] {
      GoneOnly(w, list[..|list| - 1]);
      if Distinct(list) { MembersSplit(list); }
      assert list == list[..|list| - 1] + [list[|list| - 1]];
    }
  }

  lemma DropAll(w: Scene, done: set<UserId>)
    requires forall o :: DeadShift(w, o) ==> o in done
    ensures DroppedFrom(w, done) == DroppedFrom(w, w.db.users.Keys)
  {}

  lemma ReclaimAll(w: Scene, done: set<SessionId>)
    requires forall c :: Stale(w, c) ==> c in done
    ensures ReclaimedFrom(w, done) == ReclaimedFrom(w, w.db.sessions.Keys)
  {}

  // ---- What a tick achieves whatever others do ----

  /** At some moment from `from` to `to` the operator has been heard of or the call does not wait for him. */
  ghost predicate LetGo(w: Scene, from: Script, to: Script, c: SessionId, o: UserId) {
    exists p :: GoesOn(from, p) && GoesOn(p, to) && !(Silent(Played(w, p), o) && WaitsFor(Played(w, p).db, c, o))
  }

  /** At some moment from `from` to `to` the operator is no dead shift. */
  ghost predicate ShiftLetGo(w: Scene, from: Script, to: Script, o: UserId) {
    exists p :: GoesOn(from, p) && GoesOn(p, to) && !DeadShift(Played(w, p), o)
  }

  ghost predicate AllLetGo(w: Scene, from: Script, to: Script) {
    forall c, o :: LetGo(w, from, to, c, o)
  }

  ghost predicate AllShiftsLetGo(w: Scene, from: Script, to: Script) {
    forall o :: ShiftLetGo(w, from, to, o)
  }

  lemma LetGoWithin(w: Scene, from: Script, from': Script, to': Script, to: Script, c: SessionId, o: UserId)
    requires GoesOn(from, from') && GoesOn(to', to) && LetGo(w, from', to', c, o)
    ensures LetGo(w, from, to, c, o)
  {
    var p :| GoesOn(from', p) && GoesOn(p, to') && !(Silent(Played(w, p), o) && WaitsFor(Played(w, p).db, c, o));
    GoesOnAndOn(from, from', p);
    GoesOnAndOn(p, to', to);
  }

  lemma ShiftLetGoWithin(w: Scene, from: Script, from': Script, to': Script, to: Script, o: UserId)
    requires GoesOn(from, from') && GoesOn(to', to) && ShiftLetGo(w, from', to', o)
    ensures ShiftLetGo(w, from, to, o)
  {
    var p :| GoesOn(from', p) && GoesOn(p, to') && !DeadShift(Played(w, p), o);
    GoesOnAndOn(from, from', p);
    GoesOnAndOn(p, to', to);
  }

  /** The first `n` rows of the query. */
  ghost predicate EachLetGo(w: Scene, from: Script, to: Script, list: seq<Waiting>, n: nat)
    requires n <= |list|
  {
    forall i :: 0 <= i < n ==> LetGo(w, from, to, list[i].id, list[i].assignee)
  }

  lemma OneMoreLetGo(w: Scene, from: Script, before: Script, to: Script, list: seq<Waiting>, n: nat)
    requires n < |list| && GoesOn(from, before) && GoesOn(before, to)
    requires EachLetGo(w, from, before, list, n) && LetGo(w, from, to, list[n].id, list[n].assignee)
    ensures EachLetGo(w, from, to, list, n + 1)
  {
    forall i | 0 <= i < n ensures LetGo(w, from, to, list[i].id, list[i].assignee) {
      LetGoWithin(w, from, from, before, to, list[i].id, list[i].assignee);
    }
  }

  /** Whatever is not among the rows read did not wait when they were read. */
  lemma ReadMeansAll(w: Scene, from: Script, read: Script, to: Script, list: seq<Waiting>)
    requires GoesOn(from, read) && GoesOn(read, to) && Snapshot(Played(w, read).db, list)
    requires forall c, o :: WaitsFor(Played(w, read).db, c, o) ==> c in Ids(list)
    requires EachLetGo(w, read, to, list, |list|)
    ensures AllLetGo(w, from, to)
  {
    forall c, o ensures LetGo(w, from, to, c, o) {
      if WaitsFor(Played(w, read).db, c, o) {
        var x :| x in list && x.id == c;
        assert WaitsFor(Played(w, read).db, x.id, x.assignee);
        LetGoWithin(w, from, read, to, to, c, o);
      }
    }
  }

  /** The first `n` operators judged gone. */
  ghost predicate EachShiftLetGo(w: Scene, from: Script, to: Script, dead: seq<UserId>, n: nat)
    requires n <= |dead|
  {
    forall i :: 0 <= i < n ==> ShiftLetGo(w, from, to, dead[i])
  }

  lemma OneMoreShiftLetGo(w: Scene, from: Script, before: Script, to: Script, dead: seq<UserId>, n: nat)
    requires n < |dead| && GoesOn(from, before) && GoesOn(before, to)
    requires EachShiftLetGo(w, from, before, dead, n) && ShiftLetGo(w, from, to, dead[n])
    ensures EachShiftLetGo(w, from, to, dead, n + 1)
  {
    forall i | 0 <= i < n ensures ShiftLetGo(w, from, to, dead[i]) {
      ShiftLetGoWithin(w, from, from, before, to, dead[i]);
    }
  }

  /** Who was not read as on shift and free, or not judged gone, was no dead shift then. */
  lemma NotFoundMeansLetGo(w: Scene, from: Script, read: Script, judging: Script, to: Script, onShift: seq<UserId>, dead: seq<UserId>, answered: bool)
    requires GoesOn(from, read) && GoesOn(read, judging) && GoesOn(judging, to)
    requires forall o :: DeadShift(Played(w, read), o) ==> o in onShift
    requires answered ==> forall o :: o in onShift && Gone(Played(w, judging), o) ==> o in dead
    ensures GoesOn(from, to)
    ensures answered ==> forall o :: o in dead || ShiftLetGo(w, from, to, o)
  {
    GoesOnAndOn(from, read, judging);
    GoesOnAndOn(from, judging, to);
    GoesOnAndOn(read, judging, to);
    forall o | answered ensures o in dead || ShiftLetGo(w, from, to, o) {
      if o !in onShift {
        assert !DeadShift(Played(w, read), o);
      } else if o !in dead {
        assert !DeadShift(Played(w, judging), o);
      }
    }
  }

  lemma FoundMeansAll(w: Scene, from: Script, found: Script, to: Script, dead: seq<UserId>)
    requires GoesOn(from, found) && GoesOn(found, to)
    requires forall o :: o in dead || ShiftLetGo(w, from, found, o)
    requires EachShiftLetGo(w, found, to, dead, |dead|)
    ensures AllShiftsLetGo(w, from, to)
  {
    forall o ensures ShiftLetGo(w, from, to, o) {
      if o in dead {
        var i :| 0 <= i < |dead| && dead[i] == o;
        ShiftLetGoWithin(w, from, found, to, to, o);
      } else {
        ShiftLetGoWithin(w, from, from, found, to, o);
      }
    }
  }

  ghost predicate KeptAll(connected: set<UserId>, script: Script) {
    forall o :: o in connected ==> KeptAlive(o) in Items(script)
  }

  /** A tick that came to its end: first every connected operator got a beat and nobody was judged; then
      no call kept waiting for a silent operator; then no dead shift lasted. */
  ghost predicate CompletedTick(w: Scene, connected: set<UserId>, script: Script) {
    exists first, mid ::
      && KeptAll(connected, first) && Unjudged(first)
      && GoesOn(first, mid) && AllLetGo(w, first, mid)
      && GoesOn(mid, script) && AllShiftsLetGo(w, mid, script)
  }

  // ---- The tick ----

  class CronService {
    const db: Database
    const redis: RedisService
    const gateway: WebsocketGateway

    constructor (db: Database, redis: RedisService, gateway: WebsocketGateway)
      requires gateway.db == db
      ensures this.db == db && this.redis == redis && this.gateway == gateway
    {
      this.db, this.redis, this.gateway := db, redis, gateway;
    }

    ghost function Present(): Scene
      reads db, redis, gateway
    {
      Scene(db.Rows(), redis.beats, redis.now, Offered(gateway.sent))
    }

    ghost predicate Valid()
      reads db, redis
    {
      gateway.db == db && redis.Valid() && Good(db.Rows())
    }

    /** The script so far is true, and leads from `w` to the present. */
    ghost predicate Told(w: Scene, script: Script)
      reads db, redis, gateway
    {
      Truthful(w, script) && Played(w, script) == Present()
    }

    method RunHandler(r: Request)
      requires Valid()
      modifies db
      ensures Valid() && db.Rows() == Committed(old(db.Rows()), r)
    {
      ghost var before := db.Rows();
      if Refusal(before, r) == None { CommitKeepsGood(before, r, Effect(before, r)); }
      var after := Committed(db.Rows(), r);
      db.users, db.sessions := after.users, after.sessions;
    }

    method Perform(act: Act)
      requires Valid()
      modifies db, redis
      ensures Valid() && Present() == ItemAfter(old(Present()), Other(act))
    {
      match act {
        case Handler(r) => RunHandler(r);
        case Ping(o) => redis.SetOperatorHeartbeat(o, 0);
        case Wait(ms) => redis.now := redis.now + ms;
      }
    }

    method OneAct(act: Act, ghost w: Scene, ghost script: Script) returns (ghost script': Script)
      requires Valid() && Told(w, script)
      modifies db, redis
      ensures Valid() && Told(w, script') && script' == Then(script, Other(act))
    {
      Perform(act);
      script' := Then(script, Other(act));
    }

    /** Other actors run between two statements. */
    method Others(acts: seq<Act>, ghost w: Scene, ghost script: Script) returns (ghost script': Script)
      requires Valid() && Told(w, script)
      modifies db, redis
      ensures Valid() && Told(w, script') && script' == WithOthers(script, acts)
      ensures acts == [] ==> Present() == old(Present())
    {
      script' := script;
      var i := 0;
      while i < |acts|
        invariant 0 <= i <= |acts|
        invariant Valid() && Told(w, script') && script' == WithOthers(script, acts[..i])
        invariant i == 0 ==> Present() == old(Present())
      {
        assert acts[..i + 1][..i] == acts[..i];
        script' := OneAct(acts[i], w, script');
        i := i + 1;
      }
      assert acts[..|acts|] == acts;
    }

    /** The former assignee, the requester and the admins get the card; the free operators get an offer. */
    method TellReclaimed(c: SessionId, operator: UserId, busyKnown: bool)
      requires c in db.sessions && gateway.db == db
      modifies gateway`sent
      ensures gateway.sent == old(gateway.sent) +
                [CardEvent(CallReassigned, c, db.sessions[c], AsSet(db.sessions[c].assignee) + {operator}), OfferEvent(db.Rows(), c, true, busyKnown)]
      ensures Offered(gateway.sent) == Offered(old(gateway.sent)) + multiset{c}
    {
      NamedPair(db.sessions[c].assignee, Some(operator));
      gateway.EmitCard(CallReassigned, c, db.sessions[c], [db.sessions[c].assignee, Some(operator)]);
      ghost var told := gateway.sent;
      OfferedMore(old(gateway.sent), told[|told| - 1]);
      gateway.OfferToFreeOperators(c, true, busyKnown);
      OfferedMore(told, gateway.sent[|told|]);
    }

    method TakeRow(c: SessionId, operator: UserId) returns (taken: bool)
      modifies db
      ensures taken <==> Refusal(old(db.Rows()), Reclaim(c, operator)) == None
      ensures db.Rows() == Committed(old(db.Rows()), Reclaim(c, operator))
    {
      taken := c in db.sessions && db.sessions[c].status == ASSIGNED && db.sessions[c].assignee == Some(operator);
      if taken {
        db.sessions := db.sessions[c := db.sessions[c].(status := NEW, assignee := None)];
      }
    }

    /** The conditional update of one stale call, and its events. */
    method ReclaimOne(c: SessionId, operator: UserId, busyKnown: bool) returns (answer: Outcome)
      requires gateway.db == db
      modifies db, gateway`sent
      ensures answer == Done <==> Refusal(old(db.Rows()), Reclaim(c, operator)) == None
      ensures db.Rows() == Committed(old(db.Rows()), Reclaim(c, operator))
      ensures gateway.World() == After(old(gateway.World()), Call(Reclaim(c, operator), busyKnown))
      ensures gateway.sent == old(gateway.sent) + Heard(old(gateway.World()), Call(Reclaim(c, operator), busyKnown))
      ensures Offered(gateway.sent) == Offered(old(gateway.sent)) + if answer == Done then multiset{c} else multiset{}
    {
      ReclaimAlone(gateway.World(), c, operator, busyKnown);
      var taken := TakeRow(c, operator);
      if !taken { return Refused(NoRowUpdated); }
      TellReclaimed(c, operator, busyKnown);
      return Done;
    }

    /** One entry of the schedule runs. */
    method Yield(schedule: Schedule, ghost w: Scene, ghost script: Script) returns (fails: bool, rest: Schedule, ghost script': Script)
      requires Valid() && Told(w, script)
      modifies db, redis
      ensures Valid() && Told(w, script') && GoesOn(script, script') && (Unjudged(script) ==> Unjudged(script'))
      ensures OthersOf(script') + Flat(rest) == OthersOf(script) + Flat(schedule) && DroppedIn(script') == DroppedIn(script)
      ensures NoFailures(schedule) ==> NoFailures(rest) && !fails
      ensures Quiet(schedule) ==> Quiet(rest) && !fails && script' == script && Present() == old(Present())
    {
      fails, rest, script' := false, schedule, script;
      if schedule.Slot? {
        Consumed(script, schedule);
        fails, rest := schedule.fails, schedule.rest;
        script' := Others(schedule.acts, w, script);
      }
    }

    method Take(c: SessionId, o: UserId, busyKnown: bool) returns (taken: bool)
      requires Valid()
      modifies db, gateway`sent
      ensures Valid()
      ensures taken <==> old(WaitsFor(db.Rows(), c, o))
      ensures Present() == ItemAfter(old(Present()), Reclaimed(c, o))
      ensures !taken ==> Present() == old(Present())
    {
      ghost var before := db.Rows();
      OwnWritesAreHandlers(Present(), c, o);
      var answer := ReclaimOne(c, o, busyKnown);
      taken := answer == Done;
      if taken { CommitKeepsGood(before, Reclaim(c, o), db.Rows()); }
    }

    method TryReclaim(c: SessionId, o: UserId, busyKnown: bool, ghost w: Scene, ghost script: Script) returns (ghost script': Script)
      requires Valid() && Told(w, script) && JudgedSilent(c, o) in Items(script)
      modifies db, gateway`sent
      ensures Valid() && Told(w, script') && GoesOn(script, script')
      ensures OthersOf(script') == OthersOf(script) && DroppedIn(script') == DroppedIn(script)
      ensures Present() == ItemAfter(old(Present()), Reclaimed(c, o))
    {
      script' := script;
      var taken := Take(c, o, busyKnown);
      if taken {
        script' := Then(script, Reclaimed(c, o));
      }
    }

    /** Read the heartbeat and compare it. */
    method Judge(c: SessionId, o: UserId, ghost w: Scene, ghost script: Script) returns (silent: bool, ghost script': Script)
      requires Valid() && Told(w, script)
      ensures silent == Silent(Present(), o)
      ensures script' == (if silent then Then(script, JudgedSilent(c, o)) else script)
      ensures Told(w, script') && OthersOf(script') == OthersOf(script) && DroppedIn(script') == DroppedIn(script)
    {
      var raw := redis.GetOperatorHeartbeat(o);
      silent := !IsHeartbeatFresh(raw, RECLAIM_ASSIGNMENT_THRESHOLD_MS, redis.now);
      script' := script;
      if silent {
        script' := Then(script, JudgedSilent(c, o));
      }
    }

    /** Judge the operator of the snapshot, then try the conditional update; if that fails, log and go on. */
    method ReclaimIfSilent(c: SessionId, o: UserId, schedule: Schedule, ghost w: Scene, ghost script: Script) returns (rest: Schedule, ghost script': Script)
      requires Valid() && Told(w, script)
      modifies db, redis, gateway`sent
      ensures Valid() && Told(w, script') && GoesOn(script, script')
      ensures OthersOf(script') + Flat(rest) == OthersOf(script) + Flat(schedule) && DroppedIn(script') == DroppedIn(script)
      ensures NoFailures(schedule) ==> NoFailures(rest) && LetGo(w, script, script', c, o)
      ensures Quiet(schedule) ==> Quiet(rest) && Present() == AfterOne(old(Present()), c, o)
    {
      var silent;
      silent, script' := Judge(c, o, w, script);
      if !silent {
        assert GoesOn(script, script);
        return schedule, script';
      }
      ghost var judged := script';
      var fails;
      fails, rest, script' := Yield(schedule, w, script');
      ItemsStay(judged, script');
      GoesOnAndOn(script, judged, script');
      if !fails {
        ghost var tried := script';
        script' := TryReclaim(c, o, schedule.Over? || schedule.busyKnown, w, script');
        GoesOnAndOn(script, tried, script');
        assert !WaitsFor(Played(w, script').db, c, o);
        assert GoesOn(script', script');
      }
    }

    /** One iteration; without an answer about the heartbeat the call stays where it is. */
    method OneCall(c: SessionId, o: UserId, schedule: Schedule, ghost w: Scene, ghost from: Script, ghost script: Script) returns (rest: Schedule, ghost script': Script)
      requires Valid() && Told(w, script) && GoesOn(from, script)
      modifies db, redis, gateway`sent
      ensures Valid() && Told(w, script') && GoesOn(script, script') && GoesOn(from, script')
      ensures OthersOf(script') + Flat(rest) == OthersOf(script) + Flat(schedule) && DroppedIn(script') == DroppedIn(script)
      ensures NoFailures(schedule) ==> NoFailures(rest) && LetGo(w, from, script', c, o)
      ensures Quiet(schedule) ==> Quiet(rest) && Present() == AfterOne(old(Present()), c, o)
    {
      var fails;
      fails, rest, script' := Yield(schedule, w, script);
      GoesOnAndOn(from, script, script');
      if !fails {
        ghost var before := script';
        rest, script' := ReclaimIfSilent(c, o, rest, w, script');
        GoesOnAndOn(script, before, script');
        GoesOnAndOn(from, before, script');
        if NoFailures(schedule) { LetGoWithin(w, from, before, script', script', c, o); }
      }
    }

    /** The next row of the snapshot. */
    method ReclaimEntry(stale: seq<Waiting>, i: nat, schedule: Schedule, ghost calm: bool, ghost w: Scene, ghost from: Script, ghost script: Script)
      returns (rest: Schedule, ghost script': Script)
      requires Valid() && Told(w, script) && GoesOn(from, script) && i < |stale|
      requires calm ==> NoFailures(schedule) && EachLetGo(w, from, script, stale, i)
      modifies db, redis, gateway`sent
      ensures Valid() && Told(w, script') && GoesOn(from, script')
      ensures OthersOf(script') + Flat(rest) == OthersOf(script) + Flat(schedule) && DroppedIn(script') == DroppedIn(script)
      ensures calm ==> NoFailures(rest) && EachLetGo(w, from, script', stale, i + 1)
      ensures Quiet(schedule) ==> Quiet(rest) && Present() == AfterOne(old(Present()), stale[i].id, stale[i].assignee)
    {
      rest, script' := OneCall(stale[i].id, stale[i].assignee, schedule, w, from, script);
      if calm { OneMoreLetGo(w, from, script, script', stale, i); }
    }

    /** The loop over the snapshot. */
    method ReclaimEach(stale: seq<Waiting>, schedule: Schedule, ghost w: Scene, ghost script: Script)
      returns (rest: Schedule, ghost script': Script)
      requires Valid() && Told(w, script)
      modifies db, redis, gateway`sent
      ensures Valid() && Told(w, script') && GoesOn(script, script')
      ensures OthersOf(script') + Flat(rest) == OthersOf(script) + Flat(schedule) && DroppedIn(script') == DroppedIn(script)
      ensures NoFailures(schedule) ==> NoFailures(rest) && EachLetGo(w, script, script', stale, |stale|)
      ensures Quiet(schedule) ==> Quiet(rest) && Present() == ReclaimedInTurn(old(Present()), stale)
    {
      ghost var w0, calm, quiet := Present(), NoFailures(schedule), Quiet(schedule);
      rest, script' := schedule, script;
      var i := 0;
      while i < |stale|
        invariant 0 <= i <= |stale|
        invariant Valid() && Told(w, script') && GoesOn(script, script')
        invariant OthersOf(script') + Flat(rest) == OthersOf(script) + Flat(schedule) && DroppedIn(script') == DroppedIn(script)
        invariant calm ==> NoFailures(rest) && EachLetGo(w, script, script', stale, i)
        invariant quiet ==> Quiet(rest) && Present() == ReclaimedInTurn(w0, stale[..i])
      {
        assert stale[..i + 1][..i] == stale[..i];
        rest, script' := ReclaimEntry(stale, i, rest, calm, w, script, script');
        i := i + 1;
      }
      assert stale[..|stale|] == stale;
    }

    /** The calls that wait for an operator, as one query reads them. */
    method FindWaiting() returns (stale: seq<Waiting>)
      ensures Snapshot(db.Rows(), stale)
      ensures forall c :: c in Ids(stale) <==> c in db.sessions && db.sessions[c].status == ASSIGNED && db.sessions[c].assignee.Some?
    {
      var ids := Listed(set c | c in db.sessions && db.sessions[c].status == ASSIGNED && db.sessions[c].assignee.Some?);
      var rows := db.sessions;
      assert forall i :: 0 <= i < |ids| ==> ids[i] in ids;
      stale := seq(|ids|, i requires 0 <= i < |ids| && ids[i] in rows && rows[ids[i]].assignee.Some? => Waiting(ids[i], rows[ids[i]].assignee.value));
      forall c ensures c in Ids(stale) <==> c in ids {
        if c in ids {
          var i :| 0 <= i < |ids| && ids[i] == c;
          assert stale[i] in stale && stale[i].id == c;
        }
      }
    }

    /** Calls that wait for a silent operator go back to the pool. */
    method ReclaimSilentCalls(schedule: Schedule, ghost w: Scene, ghost script: Script) returns (rest: Schedule, ghost script': Script)
      requires Valid() && Told(w, script)
      modifies db, redis, gateway`sent
      ensures Valid() && Told(w, script') && GoesOn(script, script')
      ensures OthersOf(script') + Flat(rest) == OthersOf(script) + Flat(schedule) && DroppedIn(script') == DroppedIn(script)
      ensures NoFailures(schedule) ==> NoFailures(rest) && AllLetGo(w, script, script')
      ensures Quiet(schedule) ==> Quiet(rest) && Present() == ReclaimedFrom(old(Present()), old(Present()).db.sessions.Keys)
    {
      ghost var w0 := Present();
      var fails;
      fails, rest, script' := Yield(schedule, w, script);
      if fails { return; }
      assert Quiet(schedule) ==> Present() == w0;
      var stale := FindWaiting();
      if Quiet(schedule) {
        ReclaimedIsReclaimedFrom(w0, stale);
        ReclaimAll(w0, Ids(stale));
      }
      ghost var read := script';
      rest, script' := ReclaimEach(stale, rest, w, script');
      GoesOnAndOn(script, read, script');
      if NoFailures(schedule) { ReadMeansAll(w, script, read, script', stale); }
    }

    /** Compare one entry of the batch. */
    method JudgeGone(o: UserId, heartbeats: map<UserId, Time>, ghost w: Scene, ghost script: Script) returns (gone: bool, ghost script': Script)
      requires Valid() && Told(w, script)
      requires o in heartbeats ==> o in redis.beats && heartbeats[o] == redis.beats[o]
      requires o in redis.beats && redis.now < redis.beats[o] + TTL_MS ==> o in heartbeats
      ensures gone == Gone(Present(), o)
      ensures script' == (if gone then Then(script, JudgedGone(o)) else script)
      ensures Told(w, script') && OthersOf(script') == OthersOf(script) && DroppedIn(script') == DroppedIn(script)
    {
      BatchAgrees(redis.beats, heartbeats, o, SHIFT_ALIVE_THRESHOLD_MS, redis.now);
      gone := o !in heartbeats || redis.now - heartbeats[o] >= SHIFT_ALIVE_THRESHOLD_MS;
      script' := script;
      if gone {
        script' := Then(script, JudgedGone(o));
      }
    }

    /** Which of the listed operators have been silent for too long. */
    method FindGone(list: seq<UserId>, ghost w: Scene, ghost script: Script) returns (dead: seq<UserId>, ghost script': Script)
      requires Valid() && Told(w, script)
      ensures Told(w, script') && GoesOn(script, script') && OthersOf(script') == OthersOf(script) && DroppedIn(script') == DroppedIn(script)
      ensures dead == GoneOf(Present(), list)
      ensures AllJudgedGone(dead) <= Items(script')
    {
      var heartbeats := redis.GetOperatorHeartbeats(list);
      dead, script' := [], script;
      var i := 0;
      while i < |list|
        invariant 0 <= i <= |list|
        invariant Told(w, script') && GoesOn(script, script') && OthersOf(script') == OthersOf(script) && DroppedIn(script') == DroppedIn(script)
        invariant dead == GoneOf(Present(), list[..i])
        invariant AllJudgedGone(dead) <= Items(script')
      {
        assert list[..i + 1][..i] == list[..i];
        var gone;
        ghost var before := script';
        gone, script' := JudgeGone(list[i], heartbeats, w, script');
        GoesOnAndOn(script, before, script');
        if gone { dead := dead + [list[i]]; }
        i := i + 1;
      }
      assert list[..|list|] == list;
    }

    /** The locked, conditional end of one shift. */
    method DropOne(o: UserId, ghost w: Scene, ghost script: Script) returns (dropped: bool, ghost script': Script)
      requires Valid() && Told(w, script) && JudgedGone(o) in Items(script)
      modifies db
      ensures Valid() && Told(w, script') && GoesOn(script, script') && OthersOf(script') == OthersOf(script)
      ensures script' == if dropped then Then(script, Dropped(o)) else script
      ensures Present() == ItemAfter(old(Present()), Dropped(o))
    {
      var open := db.CountOpenCalls(o);
      ghost var before := db.Rows();
      script' := script;
      dropped := o in db.users && db.users[o].onShift && open == 0;
      if dropped {
        db.users := db.users[o := db.users[o].(onShift := false, shiftStartedAt := None)];
        CommitKeepsGood(before, DropShift(o), db.Rows());
        script' := Then(script, Dropped(o));
      }
    }

    method DropWhileOthersRun(o: UserId, schedule: Schedule, ghost w: Scene, ghost judged: Script, ghost script: Script)
      returns (fails: bool, dropped: bool, rest: Schedule, ghost script': Script)
      requires Valid() && Told(w, script) && JudgedGone(o) in Items(judged) && GoesOn(judged, script)
      modifies db, redis
      ensures Valid() && Told(w, script') && GoesOn(script, script') && GoesOn(judged, script')
      ensures OthersOf(script') + Flat(rest) == OthersOf(script) + Flat(schedule)
      ensures DroppedIn(script') == DroppedIn(script) + (if dropped then {o} else {})
      ensures NoFailures(schedule) ==> NoFailures(rest) && !fails && ShiftLetGo(w, judged, script', o)
      ensures Quiet(schedule) ==> Quiet(rest) && !fails && Present() == ItemAfter(old(Present()), Dropped(o))
    {
      fails, rest, script' := Yield(schedule, w, script);
      GoesOnAndOn(judged, script, script');
      if fails { return fails, false, rest, script'; }
      ghost var before := script';
      ItemsStay(judged, before);
      dropped, script' := DropOne(o, w, before);
      GoesOnAndOn(script, before, script');
      GoesOnAndOn(judged, before, script');
      assert !DeadShift(Played(w, script'), o) && GoesOn(script', script');
    }

    /** One transaction per operator; the first that fails ends the loop. */
    method DropEach(dead: seq<UserId>, schedule: Schedule, ghost w: Scene, ghost script: Script)
      returns (fails: bool, ended: seq<UserId>, rest: Schedule, ghost script': Script)
      requires Valid() && Told(w, script)
      requires AllJudgedGone(dead) <= Items(script)
      modifies db, redis
      ensures Valid() && Told(w, script') && GoesOn(script, script')
      ensures OthersOf(script') + Flat(rest) == OthersOf(script) + Flat(schedule)
      ensures NoFailures(schedule) ==> NoFailures(rest) && !fails && EachShiftLetGo(w, script, script', dead, |dead|)
      ensures Quiet(schedule) ==> Quiet(rest) && !fails && Present() == DroppedInTurn(old(Present()), dead)
      ensures DroppedIn(script') == DroppedIn(script) + Members(ended)
    {
      ghost var w0, calm, quiet := Present(), NoFailures(schedule), Quiet(schedule);
      fails, ended, rest, script' := false, [], schedule, script;
      var i := 0;
      while i < |dead| && !fails
        invariant 0 <= i <= |dead|
        invariant Valid() && Told(w, script') && GoesOn(script, script')
        invariant OthersOf(script') + Flat(rest) == OthersOf(script) + Flat(schedule)
        invariant calm ==> NoFailures(rest) && !fails && EachShiftLetGo(w, script, script', dead, i)
        invariant quiet ==> Quiet(rest) && !fails && Present() == DroppedInTurn(w0, dead[..i])
        invariant DroppedIn(script') == DroppedIn(script) + Members(ended)
      {
        assert dead[..i + 1][..i] == dead[..i];
        assert JudgedGone(dead[i]) in AllJudgedGone(dead);
        ghost var before := script';
        var dropped;
        fails, dropped, rest, script' := DropWhileOthersRun(dead[i], rest, w, script, before);
        if dropped {
          MembersAdd(ended, dead[i]);
          ended := ended + [dead[i]];
        }
        if calm { OneMoreShiftLetGo(w, script, before, script', dead, i); }
        i := i + 1;
      }
      assert dead[..|dead|] == dead;
    }

    method FindFreeOnShift() returns (onShift: seq<UserId>)
      ensures Distinct(onShift)
      ensures forall o :: o in onShift <==> IsOperator(db.Rows(), o) && OnShift(db.Rows(), o) && OpenCalls(db.Rows(), o) == {}
    {
      onShift := Listed(set u | u in db.users && db.users[u].role == OPERATOR && db.users[u].onShift && OpenCalls(db.Rows(), u) == {});
    }

    /** Those of the list who have been silent for too long, if Redis answers. */
    method JudgeOnShift(onShift: seq<UserId>, schedule: Schedule, ghost w: Scene, ghost script: Script)
      returns (dead: seq<UserId>, rest: Schedule, ghost judging: Script, ghost script': Script)
      requires Valid() && Told(w, script) && Distinct(onShift)
      modifies db, redis
      ensures Valid() && Told(w, script') && GoesOn(script, judging) && GoesOn(judging, script')
      ensures OthersOf(script') + Flat(rest) == OthersOf(script) + Flat(schedule) && DroppedIn(script') == DroppedIn(script)
      ensures AllJudgedGone(dead) <= Items(script')
      ensures NoFailures(schedule) ==> NoFailures(rest) && forall o :: o in onShift && Gone(Played(w, judging), o) ==> o in dead
      ensures Quiet(schedule) ==> Quiet(rest) && Present() == old(Present())
      ensures Quiet(schedule) ==> Distinct(dead) && forall o :: o in dead <==> o in onShift && Gone(Present(), o)
    {
      var fails;
      fails, rest, script' := Yield(schedule, w, script);
      dead, judging := [], script';
      if fails { return; }
      dead, script' := FindGone(onShift, w, judging);
      GoneOnly(Present(), onShift);
    }

    /** The operators on shift without an open call who have been silent for too long, if the stores answer. */
    method FindDeadShifts(schedule: Schedule, ghost w: Scene, ghost script: Script)
      returns (dead: seq<UserId>, rest: Schedule, ghost script': Script)
      requires Valid() && Told(w, script)
      modifies db, redis
      ensures Valid() && Told(w, script') && GoesOn(script, script')
      ensures OthersOf(script') + Flat(rest) == OthersOf(script) + Flat(schedule) && DroppedIn(script') == DroppedIn(script)
      ensures AllJudgedGone(dead) <= Items(script')
      ensures NoFailures(schedule) ==> NoFailures(rest) && forall o :: o in dead || ShiftLetGo(w, script, script', o)
      ensures Quiet(schedule) ==> Quiet(rest) && Present() == old(Present())
      ensures Quiet(schedule) ==> Distinct(dead) && forall o :: o in dead <==> DeadShift(Present(), o)
    {
      dead := [];
      var fails;
      fails, rest, script' := Yield(schedule, w, script);
      if fails { return; }
      ghost var read, judging := script', script';
      var onShift := FindFreeOnShift();
      dead, rest, judging, script' := JudgeOnShift(onShift, rest, w, read);
      NotFoundMeansLetGo(w, script, read, judging, script', onShift, dead, NoFailures(schedule));
    }

    /** Ends the shifts of operators silent for too long who have no open call. Exactly those are told,
        unless a later transaction fails: then the shifts that ended before it end in silence. */
    method DropDeadShifts(schedule: Schedule, ghost w: Scene, ghost script: Script)
      returns (told: bool, ended: seq<UserId>, rest: Schedule, ghost script': Script)
      requires Valid() && Told(w, script)
      modifies db, redis, gateway
      ensures Valid() && Told(w, script') && GoesOn(script, script')
      ensures OthersOf(script') + Flat(rest) == OthersOf(script) + Flat(schedule)
      ensures DroppedIn(script') == DroppedIn(script) + Members(ended)
      ensures NoFailures(schedule) ==> NoFailures(rest) && told && AllShiftsLetGo(w, script, script')
      ensures Quiet(schedule) ==> Quiet(rest) && Present() == DroppedFrom(old(Present()), old(Present()).db.users.Keys)
      ensures gateway.sent == old(gateway.sent) + (if told then Endings(ended) else [])
      ensures gateway.sockets == if told then AllLeave(old(gateway.sockets), ended) else old(gateway.sockets)
    {
      ghost var w0 := Present();
      var dead, fails;
      dead, rest, script' := FindDeadShifts(schedule, w, script);
      if Quiet(schedule) {
        DroppedIsDroppedFrom(w0, dead);
        DropAll(w0, Members(dead));
      }
      ghost var found := script';
      fails, ended, rest, script' := DropEach(dead, rest, w, script');
      GoesOnAndOn(script, found, script');
      if NoFailures(schedule) { FoundMeansAll(w, script, found, script', dead); }
      told := !fails;
      if told {
        EndingsOfferNothing(gateway.sent, ended);
        TellEnded(ended);
      }
    }

    method TellEnded(ended: seq<UserId>)
      modifies gateway
      ensures gateway.sent == old(gateway.sent) + Endings(ended)
      ensures gateway.sockets == AllLeave(old(gateway.sockets), ended)
    {
      var i := 0;
      while i < |ended|
        invariant 0 <= i <= |ended|
        invariant gateway.sent == old(gateway.sent) + Endings(ended[..i])
        invariant gateway.sockets == AllLeave(old(gateway.sockets), ended[..i])
      {
        assert ended[..i + 1][..i] == ended[..i];
        gateway.EmitShiftEnded(ended[i]);
        gateway.SetOperatorShiftRoom(ended[i], false);
        i := i + 1;
      }
      assert ended[..|ended|] == ended;
    }

    method Beat(o: UserId, ghost w: Scene, ghost script: Script) returns (ghost script': Script)
      requires Valid() && Told(w, script)
      modifies redis
      ensures Valid() && Told(w, script') && script' == Then(script, KeptAlive(o))
      ensures OthersOf(script') == OthersOf(script) && DroppedIn(script') == DroppedIn(script)
      ensures Present() == ItemAfter(old(Present()), KeptAlive(o))
    {
      redis.SetOperatorHeartbeat(o, 0);
      script' := Then(script, KeptAlive(o));
    }

    /** One write of a heartbeat, which may fail without stopping the others. */
    method KeepAlive(o: UserId, schedule: Schedule, ghost w: Scene, ghost script: Script) returns (rest: Schedule, ghost script': Script)
      requires Valid() && Told(w, script) && Unjudged(script)
      modifies db, redis
      ensures Valid() && Told(w, script') && Unjudged(script') && Items(script) <= Items(script')
      ensures OthersOf(script') + Flat(rest) == OthersOf(script) + Flat(schedule) && DroppedIn(script') == DroppedIn(script)
      ensures NoFailures(schedule) ==> NoFailures(rest) && KeptAlive(o) in Items(script')
      ensures Quiet(schedule) ==> Quiet(rest) && Present() == ItemAfter(old(Present()), KeptAlive(o))
    {
      var fails;
      fails, rest, script' := Yield(schedule, w, script);
      ItemsStay(script, script');
      if !fails { script' := Beat(o, w, script'); }
    }

    method KeepEach(ids: seq<UserId>, schedule: Schedule, ghost w: Scene, ghost script: Script) returns (rest: Schedule, ghost script': Script)
      requires Valid() && Told(w, script) && Unjudged(script)
      modifies db, redis
      ensures Valid() && Told(w, script') && Unjudged(script')
      ensures OthersOf(script') + Flat(rest) == OthersOf(script) + Flat(schedule) && DroppedIn(script') == DroppedIn(script)
      ensures NoFailures(schedule) ==> NoFailures(rest) && forall j :: 0 <= j < |ids| ==> KeptAlive(ids[j]) in Items(script')
      ensures Quiet(schedule) ==> Quiet(rest) && Present() == KeptInTurn(old(Present()), ids)
    {
      ghost var w0, calm, quiet := Present(), NoFailures(schedule), Quiet(schedule);
      rest, script' := schedule, script;
      var i := 0;
      while i < |ids|
        invariant 0 <= i <= |ids|
        invariant Valid() && Told(w, script') && Unjudged(script')
        invariant OthersOf(script') + Flat(rest) == OthersOf(script) + Flat(schedule) && DroppedIn(script') == DroppedIn(script)
        invariant calm ==> NoFailures(rest) && forall j :: 0 <= j < i ==> KeptAlive(ids[j]) in Items(script')
        invariant quiet ==> Quiet(rest) && Present() == KeptInTurn(w0, ids[..i])
      {
        assert ids[..i + 1][..i] == ids[..i];
        rest, script' := KeepAlive(ids[i], rest, w, script');
        i := i + 1;
      }
      assert ids[..|ids|] == ids;
    }

    /** Every connected operator on shift gets a beat. */
    method RefreshPresence(schedule: Schedule, ghost w: Scene, ghost script: Script) returns (rest: Schedule, ghost script': Script)
      requires Valid() && Told(w, script) && Unjudged(script)
      modifies db, redis
      ensures Valid() && Told(w, script') && Unjudged(script')
      ensures OthersOf(script') + Flat(rest) == OthersOf(script) + Flat(schedule) && DroppedIn(script') == DroppedIn(script)
      ensures NoFailures(schedule) ==> NoFailures(rest) && KeptAll(ConnectedOnShift(gateway.sockets), script')
      ensures Quiet(schedule) ==> Quiet(rest) && Present() == Refreshed(old(Present()), ConnectedOnShift(gateway.sockets))
    {
      var connected := gateway.GetConnectedOnShiftOperatorIds();
      var ids := Listed(connected);
      assert Members(ids) == connected;
      KeptIsRefreshed(Present(), ids);
      rest, script' := KeepEach(ids, schedule, w, script);
    }

    /** The body of the tick. */
    method RunTick(schedule: Schedule) returns (told: bool, rest: Schedule, ended: seq<UserId>, ghost script: Script)
      requires Valid()
      modifies db, redis, gateway
      ensures Valid() && Told(old(Present()), script)
      ensures OthersOf(script) + Flat(rest) == Flat(schedule)
      ensures DroppedIn(script) == Members(ended)
      ensures NoFailures(schedule) ==> told && CompletedTick(old(Present()), ConnectedOnShift(old(gateway.sockets)), script)
      ensures Quiet(schedule) ==> Present() == QuietTick(old(Present()), ConnectedOnShift(old(gateway.sockets)))
    {
      ghost var w := Present();
      rest, script := RefreshPresence(schedule, w, Start);
      ghost var first := script;
      rest, script := ReclaimSilentCalls(rest, w, script);
      ghost var mid := script;
      told, ended, rest, script := DropDeadShifts(rest, w, mid);
      assert NoFailures(schedule) ==> GoesOn(first, mid) && GoesOn(mid, script);
    }

    /** The whole tick under its lock, while other actors run between its calls to the stores and any of
        these calls may fail. What it did is told truthfully by the script; undisturbed, it is exactly
        `QuietTick`. */
    method CheckStaleAssignments(schedule: Schedule, acquiring: Reply, releaseUp: bool)
      returns (ran: bool, told: bool, rest: Schedule, ended: seq<UserId>, ghost script: Script)
      requires Valid()
      modifies db, redis, gateway
      ensures Valid() && Told(old(Present()), script)
      ensures ran <==> acquiring.Answers? && !Live(old(redis.store), StaleAssignments, old(redis.now))
      ensures OthersOf(script) + Flat(rest) == Flat(schedule)
      ensures !ran ==> Present() == old(Present()) && gateway.sent == old(gateway.sent)
      ensures DroppedIn(script) == Members(ended)
      ensures NoFailures(schedule) ==> told
      ensures ran && NoFailures(schedule) ==> CompletedTick(old(Present()), ConnectedOnShift(old(gateway.sockets)), script)
      ensures ran && Quiet(schedule) ==> Present() == QuietTick(old(Present()), ConnectedOnShift(old(gateway.sockets)))
      ensures acquiring.ReplyLost? && !Live(old(redis.store), StaleAssignments, redis.now) ==>
                StaleAssignments in redis.store && redis.store[StaleAssignments].expiresAt == redis.now + 45_000
      ensures ran && releaseUp ==> !Owns(redis.store, StaleAssignments, old(redis.nextToken), redis.now)
    {
      ran, told, rest, ended, script := false, true, schedule, [], Start;
      if acquiring.Fails? { return; }
      var lockToken := redis.AcquireLock(StaleAssignments, STALE_LOCK_TTL_SECONDS);
      if acquiring.ReplyLost? || lockToken.None? { return; }
      ran := true;
      told, rest, ended, script := RunTick(schedule);
      if releaseUp { redis.ReleaseLock(StaleAssignments, lockToken.value); }
    }
  }
}
