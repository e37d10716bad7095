/** Concrete runs: what the operator lock excludes, and what it does not. */
module Witnesses {
  import opened Rows
  import opened Handlers
  import opened Runs
  import opened Fanout
  import opened Statements
  import opened Interleaving

  const ANN: UserId := 1
  const BOB: UserId := 2
  const CAT: UserId := 3
  const CALL: SessionId := 10
  const CALL2: SessionId := 11

  function OnDuty(): User { User(OPERATOR, None, true, Some(0)) }

  function Waiting(): Session { FreshSession(7, None, None, PERSONAL) }

  function HeldBy(o: UserId): Session { Waiting().(status := ASSIGNED, assignee := Some(o)) }

  function Staff(): map<UserId, User> {
    map[ANN := OnDuty(), BOB := OnDuty(), CAT := OnDuty()]
  }

  function Idle(sessions: map<SessionId, Session>, held: set<(SessionId, UserId)>): State {
    State(Db(Staff(), sessions), map[], map[], [], held, {})
  }

  /** The transaction goes on without having locked the operator row. */
  function SkipLock(s: State, t: TxId): State
    requires t < |s.txs|
  {
    Moved(s, t, Locked)
  }

  lemma Then(s: State, l: Label, labels: seq<Label>, s': State)
    requires Enabled(s, l) && (l.Commit? ==> Matches(s.db, s.txs[l.t].req))
    requires Leads(Next(s, l), labels, s')
    ensures Leads(s, [l] + labels, s')
  {}

  lemma {:induction false} Joined(s: State, a: seq<Label>, m: State, b: seq<Label>, s': State)
    requires Leads(s, a, m) && Leads(m, b, s')
    ensures Leads(s, a + b, s')
    decreases |a|
  {
    if a == [] {
      assert a + b == b;
    } else {
      Joined(Next(s, a[0]), a[1..], m, b, s');
      assert (a + b)[0] == a[0] && (a + b)[1..] == a[1..] + b;
    }
  }

  lemma Two(s: State, l: Label, m: State, k: Label, s': State)
    requires Enabled(s, l) && !l.Commit? && Next(s, l) == m
    requires Enabled(m, k) && !k.Commit? && Next(m, k) == s'
    ensures Leads(s, [l, k], s')
  {}

  /** A transaction without locks that has passed its guards writes and commits in two statements. */
  lemma WriteThenCommit(s: State, t: TxId) returns (s': State)
    requires t < |s.txs| && s.txs[t].pc == Counted && RowFree(s, s.txs[t].req) && Matches(s.db, s.txs[t].req)
    requires s.opLock == map[] && s.rowLock == map[]
    ensures Leads(s, [WriteRow(t), Commit(t)], s')
    ensures s'.db == Effect(s.db, s.txs[t].req) && s'.opLock == map[] && s'.rowLock == map[]
    ensures |s'.txs| == |s.txs| && forall u :: 0 <= u < |s.txs| && u != t ==> s'.txs[u] == s.txs[u]
  {
    var m := Next(s, WriteRow(t));
    s' := Next(m, Commit(t));
    assert Leads(s', [], s');
    Then(m, Commit(t), [], s');
    Then(s, WriteRow(t), [Commit(t)], s');
    assert [WriteRow(t)] + [Commit(t)] == [WriteRow(t), Commit(t)];
  }

  // ---- Two accepts of one operator ----

  /** Both accepts have reached `pc`, neither holds a lock on the operator row. */
  function Racing(p: Pc, q: Pc): State {
    Idle(map[CALL := Waiting(), CALL2 := Waiting()], {}).(
      txs := [Tx(Accept(CALL, ANN), p, None, None), Tx(Accept(CALL2, ANN), q, None, None)])
  }

  function BothWon(): Db {
    Db(Staff(), map[CALL := HeldBy(ANN), CALL2 := HeldBy(ANN)])
  }

  lemma BothCountZero()
    ensures Leads(Racing(Locked, Locked), [ReadOperator(0), ReadOperator(1)] + [CountCalls(0), CountCalls(1)], Racing(Counted, Counted))
  {
    Two(Racing(Locked, Locked), ReadOperator(0), Racing(Checked, Locked), ReadOperator(1), Racing(Checked, Checked));
    assert OpenCalls(Racing(Checked, Checked).db, ANN) == {};
    Two(Racing(Checked, Checked), CountCalls(0), Racing(Counted, Checked), CountCalls(1), Racing(Counted, Counted));
    Joined(Racing(Locked, Locked), [ReadOperator(0), ReadOperator(1)], Racing(Checked, Checked), [CountCalls(0), CountCalls(1)], Racing(Counted, Counted));
  }

  lemma BothWriteAndCommit() returns (s': State)
    ensures Leads(Racing(Counted, Counted), [WriteRow(0), Commit(0)] + [WriteRow(1), Commit(1)], s')
    ensures s'.db == BothWon()
  {
    var s4 := Racing(Counted, Counted);
    var s5 := WriteThenCommit(s4, 0);
    assert s5.db == Db(Staff(), map[CALL := HeldBy(ANN), CALL2 := Waiting()]);
    s' := WriteThenCommit(s5, 1);
    Joined(s4, [WriteRow(0), Commit(0)], s5, [WriteRow(1), Commit(1)], s');
  }

  lemma RaceWithoutLock() returns (labels: seq<Label>, s': State)
    ensures Leads(Racing(Locked, Locked), labels, s') && s'.db == BothWon()
  {
    var checks := [ReadOperator(0), ReadOperator(1)] + [CountCalls(0), CountCalls(1)];
    var commits := [WriteRow(0), Commit(0)] + [WriteRow(1), Commit(1)];
    BothCountZero();
    s' := BothWriteAndCommit();
    labels := checks + commits;
    Joined(Racing(Locked, Locked), checks, Racing(Counted, Counted), commits, s');
  }

  lemma BothBegin(r: Request, q: Request, sessions: map<SessionId, Session>)
    requires Precheck(Db(Staff(), sessions), r) == None && Precheck(Db(Staff(), sessions), q) == None
    requires !ReadsBefore(r) && !ReadsBefore(q)
    ensures SkipLock(SkipLock(Next(Next(Idle(sessions, {}), Begin(r)), Begin(q)), 0), 1) ==
              Idle(sessions, {}).(txs := [Tx(r, Locked, None, None), Tx(q, Locked, None, None)])
  {
    var begun := Next(Next(Idle(sessions, {}), Begin(r)), Begin(q));
    assert begun.txs == [Tx(r, Began, None, None), Tx(q, Began, None, None)];
  }

  lemma BothWonIsBad()
    ensures OpenCalls(BothWon(), ANN) == {CALL, CALL2} && !Good(BothWon())
  {
    assert IsOpenCall(BothWon(), CALL, ANN) && IsOpenCall(BothWon(), CALL2, ANN);
  }

  /** Two accepts by one operator, each of which skipped the lock, both count zero and both win. */
  lemma WithoutLockTwoOpenCalls() returns (s: State, labels: seq<Label>, s': State)
    ensures Initial(s)
    ensures Leads(SkipLock(SkipLock(Next(Next(s, Begin(Accept(CALL, ANN))), Begin(Accept(CALL2, ANN))), 0), 1), labels, s')
    ensures OpenCalls(s'.db, ANN) == {CALL, CALL2} && !Good(s'.db)
  {
    s := Idle(map[CALL := Waiting(), CALL2 := Waiting()], {});
    BothBegin(Accept(CALL, ANN), Accept(CALL2, ANN), s.db.sessions);
    labels, s' := RaceWithoutLock();
    BothWonIsBad();
  }

  // ---- An end of shift against an accept ----

  /** An end of shift and an accept of one operator, neither holding a lock on the operator row. */
  function Leaving(p: Pc, q: Pc): State {
    Idle(map[CALL := Waiting()], {}).(txs := [Tx(EndShift(ANN), p, None, None), Tx(Accept(CALL, ANN), q, None, None)])
  }

  lemma EvaluatedTooEarly()
    ensures Leads(Leaving(Locked, Locked), [ReadOperator(0), CountCalls(0)] + [ReadOperator(1), CountCalls(1)], Leaving(Counted, Counted))
  {
    assert OpenCalls(Leaving(Locked, Locked).db, ANN) == {};
    Two(Leaving(Locked, Locked), ReadOperator(0), Leaving(Checked, Locked), CountCalls(0), Leaving(Counted, Locked));
    Two(Leaving(Counted, Locked), ReadOperator(1), Leaving(Counted, Checked), CountCalls(1), Leaving(Counted, Counted));
    Joined(Leaving(Locked, Locked), [ReadOperator(0), CountCalls(0)], Leaving(Counted, Locked), [ReadOperator(1), CountCalls(1)], Leaving(Counted, Counted));
  }

  lemma AcceptOvertakes() returns (s': State)
    ensures Leads(Leaving(Counted, Counted), [WriteRow(1), Commit(1)] + [WriteRow(0), Commit(0)], s')
    ensures s'.db == Db(Staff()[ANN := User(OPERATOR, None, false, None)], map[CALL := HeldBy(ANN)])
  {
    var s4 := Leaving(Counted, Counted);
    var s5 := WriteThenCommit(s4, 1);
    s' := WriteThenCommit(s5, 0);
    Joined(s4, [WriteRow(1), Commit(1)], s5, [WriteRow(0), Commit(0)], s');
  }

  /** An end of shift that evaluated "no open calls" before an accept committed strands the call. */
  lemma WithoutLockStrandedCall() returns (s: State, labels: seq<Label>, s': State)
    ensures Initial(s)
    ensures var begun := SkipLock(SkipLock(Next(Next(s, Begin(EndShift(ANN))), Begin(Accept(CALL, ANN))), 0), 1);
            Leads(begun, labels, s')
    ensures IsOpenCall(s'.db, CALL, ANN) && !OnShift(s'.db, ANN)
  {
    s := Idle(map[CALL := Waiting()], {});
    BothBegin(EndShift(ANN), Accept(CALL, ANN), s.db.sessions);
    EvaluatedTooEarly();
    s' := AcceptOvertakes();
    labels := [ReadOperator(0), CountCalls(0)] + [ReadOperator(1), CountCalls(1)] + ([WriteRow(1), Commit(1)] + [WriteRow(0), Commit(0)]);
    Joined(Leaving(Locked, Locked), [ReadOperator(0), CountCalls(0)] + [ReadOperator(1), CountCalls(1)], Leaving(Counted, Counted),
           [WriteRow(1), Commit(1)] + [WriteRow(0), Commit(0)], s');
  }

  // ---- Whole handlers between the statements of another ----

  predicate NoLocks(s: State) {
    s.opLock == map[] && s.rowLock == map[]
  }

  lemma LocksAndReads(s: State, t: TxId) returns (s': State)
    requires NoLocks(s) && t < |s.txs| && s.txs[t].pc == Began && Target(s.txs[t].req).Some?
    requires ReadGuard(s.db, s.txs[t].req) == None
    ensures Leads(s, [LockOperator(t), ReadOperator(t)], s')
    ensures s' == s.(opLock := map[Target(s.txs[t].req).value := t], txs := s.txs[t := s.txs[t].(pc := Checked)])
  {
    var m := Next(s, LockOperator(t));
    s' := Next(m, ReadOperator(t));
    Two(s, LockOperator(t), m, ReadOperator(t), s');
  }

  lemma PassesGuards(s: State, t: TxId) returns (s': State)
    requires NoLocks(s) && t < |s.txs| && s.txs[t].pc == Began && Target(s.txs[t].req).Some?
    requires Refusal(s.db, s.txs[t].req) == None
    ensures Leads(s, [LockOperator(t), ReadOperator(t)] + [CountCalls(t), WriteRow(t)], s')
    ensures s'.db == s.db && s'.held == s.held && |s'.txs| == |s.txs|
    ensures s'.txs[t].pc == Written && s'.txs[t].req == s.txs[t].req && s'.txs[t].before == s.txs[t].before
    ensures s'.opLock == map[Target(s.txs[t].req).value := t] && s'.rowLock.Keys <= AsSet(Touches(s.txs[t].req))
    ensures forall c :: c in s'.rowLock ==> s'.rowLock[c] == t
    ensures forall u :: 0 <= u < |s.txs| && u != t ==> s'.txs[u] == s.txs[u]
  {
    var s2 := LocksAndReads(s, t);
    var s3 := Next(s2, CountCalls(t));
    s' := Next(s3, WriteRow(t));
    Two(s2, CountCalls(t), s3, WriteRow(t), s');
    Joined(s, [LockOperator(t), ReadOperator(t)], s2, [CountCalls(t), WriteRow(t)], s');
  }

  function Alone(t: TxId): seq<Label> {
    ([LockOperator(t), ReadOperator(t)] + [CountCalls(t), WriteRow(t)]) + [Commit(t)]
  }

  /** With no locks taken, a handler that nothing refuses can run through to its commit. */
  lemma RunsThrough(s: State, t: TxId) returns (s': State)
    requires NoLocks(s) && t < |s.txs| && s.txs[t].pc == Began && Target(s.txs[t].req).Some?
    requires Refusal(s.db, s.txs[t].req) == None
    ensures Leads(s, Alone(t), s') && NoLocks(s') && s'.db == Effect(s.db, s.txs[t].req)
    ensures |s'.txs| == |s.txs| && forall u :: 0 <= u < |s.txs| && u != t ==> s'.txs[u] == s.txs[u]
  {
    var m := PassesGuards(s, t);
    s' := Next(m, Commit(t));
    assert Leads(s', [], s');
    Then(m, Commit(t), [], s');
    assert [Commit(t)] + [] == [Commit(t)];
    Joined(s, [LockOperator(t), ReadOperator(t)] + [CountCalls(t), WriteRow(t)], m, [Commit(t)], s');
  }

  lemma TwoBegin(s: State, r: Request, q: Request) returns (s': State)
    requires NoLocks(s) && s.txs == []
    ensures Leads(s, [Begin(r), Begin(q)], s') && NoLocks(s')
    ensures s'.db == s.db && s'.held == s.held && s'.told == s.told && s'.txs == [Opened(s.db, r), Opened(s.db, q)]
  {
    var m := Next(s, Begin(r));
    s' := Next(m, Begin(q));
    Two(s, Begin(r), m, Begin(q), s');
  }

  /** The handler begun second runs through before the one begun first gets to its write. */
  lemma SecondOvertakes(s: State, r: Request, q: Request) returns (labels: seq<Label>, mid: State, s': State)
    requires NoLocks(s) && s.txs == [] && Target(r).Some? && Target(q).Some?
    requires Verdict(s.db, r) == None && Verdict(s.db, q) == None && Refusal(Effect(s.db, q), r) == None
    ensures Leads(s, [Begin(r), Begin(q)] + Alone(1), mid) && mid.db == Effect(s.db, q)
    ensures Leads(s, labels, s') && s'.db == mid.db && |s'.txs| == 2
    ensures s'.txs[0].req == r && s'.txs[0].before == Opened(s.db, r).before
    ensures Enabled(s', Commit(0))
  {
    var s0 := TwoBegin(s, r, q);
    mid := RunsThrough(s0, 1);
    Joined(s, [Begin(r), Begin(q)], s0, Alone(1), mid);
    var rest := [LockOperator(0), ReadOperator(0)] + [CountCalls(0), WriteRow(0)];
    s' := PassesGuards(mid, 0);
    labels := ([Begin(r), Begin(q)] + Alone(1)) + rest;
    Joined(s, [Begin(r), Begin(q)] + Alone(1), mid, rest, s');
  }

  /** Two deletions of one operator can both pass the unlocked check, and the second still commits
      where, run alone, it would be refused. */
  lemma BothDeletionsCommit() returns (s: State, labels: seq<Label>, s': State)
    ensures Initial(s) && Leads(s, labels, s')
    ensures Enabled(s', Commit(0)) && s'.txs[0].req == DeleteOperator(ANN, 2)
    ensures s'.db == Handle(s.db, DeleteOperator(ANN, 1)) && s'.db != s.db
    ensures Verdict(s'.db, DeleteOperator(ANN, 2)) == Some(OperatorNotFound)
  {
    s := Idle(map[], {});
    assert OpenCalls(s.db, ANN) == {};
    assert OpenCalls(Effect(s.db, DeleteOperator(ANN, 1)), ANN) == {};
    var mid;
    labels, mid, s' := SecondOvertakes(s, DeleteOperator(ANN, 2), DeleteOperator(ANN, 1));
  }

  /** A reassignment that read the assignee before another one took the call tells the wrong operator:
      BOB is about to lose the call to CAT, and the card will go to CAT and ANN. */
  lemma StaleReadMissesTheLoser() returns (s: State, labels: seq<Label>, s': State)
    ensures Initial(s) && Leads(s, labels, s') && Enabled(s', Commit(0))
    ensures s'.txs[0].req == Reassign(CALL, CAT) && s'.txs[0].before == Some(ANN) && AssigneeIn(s'.db, CALL) == Some(BOB)
  {
    s := Idle(map[CALL := HeldBy(ANN)], {(CALL, ANN)});
    assert OpenCalls(s.db, BOB) == {} && OpenCalls(s.db, CAT) == {};
    assert OpenCalls(Effect(s.db, Reassign(CALL, BOB)), CAT) == {};
    var mid;
    labels, mid, s' := SecondOvertakes(s, Reassign(CALL, CAT), Reassign(CALL, BOB));
  }

  /** A resolve that matched no row re-reads the call after another handler has run. */
  lemma RereadComesLate(s: State, r: Request, q: Request) returns (labels: seq<Label>, mid: State)
    requires NoLocks(s) && s.txs == [] && r.Resolve? && Target(q).Some?
    requires !Matches(s.db, r) && Verdict(s.db, q) == None
    ensures Leads(s, labels, mid) && mid.db == Effect(s.db, q)
    ensures Enabled(mid, Reread(0)) && mid.txs[0].req == r
  {
    var s0 := TwoBegin(s, r, q);
    var s1 := Next(s0, WriteAlone(0));
    mid := RunsThrough(s1, 1);
    Then(s0, WriteAlone(0), Alone(1), mid);
    labels := [Begin(r), Begin(q)] + ([WriteAlone(0)] + Alone(1));
    Joined(s, [Begin(r), Begin(q)], s0, [WriteAlone(0)] + Alone(1), mid);
  }

  /** The error can name a state the call is not in: a resolve is told "already closed" about a call
      that is open and assigned to its caller. */
  lemma OpenCallReportedClosed() returns (s: State, labels: seq<Label>, s': State)
    ensures Initial(s) && Leads(s, labels, s') && Enabled(s', Reread(0))
    ensures Next(s', Reread(0)).txs[0].pc == Finished(Refused(SessionAlreadyClosed)) && IsOpenCall(s'.db, CALL, ANN)
  {
    s := Idle(map[CALL := HeldBy(BOB)], {(CALL, BOB)});
    assert OpenCalls(s.db, ANN) == {};
    labels, s' := RereadComesLate(s, Resolve(CALL, ANN, "", 5), Reassign(CALL, ANN));
  }

  /** A locking handler whose update finds no row gives its locks back before it re-reads. */
  lemma MissesItsRow(s: State, t: TxId) returns (s': State)
    requires NoLocks(s) && t < |s.txs| && s.txs[t].pc == Began && Target(s.txs[t].req).Some? && Touches(s.txs[t].req).Some?
    requires ReadGuard(s.db, s.txs[t].req) == None && CountGuard(s.db, s.txs[t].req) == None && !Matches(s.db, s.txs[t].req)
    ensures Leads(s, [LockOperator(t), ReadOperator(t)] + [CountCalls(t), WriteRow(t)], s')
    ensures NoLocks(s') && s'.db == s.db && s'.txs == s.txs[t := s.txs[t].(pc := Diagnosing)]
  {
    var s2 := LocksAndReads(s, t);
    var s3 := Next(s2, CountCalls(t));
    s' := Next(s3, WriteRow(t));
    Two(s2, CountCalls(t), s3, WriteRow(t), s');
    Joined(s, [LockOperator(t), ReadOperator(t)], s2, [CountCalls(t), WriteRow(t)], s');
  }

  /** A locking handler misses its row, and another one runs through before it re-reads. */
  lemma MissedAndLate(s: State, r: Request, q: Request) returns (labels: seq<Label>, s': State)
    requires NoLocks(s) && s.txs == [] && Target(r).Some? && Touches(r).Some? && Target(q).Some?
    requires Precheck(s.db, r) == None && ReadGuard(s.db, r) == None && CountGuard(s.db, r) == None && !Matches(s.db, r)
    requires Verdict(s.db, q) == None
    ensures Leads(s, labels, s') && s'.db == Effect(s.db, q)
    ensures Enabled(s', Reread(0)) && s'.txs[0].req == r
  {
    var s0 := TwoBegin(s, r, q);
    var s1 := MissesItsRow(s0, 0);
    s' := RunsThrough(s1, 1);
    var miss := [LockOperator(0), ReadOperator(0)] + [CountCalls(0), WriteRow(0)];
    Joined(s0, miss, s1, Alone(1), s');
    labels := [Begin(r), Begin(q)] + (miss + Alone(1));
    Joined(s, [Begin(r), Begin(q)], s0, miss + Alone(1), s');
  }

  /** The answer a reassignment never gives when handlers run alone: it misses a call nobody holds, an
      assignment to the same operator commits, and the re-read finds him as the assignee. */
  lemma SameHolderIsReported() returns (s: State, labels: seq<Label>, s': State)
    ensures Initial(s) && Leads(s, labels, s') && Enabled(s', Reread(0)) && s'.txs[0].req == Reassign(CALL, ANN)
    ensures Next(s', Reread(0)).txs[0].pc == Finished(Refused(AlreadyAssignedToThisOperator))
  {
    s := Idle(map[CALL := Waiting()], {});
    assert OpenCalls(s.db, ANN) == {};
    labels, s' := MissedAndLate(s, Reassign(CALL, ANN), Assign(CALL, ANN));
  }

  /** Exactly when the re-read answer of a resolve is true: when the call is not the caller's, or is closed. */
  lemma ResolveAnswerIsTrueIff(s: State, t: TxId)
    requires Inv(s) && Enabled(s, Reread(t)) && s.txs[t].req.Resolve? && s.txs[t].req.session in s.db.sessions
    ensures var row := s.db.sessions[s.txs[t].req.session];
            var error := Diagnose(s.db, s.txs[t].req);
            (error == SessionAlreadyClosed ==> row.status == CLOSED) <==>
            !IsOpenCall(s.db, s.txs[t].req.session, s.txs[t].req.operator)
  {}
}
