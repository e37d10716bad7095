/** What holds of every interleaving of any number of handlers. */
module Interleaving {
  import opened Rows
  import opened Handlers
  import opened Runs
  import opened Fanout
  import opened Statements

  /** The labels are a schedule that leads from `s` to `s'`. */
  ghost predicate Leads(s: State, labels: seq<Label>, s': State)
    decreases |labels|
  {
    if labels == [] then s' == s
    else
      && Enabled(s, labels[0])
      && (labels[0].Commit? ==> Matches(s.db, s.txs[labels[0].t].req))
      && Leads(Next(s, labels[0]), labels[1..], s')
  }

  /** The handlers that committed, in the order of their commits. */
  ghost function Committed(s: State, labels: seq<Label>, s': State): seq<Request>
    requires Leads(s, labels, s')
    decreases |labels|
  {
    if labels == [] then []
    else
      var rest := Committed(Next(s, labels[0]), labels[1..], s');
      if CommitsIn(s, labels[0]).Some? then [CommitsIn(s, labels[0]).value] + rest else rest
  }

  /** Refinement: every interleaving leaves the rows that the committed handlers,
      each run alone in commit order, would leave. */
  lemma {:induction false} InterleavingRefinesRun(s: State, labels: seq<Label>, s': State)
    requires Inv(s) && Leads(s, labels, s')
    ensures Inv(s')
    ensures IsRun(s.db, Committed(s, labels, s'), s'.db)
    decreases |labels|
  {
    if labels != [] {
      var l := labels[0];
      StepKeepsInv(s, l);
      CommitIsAtomic(s, l);
      InterleavingRefinesRun(Next(s, l), labels[1..], s');
      var rest := Committed(Next(s, l), labels[1..], s');
      if CommitsIn(s, l).Some? {
        var r := CommitsIn(s, l).value;
        assert ([r] + rest)[0] == r && ([r] + rest)[1..] == rest;
      }
    }
  }

  /** No operator ever has two open calls, and nobody off shift has one, whatever is interleaved. */
  lemma OneCallPerOperatorOnShift(s: State, labels: seq<Label>, s': State, operator: UserId)
    requires Initial(s) && Leads(s, labels, s')
    ensures |OpenCalls(s'.db, operator)| <= 1
    ensures OpenCalls(s'.db, operator) != {} ==> OnShift(s'.db, operator)
    ensures forall c, d ::
              && c in s'.db.sessions && s'.db.sessions[c].assignee == Some(operator) && (s'.db.sessions[c].status == ASSIGNED || s'.db.sessions[c].status == IN_PROGRESS)
              && d in s'.db.sessions && s'.db.sessions[d].assignee == Some(operator) && (s'.db.sessions[d].status == ASSIGNED || s'.db.sessions[d].status == IN_PROGRESS)
              ==> c == d && operator in s'.db.users && s'.db.users[operator].onShift
  {
    InitialInv(s);
    InterleavingRefinesRun(s, labels, s');
    var calls := OpenCalls(s'.db, operator);
    if calls != {} {
      var c :| c in calls;
      assert IsOpenCall(s'.db, c, operator);
      forall d | d in calls ensures d == c { assert IsOpenCall(s'.db, d, operator); }
      assert calls == {c};
    }
    forall c | c in s'.db.sessions && s'.db.sessions[c].assignee == Some(operator) && (s'.db.sessions[c].status == ASSIGNED || s'.db.sessions[c].status == IN_PROGRESS)
      ensures IsOpenCall(s'.db, c, operator) {}
  }

  /** Status, assignee and closing time of every call fit together in every interleaving. */
  lemma CallsStayCoherent(s: State, labels: seq<Label>, s': State, c: SessionId)
    requires Initial(s) && Leads(s, labels, s') && c in s'.db.sessions
    ensures Coherent(s'.db.sessions[c])
    ensures c in Pool(s'.db) <==> s'.db.sessions[c].status == NEW
  {
    InitialInv(s);
    InterleavingRefinesRun(s, labels, s');
    assert Coherent(s'.db.sessions[c]);
  }

  /** While a call is not closed, committed claims minus returns say exactly whether somebody holds it. */
  lemma ClaimsMinusReturnsInterleaved(s: State, labels: seq<Label>, s': State, c: SessionId)
    requires Initial(s) && Leads(s, labels, s') && IsClosed(s'.db, c) == 0
    ensures IsRun(s.db, Committed(s, labels, s'), s'.db)
    ensures Balance(s.db, Committed(s, labels, s'), s'.db, c) == Held(s'.db, c) - Held(s.db, c)
  {
    InitialInv(s);
    InterleavingRefinesRun(s, labels, s');
    ClaimsMinusReturns(s.db, Committed(s, labels, s'), s'.db, c);
  }

  /** Of all closers racing for an open call exactly one commits, and none afterwards. */
  lemma OneCloserWins(s: State, labels: seq<Label>, s': State, c: SessionId)
    requires Initial(s) && Leads(s, labels, s')
    ensures CountClosings(Committed(s, labels, s'), c) == IsClosed(s'.db, c) - IsClosed(s.db, c)
    ensures IsClosed(s.db, c) == 1 ==> c in s'.db.sessions && s'.db.sessions[c] == s.db.sessions[c]
  {
    InitialInv(s);
    InterleavingRefinesRun(s, labels, s');
    ClosedExactlyOnce(s.db, Committed(s, labels, s'), s'.db, c);
    if IsClosed(s.db, c) == 1 {
      ClosedStaysFrozen(s.db, Committed(s, labels, s'), s'.db, c);
    }
  }

  // ---- Answers ----

  /** The answer a transaction ends with when the statement ends it. */
  function Answer(s: State, l: Label): Option<Outcome>
    requires Enabled(s, l) && (l.Commit? ==> Matches(s.db, s.txs[l.t].req))
  {
    var t := if l.Begin? then |s.txs| else l.t;
    if Next(s, l).txs[t].pc.Finished? then Some(Next(s, l).txs[t].pc.outcome) else None
  }

  /** A guard that refuses is right at that moment: run alone there, the handler refuses the same way. */
  lemma GuardsRefuseTruthfully(s: State, l: Label)
    requires Inv(s) && Enabled(s, l) && !l.Commit? && !l.Reread? && !l.Announce? && !l.Fail?
    ensures var r := if l.Begin? then l.req else s.txs[l.t].req;
            && (Answer(s, l).Some? ==>
                  && Answer(s, l).value.Refused?
                  && Some(Answer(s, l).value.error) == (if l.Begin? then Precheck(s.db, r) else Refusal(s.db, r)))
            && (!l.Begin? && Next(s, l).txs[l.t].pc == Diagnosing ==> Refusal(s.db, r) == Some(Diagnose(s.db, r)))
  {
    if !l.Begin? { assert TxOk(s, l.t); }
  }

  /** After a failed update: the answer of the re-read is right at that moment exactly if the handler run
      alone there would pass its guards and find no row to update. */
  lemma RereadIsTrueIff(s: State, t: TxId)
    requires Inv(s) && Enabled(s, Reread(t))
    ensures var r := s.txs[t].req;
            && Answer(s, Reread(t)) == Some(Refused(Diagnose(s.db, r)))
            && (Refusal(s.db, r) == Some(Diagnose(s.db, r)) <==> ReadGuard(s.db, r) == None && CountGuard(s.db, r) == None && !Matches(s.db, r))
  {
    DiagnosisIsTrueIff(s.db, s.txs[t].req);
  }

  /** The handlers whose update asks only for an open call, of the right requester where there is one. */
  predicate AsksForOpenOnly(r: Request) {
    r.Unassign? || r.CloseByAdmin? || r.CloseByUser? || r.AddLocation?
  }

  lemma CommitKeepsMismatch(db: Db, q: Request, db': Db, r: Request)
    requires Good(db) && Commits(db, q, db') && AsksForOpenOnly(r) && r.session in db.sessions && !Matches(db, r)
    ensures r.session in db'.sessions && !Matches(db', r) && Diagnose(db', r) == Diagnose(db, r)
  {
    if db.sessions[r.session].status == CLOSED { ClosedIsFrozen(db, q, db', r.session); }
  }

  lemma {:induction false} MismatchStays(db: Db, reqs: seq<Request>, db': Db, r: Request)
    requires Good(db) && IsRun(db, reqs, db') && AsksForOpenOnly(r) && r.session in db.sessions && !Matches(db, r)
    ensures r.session in db'.sessions && !Matches(db', r) && Diagnose(db', r) == Diagnose(db, r)
    decreases |reqs|
  {
    if reqs != [] {
      var next := Effect(db, reqs[0]);
      CommitKeepsMismatch(db, reqs[0], next, r);
      CommitKeepsGood(db, reqs[0], next);
      MismatchStays(next, reqs[1..], db', r);
    }
  }

  /** Unassigning, closing and locating answer rightly however late they re-read: closed is terminal, the
      requester never changes. Only a call raised under the id in between could change the answer. */
  lemma LateRereadIsRight(s: State, t: TxId, labels: seq<Label>, s': State)
    requires Inv(s) && Enabled(s, WriteAlone(t)) && AsksForOpenOnly(s.txs[t].req)
    requires !Matches(s.db, s.txs[t].req) && Leads(Next(s, WriteAlone(t)), labels, s')
    requires s.txs[t].req.session in s.db.sessions || s.txs[t].req.session !in s'.db.sessions
    ensures var r := s.txs[t].req;
            Refusal(s'.db, r) == Some(Diagnose(s'.db, r)) && Diagnose(s'.db, r) == Diagnose(s.db, r)
  {
    var s1 := Next(s, WriteAlone(t));
    StepKeepsInv(s, WriteAlone(t));
    InterleavingRefinesRun(s1, labels, s');
    if s.txs[t].req.session in s.db.sessions { MismatchStays(s.db, Committed(s1, labels, s'), s'.db, s.txs[t].req); }
    DiagnosisIsTrueIff(s'.db, s.txs[t].req);
  }

  /** A transaction that commits would have been accepted running alone at the commit, except that
      nothing re-tests that an operator being deleted is not deleted yet. */
  lemma CommitIsHandlerAtOnce(s: State, t: TxId)
    requires Inv(s) && Enabled(s, Commit(t))
    ensures Matches(s.db, s.txs[t].req)
    ensures Verdict(s.db, s.txs[t].req) == None <==>
              (s.txs[t].req.DeleteOperator? ==> IsLiveOperator(s.db, s.txs[t].req.operator))
    ensures Verdict(s.db, s.txs[t].req) == None ==> Next(s, Commit(t)).db == Handle(s.db, s.txs[t].req)
  {
    assert TxOk(s, t);
  }

  // ---- Who is told ----

  /** Somewhere along the schedule the operator is the assignee of the call. */
  ghost predicate WasAssignee(s: State, labels: seq<Label>, s': State, c: SessionId, u: UserId)
    requires Leads(s, labels, s')
    decreases |labels|
  {
    AssigneeIn(s.db, c) == Some(u) || (labels != [] && WasAssignee(Next(s, labels[0]), labels[1..], s', c, u))
  }

  lemma {:induction false} HeldMeansWasAssignee(s: State, labels: seq<Label>, s': State, c: SessionId, u: UserId)
    requires Inv(s) && Leads(s, labels, s') && (c, u) in s'.held
    ensures (c, u) in s.held || WasAssignee(s, labels, s', c, u)
    decreases |labels|
  {
    if labels != [] {
      StepKeepsInv(s, labels[0]);
      HeldMeansWasAssignee(Next(s, labels[0]), labels[1..], s', c, u);
      if (c, u) in Next(s, labels[0]).held && (c, u) !in s.held {
        assert AssigneeIn(Next(s, labels[0]).db, c) == Some(u);
        assert WasAssignee(Next(s, labels[0]), labels[1..], s', c, u);
      }
    }
  }

  /** Only an operator who has held the call by then is ever sent its full card. */
  lemma CardsGoToHoldersOnly(s: State, labels: seq<Label>, s': State, c: SessionId, u: UserId)
    requires Initial(s) && Leads(s, labels, s') && (c, u) in s'.told
    ensures WasAssignee(s, labels, s', c, u)
  {
    InitialInv(s);
    InterleavingRefinesRun(s, labels, s');
    HeldMeansWasAssignee(s, labels, s', c, u);
    if (c, u) in s.held { assert AssigneeIn(s.db, c) == Some(u); }
  }

  /** The operator a reassignment takes the call from is told about it exactly when the assignee
      read ahead of the update is still the assignee at the commit. */
  lemma LoserIsToldIff(s: State, t: TxId)
    requires Inv(s) && Enabled(s, Commit(t)) && s.txs[t].req.Reassign?
    ensures Matches(s.db, s.txs[t].req) && s.txs[t].updated.Some?
    ensures AssigneeIn(s.db, s.txs[t].req.session).Some?
    ensures var loser := AssigneeIn(s.db, s.txs[t].req.session).value;
            loser in CardOperators(s.txs[t].req, s.txs[t].updated.value, s.txs[t].before) <==>
            s.txs[t].before == Some(loser)
  {
    assert TxOk(s, t);
  }

  /** The same for the operator whose call an admin takes back or closes: an accept that commits between
      the early read and the update leaves him untold. */
  lemma RobbedIsToldIff(s: State, t: TxId)
    requires Inv(s) && Enabled(s, WriteAlone(t)) && (s.txs[t].req.Unassign? || s.txs[t].req.CloseByAdmin?)
    requires Matches(s.db, s.txs[t].req) && AssigneeIn(s.db, s.txs[t].req.session).Some?
    ensures var loser := AssigneeIn(s.db, s.txs[t].req.session).value;
            var x := Next(s, WriteAlone(t)).txs[t];
            x.pc == Pc.Committed && x.updated.Some? &&
            (loser in CardOperators(x.req, x.updated.value, x.before) <==> s.txs[t].before == Some(loser))
  {}

  // ---- No deadlock, and every finite set of handlers drains ----

  function Remaining(pc: Pc): nat {
    match pc
    case Began => 7
    case Locked => 6
    case Checked => 5
    case Counted => 4
    case Written => 3
    case Committed => 1
    case Diagnosing => 1
    case Finished(_) => 0
  }

  function Total(txs: seq<Tx>): nat {
    if txs == [] then 0 else Remaining(txs[0].pc) + Total(txs[1..])
  }

  lemma {:induction false} TotalAfterUpdate(txs: seq<Tx>, t: nat, x: Tx)
    requires t < |txs|
    ensures Total(txs[t := x]) == Total(txs) - Remaining(txs[t].pc) + Remaining(x.pc)
    ensures Total(txs) >= Remaining(txs[t].pc)
  {
    if t == 0 {
      assert txs[0 := x][1..] == txs[1..];
    } else {
      assert txs[t := x][1..] == txs[1..][t - 1 := x];
      TotalAfterUpdate(txs[1..], t - 1, x);
    }
  }

  lemma StepsMoveOneForward(s: State, l: Label)
    requires Inv(s) && Enabled(s, l) && !l.Begin? && (l.Commit? ==> Matches(s.db, s.txs[l.t].req))
    ensures |Next(s, l).txs| == |s.txs| && Remaining(Next(s, l).txs[l.t].pc) < Remaining(s.txs[l.t].pc)
    ensures Next(s, l).txs == s.txs[l.t := Next(s, l).txs[l.t]]
  {}

  lemma StepsUseUpTheTotal(s: State, l: Label)
    requires Inv(s) && Enabled(s, l) && !l.Begin? && (l.Commit? ==> Matches(s.db, s.txs[l.t].req))
    ensures Total(Next(s, l).txs) < Total(s.txs)
  {
    StepsMoveOneForward(s, l);
    TotalAfterUpdate(s.txs, l.t, Next(s, l).txs[l.t]);
  }

  /** Unless all handlers are finished, one of them can take its next statement: no deadlock. */
  lemma SomebodyCanMove(s: State, t: TxId)
    requires Inv(s) && t < |s.txs| && !s.txs[t].pc.Finished?
    ensures exists l :: Enabled(s, l) && !l.Begin? && !l.Fail?
  {
    if c :| c in s.rowLock {
      assert Enabled(s, Commit(s.rowLock[c]));
    } else if o :| o in s.opLock {
      var x := s.txs[s.opLock[o]];
      match x.pc {
        case Locked => assert Enabled(s, ReadOperator(s.opLock[o]));
        case Checked => assert Enabled(s, CountCalls(s.opLock[o]));
        case Counted => assert Enabled(s, WriteRow(s.opLock[o]));
        case Written => assert Enabled(s, Commit(s.opLock[o]));
      }
    } else {
      assert TxOk(s, t);
      match s.txs[t].pc {
        case Began =>
          if Target(s.txs[t].req).Some? {
            assert Enabled(s, LockOperator(t));
          } else {
            assert Enabled(s, WriteAlone(t));
          }
        case Committed => assert Enabled(s, Announce(t));
        case Diagnosing => assert Enabled(s, Reread(t));
      }
    }
  }

  predicate StartsNothing(labels: seq<Label>) {
    forall i :: 0 <= i < |labels| ==> !labels[i].Begin?
  }

  /** Under every scheduler the handlers already begun take at most `Total` statements, and when
      none of them can move any more all are finished. */
  lemma {:induction false} EveryScheduleDrains(s: State, labels: seq<Label>, s': State)
    requires Inv(s) && Leads(s, labels, s') && StartsNothing(labels)
    ensures |labels| + Total(s'.txs) <= Total(s.txs)
    ensures (forall l :: Enabled(s', l) ==> l.Begin? || l.Fail?) ==>
              forall t :: 0 <= t < |s'.txs| ==> s'.txs[t].pc.Finished?
    decreases |labels|
  {
    if labels == [] {
      forall t | 0 <= t < |s'.txs| && !s'.txs[t].pc.Finished?
        ensures exists l :: Enabled(s', l) && !l.Begin? && !l.Fail?
      {
        SomebodyCanMove(s', t);
      }
    } else {
      StepKeepsInv(s, labels[0]);
      StepsUseUpTheTotal(s, labels[0]);
      EveryScheduleDrains(Next(s, labels[0]), labels[1..], s');
    }
  }
}
