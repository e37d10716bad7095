/** The handlers as they really run: any number of transactions, interleaved statement by statement. */
module Statements {
  import opened Rows
  import opened Handlers
  import opened Runs
  import opened Fanout

  type TxId = nat

  /** Where a handler stands. A stage its request does not have passes at once. */
  datatype Pc =
    | Began | Locked | Checked | Counted | Written  // the transaction is open from Locked on
    | Committed                                     // the event is not sent yet
    | Diagnosing                                    // rolled back, the row is to be re-read
    | Finished(outcome: Outcome)

  /** `before` is the assignee read ahead of the update; `updated` is the row the update returned. */
  datatype Tx = Tx(req: Request, pc: Pc, before: Option<UserId>, updated: Option<Session>)

  /** `db` holds the committed rows, the only ones a statement of another transaction sees.
      `held` and `told` only observe: who has ever held a call, who was sent its full card. */
  datatype State = State(
    db: Db,
    opLock: map<UserId, TxId>,
    rowLock: map<SessionId, TxId>,
    txs: seq<Tx>,
    held: set<(SessionId, UserId)>,
    told: set<(SessionId, UserId)>)

  datatype Label =
    | Begin(req: Request)
    | LockOperator(t: TxId)
    | ReadOperator(t: TxId)
    | CountCalls(t: TxId)
    | WriteRow(t: TxId)
    | Commit(t: TxId)
    | WriteAlone(t: TxId)
    | Reread(t: TxId)
    | Announce(t: TxId)
    | Fail(t: TxId)

  predicate InTransaction(x: Tx) {
    x.pc == Locked || x.pc == Checked || x.pc == Counted || x.pc == Written
  }

  predicate RowFree(s: State, r: Request) {
    Touches(r).Some? ==> Touches(r).value !in s.rowLock
  }

  predicate UserFree(s: State, r: Request) {
    WritesUser(r).Some? ==> WritesUser(r).value !in s.opLock
  }

  /** The statement can run now: it is next, and no row it must lock is locked. */
  predicate Enabled(s: State, l: Label) {
    if l.Begin? then true
    else
      && l.t < |s.txs|
      && var x := s.txs[l.t];
         match l
         case LockOperator(_) => x.pc == Began && Target(x.req).Some? && Target(x.req).value !in s.opLock
         case ReadOperator(_) => x.pc == Locked
         case CountCalls(_) => x.pc == Checked
         case WriteRow(_) => x.pc == Counted && RowFree(s, x.req)
         case Commit(_) => x.pc == Written
         case WriteAlone(_) => x.pc == Began && Target(x.req).None? && RowFree(s, x.req) && UserFree(s, x.req)
         case Reread(_) => x.pc == Diagnosing
         case Announce(_) => x.pc == Committed
         case Fail(_) => !x.pc.Finished?
  }

  function Opened(db: Db, r: Request): Tx {
    var refusal := Precheck(db, r);
    Tx(r, if refusal.Some? then Finished(Refused(refusal.value)) else Began,
       if ReadsBefore(r) then AssigneeIn(db, r.session) else None, None)
  }

  function Moved(s: State, t: TxId, pc: Pc): State
    requires t < |s.txs|
  {
    s.(txs := s.txs[t := s.txs[t].(pc := pc)])
  }

  /** The transaction ends: its row locks go. */
  function Released(s: State, t: TxId, pc: Pc): State
    requires t < |s.txs|
  {
    Moved(s, t, pc).(
      opLock := map o | o in s.opLock && s.opLock[o] != t :: s.opLock[o],
      rowLock := map c | c in s.rowLock && s.rowLock[c] != t :: s.rowLock[c])
  }

  function Stage(s: State, t: TxId, refusal: Option<Error>, pc: Pc): State
    requires t < |s.txs|
  {
    if refusal.Some? then Released(s, t, Finished(Refused(refusal.value))) else Moved(s, t, pc)
  }

  function Updated(db: Db, r: Request): Option<Session>
    requires Matches(db, r)
  {
    if Touches(r).Some? then Some(NewRow(db, r)) else None
  }

  /** The write becomes visible to everybody. */
  function Visible(s: State, r: Request): State
    requires Matches(s.db, r)
  {
    var row := Updated(s.db, r);
    s.(db := Effect(s.db, r),
       held := if row.Some? && row.value.assignee.Some? then s.held + {(Touches(r).value, row.value.assignee.value)} else s.held)
  }

  function Next(s: State, l: Label): State
    requires Enabled(s, l)
    requires l.Commit? ==> Matches(s.db, s.txs[l.t].req)
  {
    match l
    case Begin(r) => s.(txs := s.txs + [Opened(s.db, r)])
    case LockOperator(t) => Moved(s, t, Locked).(opLock := s.opLock[Target(s.txs[t].req).value := t])
    case ReadOperator(t) => Stage(s, t, ReadGuard(s.db, s.txs[t].req), Checked)
    case CountCalls(t) => Stage(s, t, CountGuard(s.db, s.txs[t].req), Counted)
    case WriteRow(t) =>
      var x := s.txs[t];
      if !Matches(s.db, x.req) then Released(s, t, Diagnosing)
      else
        s.(txs := s.txs[t := x.(pc := Written, updated := Updated(s.db, x.req))],
           rowLock := if Touches(x.req).Some? then s.rowLock[Touches(x.req).value := t] else s.rowLock)
    case Commit(t) => Released(Visible(s, s.txs[t].req), t, Committed)
    case WriteAlone(t) =>
      var x := s.txs[t];
      if !Matches(s.db, x.req) then Moved(s, t, Diagnosing)
      else Visible(s, x.req).(txs := s.txs[t := x.(pc := Committed, updated := Updated(s.db, x.req))])
    case Reread(t) => Moved(s, t, Finished(Refused(Diagnose(s.db, s.txs[t].req))))
    case Announce(t) =>
      var x := s.txs[t];
      Moved(s, t, Finished(Done)).(told :=
        if x.updated.Some? && Touches(x.req).Some?
        then s.told + set u | u in CardOperators(x.req, x.updated.value, x.before) :: (Touches(x.req).value, u)
        else s.told)
    case Fail(t) => Released(s, t, Finished(if s.txs[t].pc == Committed then HalfDone else RolledBack))
  }

  // ---- The invariant ----

  /** What has been established about a transaction, and still holds of the committed rows. */
  predicate TxOk(s: State, t: TxId)
    requires t < |s.txs|
  {
    var x := s.txs[t];
    && (InTransaction(x) ==> Target(x.req).Some? && Target(x.req).value in s.opLock && s.opLock[Target(x.req).value] == t)
    && (x.pc == Written && Touches(x.req).Some? ==> Touches(x.req).value in s.rowLock && s.rowLock[Touches(x.req).value] == t)
    && (x.pc.Finished? || x.req.DeleteOperator? || Precheck(s.db, x.req) == None)
    && (x.pc == Checked || x.pc == Counted || x.pc == Written ==> ReadGuard(s.db, x.req) == None)
    && (x.pc == Counted || x.pc == Written ==> CountGuard(s.db, x.req) == None)
    && (x.pc == Written ==> Matches(s.db, x.req) && x.updated == Updated(s.db, x.req))
  }

  /** Everybody the transaction is going to tell has held the call. */
  predicate AudienceOk(s: State, t: TxId)
    requires t < |s.txs|
  {
    var x := s.txs[t];
    && (x.before.Some? ==> Touches(x.req).Some? && (Touches(x.req).value, x.before.value) in s.held)
    && (x.pc == Committed && x.updated.Some? ==>
          && Touches(x.req).Some?
          && (x.updated.value.assignee.Some? ==> (Touches(x.req).value, x.updated.value.assignee.value) in s.held)
          && (x.req.Reclaim? ==> (x.req.session, x.req.operator) in s.held))
  }

  predicate LocksOk(s: State) {
    && (forall o :: o in s.opLock ==> s.opLock[o] < |s.txs| && InTransaction(s.txs[s.opLock[o]]) && Target(s.txs[s.opLock[o]].req) == Some(o))
    && (forall c :: c in s.rowLock ==> s.rowLock[c] < |s.txs| && s.txs[s.rowLock[c]].pc == Written && Touches(s.txs[s.rowLock[c]].req) == Some(c))
  }

  ghost predicate HistoryOk(s: State) {
    && (forall c :: c in s.db.sessions && s.db.sessions[c].assignee.Some? ==> (c, s.db.sessions[c].assignee.value) in s.held)
    && s.told <= s.held
  }

  ghost predicate Inv(s: State) {
    && Good(s.db)
    && (forall t :: 0 <= t < |s.txs| ==> TxOk(s, t))
    && (forall t :: 0 <= t < |s.txs| ==> AudienceOk(s, t))
    && LocksOk(s)
    && HistoryOk(s)
  }

  /** Nothing runs yet, and the history is what the rows say. */
  ghost predicate Initial(s: State) {
    && Good(s.db) && s.txs == [] && s.opLock == map[] && s.rowLock == map[] && s.told == {}
    && (forall c: SessionId, u: UserId :: (c, u) in s.held <==> AssigneeIn(s.db, c) == Some(u))
  }

  lemma InitialInv(s: State)
    requires Initial(s)
    ensures Inv(s)
  {}

  /** A write by somebody who holds other locks cannot undo what a transaction has established. */
  lemma WriteLeavesOthersOk(db: Db, w: Request, r: Request)
    requires Refusal(db, w) == None
    requires Target(r).Some? && Target(w) != Target(r) && WritesUser(w) != Target(r)
    ensures ReadGuard(db, r) == None ==> ReadGuard(Effect(db, w), r) == None
    ensures CountGuard(db, r) == None ==> CountGuard(Effect(db, w), r) == None
    ensures Matches(db, r) && (Touches(r).Some? ==> Touches(w) != Touches(r)) ==>
              Matches(Effect(db, w), r) && Updated(Effect(db, w), r) == Updated(db, r)
  {
    OthersCallsOnlyShrink(db, w, Target(r).value);
    if Touches(r).Some? && Touches(w) != Touches(r) && Touches(r).value in db.sessions {
      assert Effect(db, w).sessions[Touches(r).value] == db.sessions[Touches(r).value];
    }
  }

  /** The request whose write the statement makes visible, if it does. */
  function CommitsIn(s: State, l: Label): Option<Request> {
    if !Enabled(s, l) then None
    else if l.Commit? then Some(s.txs[l.t].req)
    else if l.WriteAlone? && Matches(s.db, s.txs[l.t].req) then Some(s.txs[l.t].req)
    else None
  }

  /** A commit is exactly the handler-at-once step in the state at the commit. */
  lemma CommitIsAtomic(s: State, l: Label)
    requires Inv(s) && Enabled(s, l)
    ensures l.Commit? ==> Matches(s.db, s.txs[l.t].req)
    ensures CommitsIn(s, l).Some? ==> Commits(s.db, CommitsIn(s, l).value, Next(s, l).db)
    ensures CommitsIn(s, l).None? ==> Next(s, l).db == s.db
  {
    if !l.Begin? { assert TxOk(s, l.t); }
  }

  lemma OperatorLocksStayOk(s: State, l: Label, o: UserId)
    requires LocksOk(s) && Enabled(s, l) && (l.Commit? ==> Matches(s.db, s.txs[l.t].req))
    requires l.WriteAlone? ==> !InTransaction(s.txs[l.t])
    requires o in Next(s, l).opLock
    ensures var t := Next(s, l).opLock[o];
            t < |Next(s, l).txs| && InTransaction(Next(s, l).txs[t]) && Target(Next(s, l).txs[t].req) == Some(o)
  {
    if o in s.opLock { assert s.opLock[o] < |s.txs|; }
  }

  lemma RowLocksStayOk(s: State, l: Label, c: SessionId)
    requires LocksOk(s) && Enabled(s, l) && (l.Commit? ==> Matches(s.db, s.txs[l.t].req))
    requires c in Next(s, l).rowLock
    ensures var t := Next(s, l).rowLock[c];
            t < |Next(s, l).txs| && Next(s, l).txs[t].pc == Written && Touches(Next(s, l).txs[t].req) == Some(c)
  {
    if c in s.rowLock { assert s.rowLock[c] < |s.txs|; }
  }

  lemma LocksStayOk(s: State, l: Label)
    requires Inv(s) && Enabled(s, l) && (l.Commit? ==> Matches(s.db, s.txs[l.t].req))
    ensures LocksOk(Next(s, l))
  {
    forall o | o in Next(s, l).opLock
      ensures var t := Next(s, l).opLock[o];
              t < |Next(s, l).txs| && InTransaction(Next(s, l).txs[t]) && Target(Next(s, l).txs[t].req) == Some(o)
    {
      OperatorLocksStayOk(s, l, o);
    }
    forall c | c in Next(s, l).rowLock
      ensures var t := Next(s, l).rowLock[c];
              t < |Next(s, l).txs| && Next(s, l).txs[t].pc == Written && Touches(Next(s, l).txs[t].req) == Some(c)
    {
      RowLocksStayOk(s, l, c);
    }
  }

  /** What a statement leaves of a transaction that does not run it: itself and its locks. */
  lemma OthersKeepLocks(s: State, l: Label, u: TxId)
    requires Enabled(s, l) && (l.Commit? ==> Matches(s.db, s.txs[l.t].req))
    requires u < |s.txs| && (l.Begin? || u != l.t)
    ensures u < |Next(s, l).txs| && Next(s, l).txs[u] == s.txs[u]
    ensures forall o :: o in s.opLock && s.opLock[o] == u ==> o in Next(s, l).opLock && Next(s, l).opLock[o] == u
    ensures forall c :: c in s.rowLock && s.rowLock[c] == u ==> c in Next(s, l).rowLock && Next(s, l).rowLock[c] == u
  {}

  /** A commit by another transaction does not conflict with what `u` has locked. */
  lemma LocksSeparate(s: State, l: Label, u: TxId)
    requires Inv(s) && CommitsIn(s, l).Some? && u < |s.txs| && u != l.t && InTransaction(s.txs[u])
    ensures var w := CommitsIn(s, l).value;
            var r := s.txs[u].req;
            && Target(r).Some? && Target(w) != Target(r) && WritesUser(w) != Target(r)
            && (s.txs[u].pc == Written && Touches(r).Some? ==> Touches(w) != Touches(r))
  {
    assert TxOk(s, u) && TxOk(s, l.t);
  }

  lemma EstablishedCarriesOver(s: State, s': State, u: TxId, w: Option<Request>)
    requires Good(s.db) && u < |s.txs| && TxOk(s, u) && u < |s'.txs| && s'.txs[u] == s.txs[u]
    requires forall o :: o in s.opLock && s.opLock[o] == u ==> o in s'.opLock && s'.opLock[o] == u
    requires forall c :: c in s.rowLock && s.rowLock[c] == u ==> c in s'.rowLock && s'.rowLock[c] == u
    requires w.None? ==> s'.db == s.db
    requires w.Some? ==> Commits(s.db, w.value, s'.db)
    requires w.Some? && InTransaction(s.txs[u]) ==>
               && Target(w.value) != Target(s.txs[u].req) && WritesUser(w.value) != Target(s.txs[u].req)
               && (s.txs[u].pc == Written && Touches(s.txs[u].req).Some? ==> Touches(w.value) != Touches(s.txs[u].req))
    ensures TxOk(s', u)
  {
    if w.Some? {
      CommitKeepsGood(s.db, w.value, s'.db);
      if InTransaction(s.txs[u]) { WriteLeavesOthersOk(s.db, w.value, s.txs[u].req); }
    }
  }

  lemma OthersStayOk(s: State, l: Label, u: TxId)
    requires Inv(s) && Enabled(s, l) && (l.Commit? ==> Matches(s.db, s.txs[l.t].req))
    requires u < |s.txs| && (l.Begin? || u != l.t)
    ensures TxOk(Next(s, l), u)
  {
    CommitIsAtomic(s, l);
    OthersKeepLocks(s, l, u);
    if CommitsIn(s, l).Some? && InTransaction(s.txs[u]) { LocksSeparate(s, l, u); }
    EstablishedCarriesOver(s, Next(s, l), u, CommitsIn(s, l));
  }

  lemma OwnStaysOk(s: State, l: Label)
    requires Inv(s) && Enabled(s, l) && (l.Commit? ==> Matches(s.db, s.txs[l.t].req))
    ensures TxOk(Next(s, l), if l.Begin? then |s.txs| else l.t)
  {
    if !l.Begin? {
      assert TxOk(s, l.t);
      if CommitsIn(s, l).Some? { CommittedStaysOk(s, l); }
    }
  }

  lemma CommittedStaysOk(s: State, l: Label)
    requires Inv(s) && Enabled(s, l) && (l.Commit? ==> Matches(s.db, s.txs[l.t].req)) && CommitsIn(s, l).Some?
    ensures TxOk(Next(s, l), l.t)
  {
    assert TxOk(s, l.t);
    CommitIsAtomic(s, l);
    CommitKeepsGood(s.db, CommitsIn(s, l).value, Next(s, l).db);
    assert Next(s, l).txs[l.t].pc == Committed;
  }

  lemma HistoryGrows(s: State, l: Label)
    requires HistoryOk(s) && Enabled(s, l) && (l.Commit? ==> Matches(s.db, s.txs[l.t].req))
    ensures s.held <= Next(s, l).held
    ensures forall c :: c in Next(s, l).db.sessions && Next(s, l).db.sessions[c].assignee.Some? ==>
              (c, Next(s, l).db.sessions[c].assignee.value) in Next(s, l).held
  {}

  /** The transaction that runs the statement, or the one that it begins. */
  lemma OwnAudienceStaysOk(s: State, l: Label)
    requires HistoryOk(s) && Enabled(s, l) && (l.Commit? ==> Matches(s.db, s.txs[l.t].req))
    requires !l.Begin? ==> TxOk(s, l.t) && AudienceOk(s, l.t)
    ensures AudienceOk(Next(s, l), if l.Begin? then |s.txs| else l.t)
  {
    HistoryGrows(s, l);
  }

  lemma AudienceStaysOk(s: State, l: Label, u: TxId)
    requires Inv(s) && Enabled(s, l) && (l.Commit? ==> Matches(s.db, s.txs[l.t].req))
    requires u < |Next(s, l).txs|
    ensures AudienceOk(Next(s, l), u)
  {
    HistoryGrows(s, l);
    if u < |s.txs| { assert AudienceOk(s, u) && TxOk(s, u); }
    if u == |s.txs| || (!l.Begin? && u == l.t) { OwnAudienceStaysOk(s, l); } else { OthersKeepLocks(s, l, u); }
  }

  lemma ToldHaveHeld(s: State, l: Label)
    requires Inv(s) && Enabled(s, l) && (l.Commit? ==> Matches(s.db, s.txs[l.t].req))
    ensures Next(s, l).told <= Next(s, l).held
  {
    HistoryGrows(s, l);
    if !l.Begin? { assert AudienceOk(s, l.t); }
  }

  /** Every statement of every interleaving keeps the invariant. */
  lemma StepKeepsInv(s: State, l: Label)
    requires Inv(s) && Enabled(s, l)
    ensures l.Commit? ==> Matches(s.db, s.txs[l.t].req)
    ensures Inv(Next(s, l))
  {
    CommitIsAtomic(s, l);
    var s' := Next(s, l);
    if CommitsIn(s, l).Some? {
      CommitKeepsGood(s.db, CommitsIn(s, l).value, s'.db);
    }
    LocksStayOk(s, l);
    HistoryGrows(s, l);
    ToldHaveHeld(s, l);
    OwnStaysOk(s, l);
    forall u | 0 <= u < |s'.txs| ensures AudienceOk(s', u) { AudienceStaysOk(s, l, u); }
    forall u | 0 <= u < |s'.txs| ensures TxOk(s', u) {
      if u < |s.txs| && (l.Begin? || u != l.t) { OthersStayOk(s, l, u); }
    }
  }
}
