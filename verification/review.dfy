/** Deciding organization applications: any number of admins at once. */
module Review {
  import opened Rows
  import opened Presence

  type AppId = nat
  type ProcId = nat

  datatype AppStatus = PENDING | APPROVED | REJECTED

  /** One item of the stored JSON; None where the value has the wrong type. */
  datatype RawBranch = RawBranch(name: Option<string>, address: Option<string>, latitude: Option<real>, longitude: Option<real>)

  datatype Branch = Branch(name: string, address: string, latitude: Option<real>, longitude: Option<real>)

  datatype Application = Application(
    applicant: UserId,
    branches: Option<seq<RawBranch>>,  // None if the JSON is not an array
    status: AppStatus,
    organization: Option<OrgId>)

  // ---- parseApplicationBranches ----

  function TrimEnd(s: string): string {
    if s != [] && IsBlank(s[|s| - 1]) then TrimEnd(s[..|s| - 1]) else s
  }

  function Trim(s: string): string {
    TrimEnd(SkipBlanks(s))
  }

  /** `t` is `s` from its first to its last character that is no blank. */
  ghost predicate Stripped(s: string, t: string) {
    exists i, j ::
      && 0 <= i <= j <= |s| && t == s[i..j]
      && (forall k :: 0 <= k < i ==> IsBlank(s[k])) && (forall k :: j <= k < |s| ==> IsBlank(s[k]))
      && (t != "" ==> !IsBlank(t[0]) && !IsBlank(t[|t| - 1]))
  }

  lemma {:induction false} SkipsBlanks(s: string) returns (i: nat)
    ensures i <= |s| && SkipBlanks(s) == s[i..]
    ensures forall k :: 0 <= k < i ==> IsBlank(s[k])
    ensures i < |s| ==> !IsBlank(s[i])
  {
    if s != [] && IsBlank(s[0]) {
      i := SkipsBlanks(s[1..]);
      i := i + 1;
    } else {
      i := 0;
    }
  }

  lemma {:induction false} TrimsEnd(s: string) returns (j: nat)
    ensures j <= |s| && TrimEnd(s) == s[..j]
    ensures forall k :: j <= k < |s| ==> IsBlank(s[k])
    ensures j > 0 ==> !IsBlank(s[j - 1])
  {
    if s != [] && IsBlank(s[|s| - 1]) {
      j := TrimsEnd(s[..|s| - 1]);
      assert s[..|s| - 1][..j] == s[..j];
    } else {
      j := |s|;
      assert s[..j] == s;
    }
  }

  lemma TrimStrips(s: string)
    ensures Stripped(s, Trim(s))
  {
    var i := SkipsBlanks(s);
    var j := TrimsEnd(s[i..]);
    assert s[i..][..j] == s[i..i + j];
    forall k | i + j <= k < |s| ensures IsBlank(s[k]) { assert s[k] == s[i..][k - i]; }
  }

  /** The branch has a name with something other than blanks in it. */
  ghost predicate HasName(b: RawBranch) {
    b.name.Some? && exists k :: 0 <= k < |b.name.value| && !IsBlank(b.name.value[k])
  }

  lemma NamedMeansHasName(b: RawBranch)
    ensures Named(b) <==> HasName(b)
  {
    if b.name.Some? {
      var s := b.name.value;
      var i := SkipsBlanks(s);
      var j := TrimsEnd(s[i..]);
      if Trim(s) != "" {
        assert !IsBlank(s[i]);
      } else {
        assert i == |s|;
      }
    }
  }

  /** The row says of the branch what the application said of it. */
  ghost predicate RowOf(b: RawBranch, row: Branch) {
    && row.latitude == b.latitude && row.longitude == b.longitude
    && b.name.Some? && Stripped(b.name.value, row.name) && row.name != ""
    && (if b.address.Some? then Stripped(b.address.value, row.address) else row.address == "")
  }

  lemma CleanedIsRowOf(b: RawBranch)
    requires Named(b)
    ensures RowOf(b, Cleaned(b))
  {
    TrimStrips(b.name.value);
    if b.address.Some? { TrimStrips(b.address.value); }
  }

  /** One row per branch, in order. */
  ghost predicate RowsOf(branches: Option<seq<RawBranch>>, rows: seq<Branch>) {
    && branches.Some? && |rows| == |branches.value|
    && forall i :: 0 <= i < |rows| ==> RowOf(branches.value[i], rows[i])
  }

  lemma VenueRowsAreRowsOf(branches: Option<seq<RawBranch>>)
    requires Parses(branches)
    ensures RowsOf(branches, VenueRows(branches))
  {
    forall i | 0 <= i < |branches.value| ensures RowOf(branches.value[i], VenueRows(branches)[i]) { CleanedIsRowOf(branches.value[i]); }
  }

  predicate Named(b: RawBranch) {
    b.name.Some? && Trim(b.name.value) != ""
  }

  function Cleaned(b: RawBranch): Branch
    requires Named(b)
  {
    Branch(Trim(b.name.value), if b.address.Some? then Trim(b.address.value) else "", b.latitude, b.longitude)
  }

  predicate Parses(branches: Option<seq<RawBranch>>) {
    branches.Some? && branches.value != [] && forall i :: 0 <= i < |branches.value| ==> Named(branches.value[i])
  }

  /** One venue row per branch, in order. */
  function VenueRows(branches: Option<seq<RawBranch>>): seq<Branch>
    requires Parses(branches)
  {
    seq(|branches.value|, i requires 0 <= i < |branches.value| => Cleaned(branches.value[i]))
  }

  /** Some list exactly if there is at least one branch and each has a name; then one venue row per branch, in order. */
  method ParseApplicationBranches(branches: Option<seq<RawBranch>>) returns (rows: Option<seq<Branch>>)
    ensures rows.Some? <==> Parses(branches)
    ensures rows.Some? <==> branches.Some? && branches.value != [] && forall i :: 0 <= i < |branches.value| ==> HasName(branches.value[i])
    ensures rows.Some? ==> rows.value == VenueRows(branches) && RowsOf(branches, rows.value)
  {
    if branches.Some? {
      forall i | 0 <= i < |branches.value| ensures Named(branches.value[i]) <==> HasName(branches.value[i]) { NamedMeansHasName(branches.value[i]); }
    }
    if branches == None || branches.value == [] { return None; }
    var out := [];
    for i := 0 to |branches.value|
      invariant |out| == i
      invariant forall j :: 0 <= j < i ==> Named(branches.value[j]) && out[j] == Cleaned(branches.value[j])
    {
      var row := branches.value[i];
      if row.name == None || Trim(row.name.value) == "" { return None; }
      out := out + [Cleaned(row)];
    }
    assert out == VenueRows(branches);
    VenueRowsAreRowsOf(branches);
    return Some(out);
  }

  // ---- The rows ----

  /** `orgs` remembers the application an organization came from, `venues` its venue rows; `owners`
      maps a user to the organization his one OWNER membership names. */
  datatype Tables = Tables(
    apps: map<AppId, Application>,
    orgs: map<OrgId, AppId>,
    venues: map<OrgId, seq<Branch>>,
    owners: map<UserId, OrgId>)

  /** The commit of an approval that inserted the organization, these venues and the OWNER membership. */
  function Approval(t: Tables, a: AppId, org: OrgId, rows: seq<Branch>): Tables
    requires a in t.apps
  {
    t.(apps := t.apps[a := t.apps[a].(status := APPROVED, organization := Some(org))],
       orgs := t.orgs[org := a],
       venues := t.venues[org := rows],
       owners := t.owners[t.apps[a].applicant := org])
  }

  function Rejection(t: Tables, a: AppId): Tables
    requires a in t.apps
  {
    t.(apps := t.apps[a := t.apps[a].(status := REJECTED)])
  }

  // ---- Interleaved decisions ----

  datatype Decision = ToApprove(app: AppId) | ToReject(app: AppId)

  /** `Inserting(rows)`: the transaction has inserted the organization and these venues, seen by nobody else. */
  datatype Pc = Begun | SawPending(branches: seq<RawBranch>) | Inserting(branches: seq<RawBranch>, rows: seq<Branch>) | Claimed(rows: seq<Branch>) | Finished(decided: bool)

  datatype Proc = Proc(what: Decision, pc: Pc)

  /** The organization a process inserts gets a fresh id: the model uses the number of the process. */
  datatype State = State(tables: Tables, locks: map<AppId, ProcId>, procs: seq<Proc>)

  datatype Label =
    | Begin(what: Decision)
    | ReadStatus(p: ProcId)
    | OpenTransaction(p: ProcId)
    | InsertVenue(p: ProcId)
    | Claim(p: ProcId)
    | Commit(p: ProcId)
    | Reject(p: ProcId)
    | Fail(p: ProcId)

  predicate Pending(t: Tables, a: AppId) {
    a in t.apps && t.apps[a].status == PENDING
  }

  predicate Enabled(s: State, l: Label) {
    if l.Begin? then true
    else
      && l.p < |s.procs|
      && var x := s.procs[l.p];
         match l
         case ReadStatus(_) => x.what.ToApprove? && x.pc == Begun
         case OpenTransaction(_) => x.pc.SawPending?
         case InsertVenue(_) => x.pc.Inserting? && |x.pc.rows| < |x.pc.branches| && Named(x.pc.branches[|x.pc.rows|])
         case Claim(_) => x.pc.Inserting? && |x.pc.rows| == |x.pc.branches| && x.what.app !in s.locks
         case Commit(_) => x.pc.Claimed? && x.what.app in s.tables.apps
         case Reject(_) => x.what.ToReject? && x.pc == Begun && x.what.app !in s.locks
         case Fail(_) => !x.pc.Finished?
  }

  function At(s: State, p: ProcId, pc: Pc): State
    requires p < |s.procs|
  {
    s.(procs := s.procs[p := s.procs[p].(pc := pc)])
  }

  function Unlocked(locks: map<AppId, ProcId>, p: ProcId): map<AppId, ProcId> {
    map a | a in locks && locks[a] != p :: locks[a]
  }

  function Next(s: State, l: Label): State
    requires Enabled(s, l)
  {
    match l
    case Begin(what) => s.(procs := s.procs + [Proc(what, Begun)])
    case ReadStatus(p) =>
      var a := s.procs[p].what.app;
      At(s, p, if Pending(s.tables, a) && Parses(s.tables.apps[a].branches) then SawPending(s.tables.apps[a].branches.value) else Finished(false))
    case OpenTransaction(p) => At(s, p, Inserting(s.procs[p].pc.branches, []))
    case InsertVenue(p) =>
      var pc := s.procs[p].pc;
      At(s, p, pc.(rows := pc.rows + [Cleaned(pc.branches[|pc.rows|])]))
    case Claim(p) =>
      var a := s.procs[p].what.app;
      if Pending(s.tables, a) then At(s, p, Claimed(s.procs[p].pc.rows)).(locks := s.locks[a := p]) else At(s, p, Finished(false))
    case Commit(p) => At(s, p, Finished(true)).(tables := Approval(s.tables, s.procs[p].what.app, p, s.procs[p].pc.rows), locks := Unlocked(s.locks, p))
    case Reject(p) =>
      var a := s.procs[p].what.app;
      if Pending(s.tables, a) then At(s, p, Finished(true)).(tables := Rejection(s.tables, a)) else At(s, p, Finished(false))
    case Fail(p) => At(s, p, Finished(false)).(locks := Unlocked(s.locks, p))
  }

  ghost predicate Leads(s: State, labels: seq<Label>, s': State)
    decreases |labels|
  {
    if labels == [] then s' == s
    else Enabled(s, labels[0]) && Leads(Next(s, labels[0]), labels[1..], s')
  }

  predicate Initial(s: State) {
    && s.procs == [] && s.locks == map[] && s.tables.orgs == map[] && s.tables.venues == map[] && s.tables.owners == map[]
    && forall a :: a in s.tables.apps ==> s.tables.apps[a].status == PENDING && s.tables.apps[a].organization == None
  }

  predicate Decided(s: State, p: ProcId) {
    p < |s.procs| && s.procs[p].pc == Finished(true)
  }

  /** What a process under way has read and inserted fits the application. */
  predicate ProcOk(s: State, p: ProcId)
    requires p < |s.procs|
  {
    var x := s.procs[p];
    var a := x.what.app;
    match x.pc
    case Begun => true
    case SawPending(branches) => x.what.ToApprove? && a in s.tables.apps && s.tables.apps[a].branches == Some(branches) && Parses(Some(branches))
    case Inserting(branches, rows) =>
      && x.what.ToApprove? && a in s.tables.apps && s.tables.apps[a].branches == Some(branches) && Parses(Some(branches))
      && |rows| <= |branches| && rows == VenueRows(Some(branches))[..|rows|]
    case Claimed(rows) =>
      && x.what.ToApprove? && Pending(s.tables, a) && Parses(s.tables.apps[a].branches) && rows == VenueRows(s.tables.apps[a].branches)
      && a in s.locks && s.locks[a] == p
    case Finished(decided) => decided ==> a in s.tables.apps && s.tables.apps[a].status == (if x.what.ToApprove? then APPROVED else REJECTED)
  }

  /** The organization, its application, its venues and its deciding process belong together. */
  predicate OrgOk(s: State, o: OrgId)
    requires o in s.tables.orgs
  {
    var t := s.tables;
    var a := t.orgs[o];
    && Decided(s, o) && s.procs[o].what == ToApprove(a)
    && a in t.apps && t.apps[a].status == APPROVED && t.apps[a].organization == Some(o)
    && Parses(t.apps[a].branches) && o in t.venues && t.venues[o] == VenueRows(t.apps[a].branches)
  }

  predicate AppOk(t: Tables, a: AppId)
    requires a in t.apps
  {
    && (t.apps[a].status == APPROVED <==> t.apps[a].organization.Some?)
    && (t.apps[a].organization.Some? ==> t.apps[a].organization.value in t.orgs && t.orgs[t.apps[a].organization.value] == a)
  }

  predicate OwnerKnown(t: Tables, o: OrgId)
    requires o in t.orgs
  {
    t.orgs[o] in t.apps && t.apps[t.orgs[o]].applicant in t.owners
  }

  predicate OwnerOk(t: Tables, u: UserId)
    requires u in t.owners
  {
    t.owners[u] in t.orgs && t.orgs[t.owners[u]] in t.apps && t.apps[t.orgs[t.owners[u]]].applicant == u
  }

  predicate LocksOk(s: State) {
    forall a :: a in s.locks ==> s.locks[a] < |s.procs| && s.procs[s.locks[a]].pc.Claimed? && s.procs[s.locks[a]].what.app == a
  }

  /** One decider per application; approvals leave exactly their organization, venues and owner. */
  ghost predicate Inv(s: State) {
    && (forall p :: 0 <= p < |s.procs| ==> ProcOk(s, p))
    && (forall o :: o in s.tables.orgs ==> OrgOk(s, o))
    && (forall o :: o in s.tables.venues ==> o in s.tables.orgs)
    && (forall a :: a in s.tables.apps ==> AppOk(s.tables, a))
    && (forall o :: o in s.tables.orgs ==> OwnerKnown(s.tables, o))
    && (forall u :: u in s.tables.owners ==> OwnerOk(s.tables, u))
    && OneDeciderEach(s)
    && LocksOk(s)
  }

  lemma OthersStayOk(s: State, l: Label, p: ProcId)
    requires Inv(s) && Enabled(s, l) && p < |s.procs| && (l.Begin? || p != l.p)
    ensures ProcOk(Next(s, l), p)
  {
    assert ProcOk(s, p);
    if !l.Begin? { assert ProcOk(s, l.p); }
  }

  lemma OwnStaysOk(s: State, l: Label)
    requires Inv(s) && Enabled(s, l) && !l.Begin?
    ensures ProcOk(Next(s, l), l.p)
  {
    assert ProcOk(s, l.p);
    var pc := s.procs[l.p].pc;
    if l.InsertVenue? {
      assert VenueRows(Some(pc.branches))[..|pc.rows| + 1] == pc.rows + [Cleaned(pc.branches[|pc.rows|])];
    }
    if l.Claim? {
      assert VenueRows(Some(pc.branches))[..|pc.branches|] == VenueRows(Some(pc.branches));
    }
  }

  lemma OrgsStayOk(s: State, l: Label, o: OrgId)
    requires Enabled(s, l) && o in Next(s, l).tables.orgs
    requires !l.Begin? ==> ProcOk(s, l.p)
    requires o in s.tables.orgs ==> OrgOk(s, o) && OwnerKnown(s.tables, o)
    ensures OrgOk(Next(s, l), o) && OwnerKnown(Next(s, l).tables, o)
  {}

  lemma AppsStayOk(s: State, l: Label, a: AppId)
    requires Inv(s) && Enabled(s, l) && a in Next(s, l).tables.apps
    ensures AppOk(Next(s, l).tables, a)
  {}

  /** A process decides only while the application is pending. */
  lemma DecidingWasPending(s: State, l: Label, p: ProcId)
    requires Inv(s) && Enabled(s, l) && Decided(Next(s, l), p)
    ensures p < |s.procs| && Next(s, l).procs[p].what == s.procs[p].what
    ensures Decided(s, p) <==> !Pending(s.tables, s.procs[p].what.app)
    ensures !Decided(s, p) ==> !l.Begin? && l.p == p
  {
    if !l.Begin? { assert ProcOk(s, l.p); }
    if p < |s.procs| { assert ProcOk(s, p); }
  }

  ghost predicate OneDeciderEach(s: State) {
    forall p: ProcId, q: ProcId :: Decided(s, p) && Decided(s, q) && s.procs[p].what.app == s.procs[q].what.app ==> p == q
  }

  lemma DecidersStayUnique(s: State, l: Label)
    requires Inv(s) && Enabled(s, l)
    ensures OneDeciderEach(Next(s, l))
  {
    var s' := Next(s, l);
    forall p: ProcId, q: ProcId | Decided(s', p) && Decided(s', q) && s'.procs[p].what.app == s'.procs[q].what.app ensures p == q {
      DecidingWasPending(s, l, p);
      DecidingWasPending(s, l, q);
    }
  }

  lemma OwnersStayOk(s: State, l: Label, u: UserId)
    requires Inv(s) && Enabled(s, l) && u in Next(s, l).tables.owners
    ensures OwnerOk(Next(s, l).tables, u)
  {}

  lemma LocksStayOk(s: State, l: Label)
    requires Inv(s) && Enabled(s, l)
    ensures LocksOk(Next(s, l))
    ensures forall o :: o in Next(s, l).tables.venues ==> o in Next(s, l).tables.orgs
  {
    if !l.Begin? { assert ProcOk(s, l.p); }
  }

  lemma StepKeepsInv(s: State, l: Label)
    requires Inv(s) && Enabled(s, l)
    ensures Inv(Next(s, l))
  {
    var s' := Next(s, l);
    forall p | 0 <= p < |s'.procs| ensures ProcOk(s', p) {
      if p < |s.procs| && (l.Begin? || p != l.p) { OthersStayOk(s, l, p); } else if !l.Begin? { OwnStaysOk(s, l); }
    }
    forall o | o in s'.tables.orgs ensures OrgOk(s', o) && OwnerKnown(s'.tables, o) { if !l.Begin? { assert ProcOk(s, l.p); } OrgsStayOk(s, l, o); }
    forall a | a in s'.tables.apps ensures AppOk(s'.tables, a) { AppsStayOk(s, l, a); }
    forall u | u in s'.tables.owners ensures OwnerOk(s'.tables, u) { OwnersStayOk(s, l, u); }
    DecidersStayUnique(s, l);
    LocksStayOk(s, l);
  }

  /** A decided application is never changed again. */
  lemma DecidedIsFrozen(s: State, l: Label, a: AppId)
    requires Inv(s) && Enabled(s, l) && a in s.tables.apps && s.tables.apps[a].status != PENDING
    ensures a in Next(s, l).tables.apps && Next(s, l).tables.apps[a] == s.tables.apps[a]
  {
    if !l.Begin? { assert ProcOk(s, l.p); }
  }

  lemma InitialInv(s: State)
    requires Initial(s)
    ensures Inv(s)
  {}

  lemma {:induction false} RunKeepsInv(s: State, labels: seq<Label>, s': State, a: AppId)
    requires Inv(s) && Leads(s, labels, s')
    ensures Inv(s')
    ensures a in s.tables.apps && s.tables.apps[a].status != PENDING ==> a in s'.tables.apps && s'.tables.apps[a] == s.tables.apps[a]
    decreases |labels|
  {
    if labels != [] {
      StepKeepsInv(s, labels[0]);
      if a in s.tables.apps && s.tables.apps[a].status != PENDING { DecidedIsFrozen(s, labels[0], a); }
      RunKeepsInv(Next(s, labels[0]), labels[1..], s', a);
    }
  }

  /** Of all admins deciding an application at once at most one succeeds. */
  lemma OneAdminDecides(s: State, labels: seq<Label>, s': State, p: ProcId, q: ProcId)
    requires Initial(s) && Leads(s, labels, s')
    requires Decided(s', p) && Decided(s', q) && s'.procs[p].what.app == s'.procs[q].what.app
    ensures p == q && !Pending(s'.tables, s'.procs[p].what.app)
  {
    InitialInv(s);
    RunKeepsInv(s, labels, s', 0);
    assert ProcOk(s', p);
  }

  lemma ApprovedIffOrganized(s: State, a: AppId)
    requires Inv(s) && a in s.tables.apps
    ensures s.tables.apps[a].status == APPROVED <==> exists o :: o in s.tables.orgs && s.tables.orgs[o] == a
    ensures forall o :: o in s.tables.orgs && s.tables.orgs[o] == a ==> OrgOk(s, o) && s.tables.apps[a].organization == Some(o)
  {
    assert AppOk(s.tables, a);
    forall o | o in s.tables.orgs && s.tables.orgs[o] == a
      ensures s.tables.apps[a].organization == Some(o) && s.tables.apps[a].status == APPROVED && OrgOk(s, o)
    {
      assert OrgOk(s, o);
    }
  }

  /** Exactly the approved applications have an organization, one each, with one venue per branch;
      those who lost the race leave no organization and no venue. */
  lemma ApprovalsConserve(s: State, labels: seq<Label>, s': State, a: AppId)
    requires Initial(s) && Leads(s, labels, s') && a in s'.tables.apps
    ensures s'.tables.apps[a].status == APPROVED <==> exists o :: o in s'.tables.orgs && s'.tables.orgs[o] == a
    ensures forall o, q :: o in s'.tables.orgs && q in s'.tables.orgs && s'.tables.orgs[o] == a && s'.tables.orgs[q] == a ==> o == q
    ensures forall o :: o in s'.tables.venues ==> o in s'.tables.orgs
    ensures forall o :: o in s'.tables.orgs && s'.tables.orgs[o] == a ==>
              Parses(s'.tables.apps[a].branches) && o in s'.tables.venues && RowsOf(s'.tables.apps[a].branches, s'.tables.venues[o])
  {
    InitialInv(s);
    RunKeepsInv(s, labels, s', a);
    ApprovedIffOrganized(s', a);
    if Parses(s'.tables.apps[a].branches) { VenueRowsAreRowsOf(s'.tables.apps[a].branches); }
  }

  /** The organization of the last approval of the user's applications along the run. */
  ghost function LastApproved(s: State, labels: seq<Label>, u: UserId): Option<OrgId>
    requires CanRun(s, labels)
    decreases |labels|
  {
    if labels == [] then None
    else
      var later := LastApproved(Next(s, labels[0]), labels[1..], u);
      if later.Some? then later
      else if labels[0].Commit? && s.tables.apps[s.procs[labels[0].p].what.app].applicant == u then Some(labels[0].p)
      else None
  }

  ghost predicate CanRun(s: State, labels: seq<Label>)
    decreases |labels|
  {
    labels == [] || (Enabled(s, labels[0]) && CanRun(Next(s, labels[0]), labels[1..]))
  }

  lemma {:induction false} OwnsLastApproved(s: State, labels: seq<Label>, s': State, u: UserId)
    requires Leads(s, labels, s')
    ensures CanRun(s, labels)
    ensures var last := LastApproved(s, labels, u);
            if last.Some? then u in s'.tables.owners && s'.tables.owners[u] == last.value
            else (u in s'.tables.owners <==> u in s.tables.owners) && (u in s.tables.owners ==> s'.tables.owners[u] == s.tables.owners[u])
    decreases |labels|
  {
    if labels != [] { OwnsLastApproved(Next(s, labels[0]), labels[1..], s', u); }
  }

  /** Of all organizations approved for him the applicant owns exactly the one whose approval was
      committed last. */
  lemma ApplicantOwnsTheLast(s: State, labels: seq<Label>, s': State, o: OrgId)
    requires Initial(s) && Leads(s, labels, s') && o in s'.tables.orgs
    ensures CanRun(s, labels) && s'.tables.orgs[o] in s'.tables.apps
    ensures var u := s'.tables.apps[s'.tables.orgs[o]].applicant;
            && LastApproved(s, labels, u).Some?
            && u in s'.tables.owners
            && (s'.tables.owners[u] == o <==> LastApproved(s, labels, u) == Some(o))
  {
    InitialInv(s);
    RunKeepsInv(s, labels, s', 0);
    assert OrgOk(s', o) && OwnerKnown(s'.tables, o);
    OwnsLastApproved(s, labels, s', s'.tables.apps[s'.tables.orgs[o]].applicant);
  }

  /** The applicant owns the approved organization, unless another application of his was approved too. */
  lemma ApplicantOwnsIt(s: State, labels: seq<Label>, s': State, o: OrgId)
    requires Initial(s) && Leads(s, labels, s') && o in s'.tables.orgs
    ensures s'.tables.orgs[o] in s'.tables.apps
    ensures var u := s'.tables.apps[s'.tables.orgs[o]].applicant;
            && u in s'.tables.owners
            && (s'.tables.owners[u] == o ||
                exists b :: b in s'.tables.apps && b != s'.tables.orgs[o] && s'.tables.apps[b].applicant == u && s'.tables.apps[b].status == APPROVED)
  {
    InitialInv(s);
    RunKeepsInv(s, labels, s', 0);
    assert OrgOk(s', o);
    var u := s'.tables.apps[s'.tables.orgs[o]].applicant;
    assert OwnerKnown(s'.tables, o) && OwnerOk(s'.tables, u);
    assert OrgOk(s', s'.tables.owners[u]);
  }
}
