/** The theorems about whole lives of a deployment, as long as admission is atomic or
    install requests do not overlap. */
module Lifetime {
  import opened Schema
  import opened Contract
  import opened Install
  import opened Lifecycle
  import opened Accounts
  import opened Phases
  import Gate
  import Team
  import Authz

  lemma RunIsInv(atomic_: bool, ls: seq<Label>)
    requires Legal(atomic_, INIT, ls) && Paced(atomic_, INIT, ls)
    ensures Inv(atomic_, Final(atomic_, INIT, ls))
  {
    InitOk(atomic_);
    RunKeepsInv(atomic_, INIT, ls);
  }

  // ------------------------------------------------- who gets through

  /** An MSP admin in good standing: an active contact of the MSP company, with a live
      ZITADEL user that Wrap lets through to everything the policy reserves for admins. */
  ghost predicate WorkingAdmin(w: World, c: ContactId, u: UserId) {
    && ActiveContact(w.db, c) && HoldsUser(w.db, c, u) && IsMsp(w.db, w.db.contacts[c].company)
    && u in w.idp.users
    && forall rules: Authz.Rules, path: string, activateOk: bool ::
         path in rules.policy && rules.policy[path] == Authz.AdminOnly
         ==> Authz.LetThrough(Authz.RunRequest(rules, w.db, Authz.Request(path, Some(u)), true, activateOk).1)
  }

  /** An active admin grant is enough for a member in good standing. */
  lemma AdminWorks(w: World, c: ContactId)
    requires ValidSchema(w.db) && MemberOk(w.db, c) && w.db.contacts[c].user.value in w.idp.users
    requires c in ActiveAdmins(w.db.grants)
    ensures WorkingAdmin(w, c, w.db.contacts[c].user.value)
  {
  }

  /** And less than an unsuspended one is not. */
  lemma WorkingAdminIsAdmin(w: World, c: ContactId, u: UserId)
    requires ValidSchema(w.db) && WorkingAdmin(w, c, u)
    ensures c in w.db.grants && w.db.grants[c].role == Admin && w.db.grants[c].status != Suspended
  {
    var rules := Authz.Rules({}, map[Authz.LISTED := Authz.AdminOnly]);
    Authz.ListedIsConnectProcedure();
    assert Authz.LetThrough(Authz.RunRequest(rules, w.db, Authz.Request(Authz.LISTED, Some(u)), true, true).1);
    ContactOfIsUnique(w.db, c, u);
  }

  /** In every reachable ready state somebody can administer the workspace. */
  lemma ReadyHasWorkingAdmin(atomic_: bool, ls: seq<Label>)
    requires Legal(atomic_, INIT, ls) && Paced(atomic_, INIT, ls) && Final(atomic_, INIT, ls).w.ws.state == Ready
    ensures exists c, u :: WorkingAdmin(Final(atomic_, INIT, ls).w, c, u)
  {
    RunIsInv(atomic_, ls);
    var s := Final(atomic_, INIT, ls);
    ReadyIsInstalled(atomic_, s);
    var c :| c in ActiveAdmins(s.w.db.grants);
    AdminWorks(s.w, c);
  }

  lemma AdmittedIsMember(db: Tables, rules: Authz.Rules, req: Authz.Request, resolveOk: bool, activateOk: bool)
    requires Staffed(db)
    ensures match Authz.RunRequest(rules, db, req, resolveOk, activateOk).1
            case Admitted(c, _) => ActiveContact(db, c) && IsMsp(db, db.contacts[c].company)
            case _ => true
  {
  }

  /** In every reachable state: whoever Wrap admits is an active contact, at the MSP
      company, although Wrap never looks at the archive mark. */
  lemma NoArchivedCaller(atomic_: bool, ls: seq<Label>, rules: Authz.Rules, req: Authz.Request, resolveOk: bool, activateOk: bool)
    requires Legal(atomic_, INIT, ls) && Paced(atomic_, INIT, ls)
    ensures var db := Final(atomic_, INIT, ls).w.db;
            match Authz.RunRequest(rules, db, req, resolveOk, activateOk).1
            case Admitted(c, _) => ActiveContact(db, c) && IsMsp(db, db.contacts[c].company)
            case _ => true
  {
    RunIsInv(atomic_, ls);
    var db := Final(atomic_, INIT, ls).w.db;
    assert Staffed(db);
    AdmittedIsMember(db, rules, req, resolveOk, activateOk);
  }

  // ------------------------------------------------ organisations

  lemma {:induction false} RowOrgCount(db: Tables, ids: set<CompanyId>)
    requires ValidSchema(db) && ids <= db.companies.Keys
    ensures |set id | id in ids :: db.companies[id].org| == |ids|
  {
    if ids == {} {
    } else {
      var x :| x in ids;
      RowOrgCount(db, ids - {x});
      var rest := set id | id in ids - {x} :: db.companies[id].org;
      assert (set id | id in ids :: db.companies[id].org) == rest + {db.companies[x].org};
    }
  }

  /** In every reachable ready state, after any failed installs, retries, restarts and
      company creations: each row has a live organisation of its own, the MSP row's is
      the workspace's, and the live organisations are exactly the rows', those whose
      removal failed, and those whose row could not be inserted, each counted once. */
  lemma OrgsConserved(atomic_: bool, ls: seq<Label>)
    requires Legal(atomic_, INIT, ls) && Paced(atomic_, INIT, ls) && Final(atomic_, INIT, ls).w.ws.state == Ready
    ensures var w := Final(atomic_, INIT, ls).w;
            var rows := w.db.companies;
            && (forall id :: id in rows ==> rows[id].org in w.idp.orgs)
            && (forall a, b :: a in rows && b in rows && a != b ==> rows[a].org != rows[b].org)
            && (exists m :: IsMsp(w.db, m) && w.ws.orgId == Some(w.db.companies[m].org))
            && w.idp.orgs == RowOrgs(w.db) + w.log.failedOrgRemovals + w.log.failedInserts
            && |w.idp.orgs| == |w.db.companies| + |w.log.failedOrgRemovals| + |w.log.failedInserts|
  {
    RunIsInv(atomic_, ls);
    var s := Final(atomic_, INIT, ls);
    ReadyIsInstalled(atomic_, s);
    var w := s.w;
    forall id | id in w.db.companies ensures w.db.companies[id].org in w.idp.orgs {
      assert w.db.companies[id].org in RowOrgs(w.db);
    }
    RowOrgCount(w.db, w.db.companies.Keys);
    assert RowOrgs(w.db) == set id | id in w.db.companies.Keys :: w.db.companies[id].org;
    assert |RowOrgs(w.db) + w.log.failedOrgRemovals| == |RowOrgs(w.db)| + |w.log.failedOrgRemovals|;
  }

  lemma CompanyCallsSpareMsp(w: World, call: Call, m: CompanyId)
    requires IsMsp(w.db, m) && FreshCall(w, call)
    requires call.CreateCompany? || call.UpdateCompany? || call.ArchiveCompany? || call.RestoreCompany?
    ensures m in Handled(w, call).db.companies && Handled(w, call).db.companies[m] == w.db.companies[m]
  {
  }

  lemma {:induction false} InviteSparesCompanies(w: World, req: Team.InviteRequest, pc: Team.InvitePc, f: Team.InviteFaults)
    ensures Team.RunInvite(w, req, pc, f).0.db.companies == w.db.companies
    decreases Team.InviteRank(pc)
  {
    if !Team.InviteEnded(pc) {
      var (w', pc') := Team.InviteStep(w, req, pc, Team.InviteChoice(f, pc));
      InviteSparesCompanies(w', req, pc', f);
    }
  }

  lemma OtherCallsSpareCompanies(w: World, call: Call)
    requires call.InviteMember? || call.GuardedCall? || call.SignIn?
             || call.CreateContact? || call.UpdateContact? || call.ArchiveContact?
    ensures Handled(w, call).db.companies == w.db.companies
  {
    match call
    case InviteMember(req, f) => InviteSparesCompanies(w, req, Team.Validating, f);
    case GuardedCall(op, c, f) => Team.RunGuardMeaning(w.db, op, c, f);
    case _ =>
  }

  /** Only UpdateWorkspaceCompany ever changes the MSP row, and never its
      organisation, its owner mark or its archive mark. */
  lemma MspRowIsProtected(w: World, call: Call, m: CompanyId)
    requires Base(w) && IsMsp(w.db, m) && FreshCall(w, call)
    ensures m in Handled(w, call).db.companies
    ensures var row, row' := w.db.companies[m], Handled(w, call).db.companies[m];
            && row' == row.(profile := row'.profile)
            && (row'.profile != row.profile ==> call.UpdateWorkspaceCompany?)
  {
    if call.CreateCompany? || call.UpdateCompany? || call.ArchiveCompany? || call.RestoreCompany? {
      CompanyCallsSpareMsp(w, call, m);
    } else if !call.UpdateWorkspaceCompany? {
      OtherCallsSpareCompanies(w, call);
    }
  }

  predicate EditsCompany(call: Call) {
    call.UpdateCompany? || call.ArchiveCompany? || call.RestoreCompany? || call.UpdateWorkspaceCompany?
  }

  /** Until the workspace is ready, no company handler changes anything. */
  lemma NothingBeforeReady(w: World, call: Call)
    requires w.ws.state != Ready && (call.CreateCompany? || EditsCompany(call))
    ensures Handled(w, call) == w
  {
  }

  /** The row a company edit is about. */
  ghost function EditedRow(db: Tables, call: Call): Option<CompanyId>
    requires EditsCompany(call)
  {
    match call
    case UpdateCompany(id, _, _, _, _) => Some(id)
    case ArchiveCompany(id, _, _, _) => Some(id)
    case RestoreCompany(id, _, _, _) => Some(id)
    case UpdateWorkspaceCompany(_, _, _) => MspId(db)
  }

  /** What an edit may do to a company row. */
  predicate AllowedEdit(call: Call, row: Company, row': Company)
    requires EditsCompany(call)
  {
    && row'.org == row.org && row'.isOwner == row.isOwner
    && (row.isOwner <==> call.UpdateWorkspaceCompany?)
    && (row.archived <==> call.RestoreCompany?)
    && (row'.archived != row.archived <==> call.ArchiveCompany? || call.RestoreCompany?)
    && (row'.accountOwner != row.accountOwner ==> call.UpdateCompany?)
    && (row'.profile != row.profile ==> call.UpdateCompany? || call.UpdateWorkspaceCompany?)
  }

  /** A company edit changes nothing unless the workspace is ready, then at most the one
      row it is about, never that row's organisation or owner mark, the archive mark
      only by archiving and restoring, and an archived row only by restoring it. */
  lemma CompanyEditsStayLocal(w: World, call: Call)
    requires Base(w) && EditsCompany(call)
    ensures var w' := Handled(w, call);
            && w' == w.(db := w.db.(companies := w'.db.companies))
            && w'.db.companies.Keys == w.db.companies.Keys
            && (w' != w ==> w.ws.state == Ready)
            && forall id :: id in w.db.companies && w'.db.companies[id] != w.db.companies[id] ==>
                 EditedRow(w.db, call) == Some(id) && AllowedEdit(call, w.db.companies[id], w'.db.companies[id])
  {
    var w' := Handled(w, call);
    if w.ws.state != Ready {
      NothingBeforeReady(w, call);
    } else if w' != w {
      var id := EditedRow(w.db, call).value;
      assert w' == w.(db := AddCompany(w.db, id, w'.db.companies[id]));
      assert AllowedEdit(call, w.db.companies[id], w'.db.companies[id]);
    }
  }

  /** What a contact handler may do to a contact. */
  predicate AllowedContactEdit(db: Tables, call: Call, c: ContactId, row': Contact)
    requires c in db.contacts
  {
    var row := db.contacts[c];
    && row' == row.(email := row'.email, archived := row'.archived)
    && (row'.archived != row.archived ==> call.ArchiveContact? && c == call.target && row'.archived && c !in db.grants)
    && (row'.email != row.email ==> call.UpdateContact? && c == call.contact && !row.archived)
  }

  /** A contact handler touches no other table and at most one contact: it never changes
      an identity or a company, archives only by ArchiveContact and only without a
      grant, and changes an email only of an active contact. */
  lemma ContactEditsStayLocal(w: World, call: Call)
    requires FreshCall(w, call) && (call.CreateContact? || call.UpdateContact? || call.ArchiveContact?)
    ensures var w' := Handled(w, call);
            && w' == w.(db := w.db.(contacts := w'.db.contacts))
            && (call.CreateContact? ==> w'.db.contacts - {call.contactId} == w.db.contacts)
            && (forall c :: c in w.db.contacts ==>
                  c in w'.db.contacts && AllowedContactEdit(w.db, call, c, w'.db.contacts[c]))
  {
  }

  // ------------------------------------------------------- the gate

  lemma OrgIdIsNamed(w: World)
    requires Base(w) && Installed(w)
    ensures w.ws.orgId.Some? && w.ws.orgId.value != ""
  {
  }

  /** The workspace is ready, the gate checks exactly the persisted issuer and audience,
      the audience is the project, and a browser that reads its configuration gets the
      persisted organisation, client and issuer, and asks for the organisation and for
      exactly that audience, last. */
  ghost predicate GateAgrees(w: World, cfg: Config, v: Gate.Verifier) {
    var served := Served(cfg, Some(AuthOf(w.ws)));
    && w.ws.state == Ready
    && w.ws.issuer == Some(v.issuer) && w.ws.audience == w.ws.projectId == Some(v.audience)
    && w.ws.orgId == Some(served.orgId) && w.ws.spaClientId == Some(served.clientId) && served.issuer == v.issuer
    && served.orgId != "" && served.clientId != "" && v.audience != ""
    && served.scopes == cfg.scopes + ["urn:zitadel:iam:org:id:" + served.orgId,
                                      "urn:zitadel:iam:org:project:id:" + v.audience + ":aud"]
  }

  lemma InstalledGateAgrees(w: World, cfg: Config, v: Gate.Verifier)
    requires Base(w) && Installed(w) && Contracted(w.ws) && w.ws.state == Ready
    requires w.ws.issuer == Some(v.issuer) && w.ws.audience == Some(v.audience) && v.issuer != "" && v.audience != ""
    ensures GateAgrees(w, cfg, v)
  {
    OrgIdIsNamed(w);
  }

  /** Whenever the gate is active, it agrees with the row and with the browser. */
  lemma GateAgreesWithRow(atomic_: bool, ls: seq<Label>)
    requires Legal(atomic_, INIT, ls) && Paced(atomic_, INIT, ls)
    ensures var s := Final(atomic_, INIT, ls);
            s.proc.Up? && s.proc.gate.Some? ==> GateAgrees(s.w, s.proc.cfg, s.proc.gate.value)
  {
    RunIsInv(atomic_, ls);
    var s := Final(atomic_, INIT, ls);
    if s.proc.Up? && s.proc.gate.Some? {
      ReadyIsInstalled(atomic_, s);
      InstalledGateAgrees(s.w, s.proc.cfg, s.proc.gate.value);
    }
  }

  /** The OnReady hook: if discovery works and the contract is complete, the gate is
      active from then on, for the issuer and audience on the row. */
  lemma OnReadyActivates(atomic_: bool, ls: seq<Label>, tid: nat, ch: Choice)
    requires Legal(atomic_, INIT, ls) && Paced(atomic_, INIT, ls)
    requires var s := Final(atomic_, INIT, ls);
             && RunningThread(s.proc, tid) && s.proc.threads[tid].pc.run.OnReady?
             && Enabled(s, Advance(tid, ch)) && ch.ok && s.w.ws.issuer.Some?
    ensures var s := Final(atomic_, INIT, ls);
            && s.w.ws.audience.Some?
            && Next(atomic_, s, Advance(tid, ch)).proc.gate
               == Some(Gate.Verifier(s.w.ws.issuer.value, s.w.ws.audience.value))
  {
    RunIsInv(atomic_, ls);
    var s := Final(atomic_, INIT, ls);
    assert RunOk(s.w, s.proc.cfg, s.proc.threads[tid].pc.run);
  }

  /** A new process that can read the row and discover the issuer takes up the same
      verifier, at any moment at which the gate is active. */
  lemma RestartKeepsTheGate(atomic_: bool, ls: seq<Label>, cfg: Config)
    requires Legal(atomic_, INIT, ls) && Paced(atomic_, INIT, ls)
    ensures var s := Final(atomic_, INIT, ls);
            s.proc.Up? && s.proc.gate.Some? ==>
              var s' := Next(atomic_, s, Restart(cfg, true, true));
              s'.proc == Up(cfg, false, s.proc.gate, 0, map[]) && s'.w.db == s.w.db && s'.w.ws == s.w.ws
  {
    GateAgreesWithRow(atomic_, ls);
    RunIsInv(atomic_, ls);
    var s := Final(atomic_, INIT, ls);
    BootedMeaning(s.w.ws, cfg, true, true);
  }

  // ------------------------------------------- the install state machine

  predicate MayFollow(a: InstallState, b: InstallState) {
    || a == b
    || (Eligible(a) && b == Provisioning)
    || (a == Provisioning && (b == Ready || b == Failed))
  }

  lemma RunStepFollows(cfg: Config, w: World, email: string, pc: RunPc, ch: Choice)
    requires RunOk(w, cfg, pc)
    ensures MayFollow(w.ws.state, RunStep(cfg, w, email, pc, ch).0.ws.state)
    ensures w.ws.state == Ready ==> RunStep(cfg, w, email, pc, ch).0.ws.state == Ready
  {
  }

  /** The only transitions of install_state; ready is absorbing. */
  lemma InstallTransitions(atomic_: bool, s: State, l: Label)
    requires Inv(atomic_, s) && Enabled(s, l)
    ensures MayFollow(s.w.ws.state, Next(atomic_, s, l).w.ws.state)
    ensures s.w.ws.state == Ready ==> Next(atomic_, s, l).w.ws.state == Ready
  {
    match l
    case Advance(tid, ch) =>
      if RunningThread(s.proc, tid) {
        RunStepFollows(s.proc.cfg, s.w, s.proc.threads[tid].request.email, s.proc.threads[tid].pc.run, ch);
      }
    case Serve(call) =>
      ReadyIsInstalled(atomic_, s);
      HandledKeepsInstalled(s.w, call);
    case _ =>
  }

  /** At most once in the life of a deployment is an installation stranded, by a failed
      MarkWorkspaceFailed or by a death in the middle of a Run; and between Runs the row
      says provisioning if and only if that has happened. */
  lemma StuckHasCause(atomic_: bool, ls: seq<Label>)
    requires Legal(atomic_, INIT, ls) && Paced(atomic_, INIT, ls)
    ensures var s := Final(atomic_, INIT, ls);
            && s.w.log.failedMarks + s.w.log.deaths <= 1
            && (!RunInProgress(s.proc) ==> (s.w.ws.state == Provisioning <==> s.w.log.failedMarks + s.w.log.deaths == 1))
  {
    RunIsInv(atomic_, ls);
    var s := Final(atomic_, INIT, ls);
    if RunInProgress(s.proc) {
      var tid :| RunningThread(s.proc, tid);
      assert RunOk(s.w, s.proc.cfg, s.proc.threads[tid].pc.run);
    }
  }

  predicate BeyondCompany(pc: RunPc) {
    pc.MakeContact? || pc.MakeGrant? || pc.MarkReady? || pc.OnReady?
  }

  /** The MSP row is there, and no Run is entitled to it. */
  ghost predicate Wedged(s: State) {
    && HasMsp(s.w.db) && s.w.ws.state != Ready
    && forall tid :: RunningThread(s.proc, tid) ==> !BeyondCompany(s.proc.threads[tid].pc.run)
  }

  /** Provisioning, and no Run left to finish it. */
  ghost predicate Stuck(s: State) {
    && s.w.ws.state == Provisioning
    && forall tid :: RunningThread(s.proc, tid) ==> s.proc.threads[tid].pc.run.Finished?
  }

  /** A Run gets past MakeCompany only when there is no MSP row yet. */
  lemma RunStepAndMsp(cfg: Config, w: World, email: string, pc: RunPc, ch: Choice)
    ensures var (w', pc') := RunStep(cfg, w, email, pc, ch);
            && (HasMsp(w.db) && !BeyondCompany(pc) ==> HasMsp(w'.db) && !BeyondCompany(pc'))
            && (!pc.MarkReady? && w.ws.state != Ready ==> w'.ws.state != Ready)
  {
  }

  /** A step of one thread starts no Run in another. */
  lemma OthersUnmoved(atomic_: bool, s: State, tid: nat, ch: Choice)
    requires s.proc.Up? && tid in s.proc.threads
    ensures var s' := AdvanceThread(atomic_, s, tid, ch);
            && s'.proc.Up? && s'.proc.threads.Keys == s.proc.threads.Keys
            && forall a :: a in s.proc.threads && a != tid ==> s'.proc.threads[a] == s.proc.threads[a]
  {
  }

  lemma AdvanceKeepsWedged(atomic_: bool, s: State, tid: nat, ch: Choice)
    requires Wedged(s) && s.proc.Up? && tid in s.proc.threads
    ensures Wedged(AdvanceThread(atomic_, s, tid, ch))
  {
    OthersUnmoved(atomic_, s, tid, ch);
    if RunningThread(s.proc, tid) {
      RunStepAndMsp(s.proc.cfg, s.w, s.proc.threads[tid].request.email, s.proc.threads[tid].pc.run, ch);
    }
  }

  lemma AdvanceKeepsStuck(atomic_: bool, s: State, tid: nat, ch: Choice)
    requires Stuck(s) && AdmissionOk(atomic_, s) && s.proc.Up? && tid in s.proc.threads
    ensures Stuck(AdvanceThread(atomic_, s, tid, ch))
  {
    OthersUnmoved(atomic_, s, tid, ch);
    if RunningThread(s.proc, tid) { assert s.proc.threads[tid].pc.run.Finished?; }
  }

  lemma StepKeepsWedged(atomic_: bool, s: State, l: Label)
    requires Inv(atomic_, s) && Enabled(s, l) && (Wedged(s) || Stuck(s))
    ensures var s' := Next(atomic_, s, l); (Wedged(s) ==> Wedged(s')) && (Stuck(s) ==> Stuck(s'))
  {
    var s' := Next(atomic_, s, l);
    match l
    case Advance(tid, ch) =>
      if Wedged(s) { AdvanceKeepsWedged(atomic_, s, tid, ch); }
      if Stuck(s) { AdvanceKeepsStuck(atomic_, s, tid, ch); }
    case Arrive(tid, _) =>
      assert forall a :: RunningThread(s'.proc, a) <==> RunningThread(s.proc, a);
    case Restart(_, _, _) =>
      assert !RunInProgress(s'.proc) && s'.w.db == s.w.db && s'.w.ws == s.w.ws;
    case Serve(_) =>
  }

  lemma {:induction false} NeverReady(atomic_: bool, s: State, ls: seq<Label>)
    requires Inv(atomic_, s) && Legal(atomic_, s, ls) && Paced(atomic_, s, ls) && (Wedged(s) || Stuck(s))
    ensures Final(atomic_, s, ls).w.ws.state != Ready
    ensures Wedged(s) ==> Wedged(Final(atomic_, s, ls))
    ensures Stuck(s) ==> Stuck(Final(atomic_, s, ls))
  {
    if ls == [] {
    } else {
      var before := ls[..|ls| - 1];
      NeverReady(atomic_, s, before);
      RunKeepsInv(atomic_, s, before);
      StepKeepsWedged(atomic_, Final(atomic_, s, before), ls[|ls| - 1]);
    }
  }

  /** A Run that starts while the MSP row already exists never makes the workspace
      ready, nor does anything after it. */
  lemma SecondRunNeverReady(atomic_: bool, s: State, tid: nat, ls: seq<Label>)
    requires Inv(atomic_, s) && RunningThread(s.proc, tid) && s.proc.threads[tid].pc.run == CreateOrg && HasMsp(s.w.db)
    requires Legal(atomic_, s, ls) && Paced(atomic_, s, ls)
    ensures Final(atomic_, s, ls).w.ws.state != Ready
  {
    forall a | RunningThread(s.proc, a) ensures a == tid {
      assert Owner(s.proc, a) && Owner(s.proc, tid);
    }
    assert RunOk(s.w, s.proc.cfg, CreateOrg);
    NeverReady(atomic_, s, ls);
  }

  // ------------------------------------------------ the team listing

  /** ListTeamMembers: the three-way join, one triple per row. */
  function TeamRows(db: Tables): set<(ContactId, ContactId, CompanyId)> {
    set g, c, co | g in db.grants && c in db.contacts && co in db.companies
                   && c == g && co == db.contacts[c].company
                   && db.companies[co].isOwner && !db.contacts[c].archived :: (g, c, co)
  }

  function AdminRows(db: Tables): set<(ContactId, ContactId, CompanyId)> {
    set r | r in TeamRows(db) && db.grants[r.0] == Grant(Admin, Active)
  }

  function RowOf(db: Tables, g: ContactId): (ContactId, ContactId, CompanyId)
    requires g in db.contacts
  {
    (g, g, db.contacts[g].company)
  }

  lemma {:induction false} RowsCount(db: Tables, grants: set<ContactId>)
    requires grants <= db.contacts.Keys
    ensures |set g | g in grants :: RowOf(db, g)| == |grants|
  {
    if grants == {} {
    } else {
      var x :| x in grants;
      RowsCount(db, grants - {x});
      var rest := set g | g in grants - {x} :: RowOf(db, g);
      assert (set g | g in grants :: RowOf(db, g)) == rest + {RowOf(db, x)};
    }
  }

  lemma ListingOf(db: Tables)
    requires ValidSchema(db) && Staffed(db)
    ensures TeamRows(db) == set g | g in db.grants.Keys :: RowOf(db, g)
    ensures |TeamRows(db)| == |db.grants|
    ensures |AdminRows(db)| == CountActiveAdmins(db.grants)
  {
    forall g | g in db.grants ensures RowOf(db, g) in TeamRows(db) {
      assert MemberOk(db, g);
    }
    assert TeamRows(db) == set g | g in db.grants.Keys :: RowOf(db, g);
    RowsCount(db, db.grants.Keys);
    assert AdminRows(db) == set g | g in ActiveAdmins(db.grants) :: RowOf(db, g);
    RowsCount(db, ActiveAdmins(db.grants));
  }

  /** The listing shows every grant exactly once, and as many active admins as the
      guard counts, in every reachable state. */
  lemma ListingAgreesWithGrants(atomic_: bool, ls: seq<Label>)
    requires Legal(atomic_, INIT, ls) && Paced(atomic_, INIT, ls)
    ensures var db := Final(atomic_, INIT, ls).w.db;
            && (forall g :: g in db.grants <==> exists r :: r in TeamRows(db) && r.0 == g)
            && (forall r, r' :: r in TeamRows(db) && r' in TeamRows(db) && r.0 == r'.0 ==> r == r')
            && |TeamRows(db)| == |db.grants|
            && |AdminRows(db)| == CountActiveAdmins(db.grants)
  {
    RunIsInv(atomic_, ls);
    var db := Final(atomic_, INIT, ls).w.db;
    ListingOf(db);
    forall g | g in db.grants ensures exists r :: r in TeamRows(db) && r.0 == g {
      assert RowOf(db, g) in TeamRows(db);
    }
  }
}
