/** The invariant of the deployment, as long as admission is atomic or install requests
    do not overlap: what holds at each point of the saga, between Runs, and of the gate. */
module Phases {
  import opened Schema
  import opened Contract
  import opened Install
  import opened Lifecycle
  import opened Accounts
  import Services
  import Team

  /** The contract that PersistZitadelIDs wrote is still on the row. */
  predicate PersistOk(ws: Workspace, cfg: Config, ids: Ids) {
    && ids.org != "" && ids.project != "" && ids.client != ""
    && ws.orgId == Some(ids.org) && ws.projectId == Some(ids.project)
    && ws.spaAppId == Some(ids.app) && ws.spaClientId == Some(ids.client)
    && ws.issuer == NonEmpty(DeriveFresh(cfg, ids.project).issuer)
    && ws.audience == Some(ids.project)
  }

  /** The row of a ready workspace: a client for the browser, and tokens for the project. */
  predicate Contracted(ws: Workspace) {
    && ws.spaClientId.Some? && ws.spaClientId.value != ""
    && ws.audience.Some? && ws.audience == ws.projectId
  }

  predicate MspIs(w: World, m: CompanyId, ids: Ids) {
    IsMsp(w.db, m) && w.db.companies[m].org == ids.org
  }

  /** Everything in place but the readiness mark, and no customer yet. */
  ghost predicate Planted(w: World, cfg: Config, ids: Ids) {
    Healthy(w) && OnlyMsp(w.db) && w.log.failedInserts == {} && PersistOk(w.ws, cfg, ids)
  }

  /** Before any row: the organisation the saga created is live and nobody else's. */
  ghost predicate Sown(w: World, o: OrgId, u: UserId) {
    Fallow(w, {o}) && o != "" && o !in RowOrgs(w.db) && u in w.idp.users
  }

  /** What has stranded the installation: marks of failure that failed, and deaths in
      the middle of a Run. */
  function Causes(w: World): nat {
    w.log.failedMarks + w.log.deaths
  }

  ghost predicate RunOk(w: World, cfg: Config, pc: RunPc) {
    && (pc != Finished(false) ==> Causes(w) == 0)
    && match pc
    case CreateOrg => w.ws.state == Provisioning && Fallow(w, {})
    case CreateProject(o, u) => w.ws.state == Provisioning && Sown(w, o, u)
    case CreateApp(o, u, p) => w.ws.state == Provisioning && Sown(w, o, u) && p != ""
    case PersistIds(ids) =>
      w.ws.state == Provisioning && Sown(w, ids.org, ids.user) && ids.project != "" && ids.client != ""
    case MakeCompany(ids) =>
      w.ws.state == Provisioning && Sown(w, ids.org, ids.user) && PersistOk(w.ws, cfg, ids)
    case MakeContact(ids, m) =>
      && w.ws.state == Provisioning && Planted(w, cfg, ids) && MspIs(w, m, ids) && ids.user in w.idp.users
      && w.db.contacts == map[] && w.db.grants == map[]
    case MakeGrant(ids, c) =>
      && w.ws.state == Provisioning && Planted(w, cfg, ids) && ids.user in w.idp.users
      && MemberOk(w.db, c) && w.db.contacts[c].user == Some(ids.user) && w.db.grants == map[]
    case MarkReady(ids) =>
      w.ws.state == Provisioning && Planted(w, cfg, ids) && ActiveAdmins(w.db.grants) != {}
    case OnReady(ids) => w.ws.state == Ready && Installed(w) && PersistOk(w.ws, cfg, ids)
    case Undo(o, _) => w.ws.state == Provisioning && Fallow(w, {o})
    case MarkFailed(_) => w.ws.state == Provisioning && Fallow(w, {})
    case Finished(success) =>
      if success then w.ws.state == Ready && Installed(w) && Contracted(w.ws)
      else Fallow(w, {}) && ((w.ws.state == Failed && Causes(w) == 0) || (w.ws.state == Provisioning && Causes(w) == 1))
  }

  /** With no Run in progress. */
  ghost predicate IdleOk(w: World) {
    && Causes(w) == (if w.ws.state == Provisioning then 1 else 0)
    && match w.ws.state
    case Ready => Installed(w) && Contracted(w.ws)
    case Provisioning =>
      && OnlyMsp(w.db) && w.log.failedInserts == {}
      && w.idp.orgs <= RowOrgs(w.db) + w.log.failedOrgRemovals + w.log.abandoned
    case _ => Fallow(w, {})
  }

  ghost predicate WorldOk(s: State) {
    && Base(s.w)
    && (!RunInProgress(s.proc) ==> IdleOk(s.w))
    && (forall tid :: RunningThread(s.proc, tid) ==> RunOk(s.w, s.proc.cfg, s.proc.threads[tid].pc.run))
  }

  /** Whoever has read the row as eligible still may, as long as nobody else runs. */
  ghost predicate AdmissionOk(atomic_: bool, s: State) {
    s.proc.Up? ==> forall tid :: tid in s.proc.threads ==>
      && (s.proc.threads[tid].pc.EligibleSeen? ==> !atomic_ && Eligible(s.w.ws.state))
      && (s.proc.threads[tid].pc.Holding? ==> Eligible(s.w.ws.state))
  }

  /** An active gate means a ready workspace and agrees with the row. */
  ghost predicate GateOk(s: State) {
    s.proc.Up? && s.proc.gate.Some? ==>
      && s.w.ws.state == Ready
      && s.w.ws.issuer == Some(s.proc.gate.value.issuer)
      && s.w.ws.audience == Some(s.proc.gate.value.audience)
      && s.proc.gate.value.issuer != "" && s.proc.gate.value.audience != ""
  }

  ghost predicate Inv(atomic_: bool, s: State) {
    SlotOk(s.proc) && WorldOk(s) && AdmissionOk(atomic_, s) && GateOk(s)
  }

  // ---------------------------------------------------------- the saga

  lemma RowsOfMspOnly(db: Tables)
    requires ValidSchema(db) && OnlyMsp(db) && !HasMsp(db)
    ensures db.companies == map[] && db.contacts == map[] && db.grants == map[]
  {
    if id :| id in db.companies { assert IsMsp(db, id); }
    assert db.companies == map[];
    assert forall c :: c in db.contacts ==> db.contacts[c].company in db.companies;
    assert db.contacts == map[];
  }

  lemma CreateOrgStep(cfg: Config, w: World, email: string, ch: Choice)
    requires Base(w) && RunOk(w, cfg, CreateOrg) && FreshIds(w, ch)
    ensures var (w', pc') := RunStep(cfg, w, email, CreateOrg, ch); Base(w') && RunOk(w', cfg, pc')
  {
  }

  lemma MakeCompanyStep(cfg: Config, w: World, email: string, ids: Ids, ch: Choice)
    requires Base(w) && RunOk(w, cfg, MakeCompany(ids)) && FreshIds(w, ch)
    ensures var (w', pc') := RunStep(cfg, w, email, MakeCompany(ids), ch); Base(w') && RunOk(w', cfg, pc')
  {
    if ch.ok && !HasMsp(w.db) {
      RowsOfMspOnly(w.db);
      var row := Company(ids.org, true, false, None, "");
      var w' := RunStep(cfg, w, email, MakeCompany(ids), ch).0;
      Services.NewCompanyKeepsSchema(w.db, ch.id, row);
      NewRowOrgs(w.db, ch.id, row);
      assert RowOrgs(w.db) == {};
      assert w'.db.companies == map[ch.id := row];
      assert forall c, u :: !HoldsUser(w'.db, c, u);
      assert IsMsp(w'.db, ch.id);
    }
  }

  /** What the two remaining inserts have to see to. */
  lemma PlantedTables(w: World, cfg: Config, ids: Ids, db': Tables)
    requires Base(w) && Planted(w, cfg, ids) && db'.companies == w.db.companies
    requires TeamOk(db', w.idp) && LiveMembers(db', w.idp)
    ensures Base(w.(db := db')) && Planted(w.(db := db'), cfg, ids)
  {
    var m :| IsMsp(w.db, m) && w.ws.orgId == Some(w.db.companies[m].org);
    assert IsMsp(db', m) && RowOrgs(db') == RowOrgs(w.db);
  }

  /** From here the saga can still be undone: its organisation is the MSP row's. */
  lemma PlantedCanBeUndone(w: World, cfg: Config, ids: Ids)
    requires Base(w) && Planted(w, cfg, ids)
    ensures Fallow(w, {ids.org})
  {
    var m :| IsMsp(w.db, m) && w.ws.orgId == Some(w.db.companies[m].org);
    assert ids.org in RowOrgs(w.db);
  }

  lemma ContactPlanted(cfg: Config, w: World, ids: Ids, m: CompanyId, id: ContactId, row: Contact)
    requires Base(w) && RunOk(w, cfg, MakeContact(ids, m)) && id !in w.db.contacts && ContactFits(w.db, row)
    requires row.company == m && row.user == Some(ids.user) && !row.archived
    ensures var w' := w.(db := AddContact(w.db, id, row)); Base(w') && RunOk(w', cfg, MakeGrant(ids, id))
  {
    NewContactKeepsTeam(w.db, w.idp, id, row);
    PlantedTables(w, cfg, ids, AddContact(w.db, id, row));
  }

  lemma MakeContactStep(cfg: Config, w: World, email: string, ids: Ids, m: CompanyId, ch: Choice)
    requires Base(w) && RunOk(w, cfg, MakeContact(ids, m)) && FreshIds(w, ch)
    ensures var (w', pc') := RunStep(cfg, w, email, MakeContact(ids, m), ch); Base(w') && RunOk(w', cfg, pc')
  {
    var row := Contact(m, NonEmpty(email), Some(ids.user), false);
    if ch.ok && ContactFits(w.db, row) {
      ContactPlanted(cfg, w, ids, m, ch.id, row);
    } else {
      PlantedCanBeUndone(w, cfg, ids);
    }
  }

  lemma AdminPlanted(cfg: Config, w: World, ids: Ids, c: ContactId)
    requires Base(w) && RunOk(w, cfg, MakeGrant(ids, c))
    ensures var w' := w.(db := AddGrant(w.db, c, Grant(Admin, Active)));
            Base(w') && RunOk(w', cfg, MarkReady(ids))
  {
    var db' := AddGrant(w.db, c, Grant(Admin, Active));
    GrantsKeepTeam(w.db, w.idp, db'.grants);
    PlantedTables(w, cfg, ids, db');
    assert c in ActiveAdmins(db'.grants);
  }

  lemma MakeGrantStep(cfg: Config, w: World, email: string, ids: Ids, c: ContactId, ch: Choice)
    requires Base(w) && RunOk(w, cfg, MakeGrant(ids, c)) && FreshIds(w, ch)
    ensures var (w', pc') := RunStep(cfg, w, email, MakeGrant(ids, c), ch); Base(w') && RunOk(w', cfg, pc')
  {
    if ch.ok && c !in w.db.grants {
      AdminPlanted(cfg, w, ids, c);
    } else {
      PlantedCanBeUndone(w, cfg, ids);
    }
  }

  lemma MarkReadyStep(cfg: Config, w: World, email: string, ids: Ids, ch: Choice)
    requires Base(w) && RunOk(w, cfg, MarkReady(ids))
    ensures var (w', pc') := RunStep(cfg, w, email, MarkReady(ids), ch); Base(w') && RunOk(w', cfg, pc')
  {
  }

  lemma MarkFailedStep(cfg: Config, w: World, email: string, e: InstallError, ch: Choice)
    requires Base(w) && RunOk(w, cfg, MarkFailed(e))
    ensures var (w', pc') := RunStep(cfg, w, email, MarkFailed(e), ch); Base(w') && RunOk(w', cfg, pc')
  {
  }

  lemma UndoStepOk(cfg: Config, w: World, email: string, o: OrgId, step: string, ch: Choice)
    requires Base(w) && RunOk(w, cfg, Undo(o, step))
    ensures var (w', pc') := RunStep(cfg, w, email, Undo(o, step), ch); Base(w') && RunOk(w', cfg, pc')
  {
  }

  lemma RunStepOk(cfg: Config, w: World, email: string, pc: RunPc, ch: Choice)
    requires Base(w) && RunOk(w, cfg, pc) && FreshIds(w, ch)
    ensures var (w', pc') := RunStep(cfg, w, email, pc, ch); Base(w') && RunOk(w', cfg, pc')
  {
    match pc
    case CreateOrg => CreateOrgStep(cfg, w, email, ch);
    case MakeCompany(ids) => MakeCompanyStep(cfg, w, email, ids, ch);
    case MakeContact(ids, m) => MakeContactStep(cfg, w, email, ids, m, ch);
    case MakeGrant(ids, c) => MakeGrantStep(cfg, w, email, ids, c, ch);
    case Undo(o, step) => UndoStepOk(cfg, w, email, o, step, ch);
    case MarkReady(ids) => MarkReadyStep(cfg, w, email, ids, ch);
    case MarkFailed(e) => MarkFailedStep(cfg, w, email, e, ch);
    case _ =>
  }

  // ------------------------------------------------------- the machine

  ghost predicate Alone(p: Process) {
    forall a, b :: a in Busy(p) && b in Busy(p) ==> a == b
  }

  /** With atomic admission only the owner of the slot is past its read. */
  lemma AtomicIsAlone(s: State)
    requires Inv(true, s)
    ensures Alone(s.proc)
  {
    forall a, b | a in Busy(s.proc) && b in Busy(s.proc) ensures a == b {
      assert Owner(s.proc, a) && Owner(s.proc, b);
    }
  }

  lemma PacedIsAlone(atomic_: bool, s: State, ls: seq<Label>)
    requires Legal(atomic_, s, ls) && Paced(atomic_, s, ls) && Inv(atomic_, Final(atomic_, s, ls))
    ensures Alone(Final(atomic_, s, ls).proc)
  {
    var t := Final(atomic_, s, ls);
    if atomic_ {
      AtomicIsAlone(t);
    } else {
      forall a, b | a in Busy(t.proc) && b in Busy(t.proc) ensures a == b {
        if a != b { Team.SubsetSize({a, b}, Busy(t.proc)); }
      }
    }
  }

  /** No other thread holds the slot, runs, gives it back or is about to take it. */
  lemma OthersAreIdle(p: Process, tid: nat)
    requires Alone(p) && tid in Busy(p)
    ensures forall a :: a in p.threads && a != tid ==> !Admitting(p.threads[a].pc)
  {
    forall a | a in p.threads && a != tid ensures !Admitting(p.threads[a].pc) {
      assert a in Busy(p) ==> a == tid;
    }
  }

  /** The owner moves from one point of its Run to another, or ends it. */
  lemma RunMoves(atomic_: bool, s: State, s': State, tid: nat)
    requires Inv(atomic_, s) && Alone(s.proc) && RunningThread(s.proc, tid) && s'.proc.Up?
    requires tid in s'.proc.threads && s'.proc.threads == s.proc.threads[tid := s'.proc.threads[tid]]
    requires Base(s'.w) && s'.proc.cfg == s.proc.cfg
    requires match s'.proc.threads[tid].pc
             case Running(run) => RunOk(s'.w, s.proc.cfg, run)
             case Releasing(_) => IdleOk(s'.w)
             case _ => false
    ensures WorldOk(s') && AdmissionOk(atomic_, s')
  {
    OthersAreIdle(s.proc, tid);
    assert forall a :: a in s'.proc.threads && a != tid ==> s'.proc.threads[a] == s.proc.threads[a];
    assert forall a :: RunningThread(s'.proc, a) ==> a == tid;
    if s'.proc.threads[tid].pc.Running? { assert RunningThread(s'.proc, tid); }
  }

  /** Only OnReady touches the gate, and once it is active no step of a Run touches the row. */
  lemma RunStepKeepsGate(atomic_: bool, s: State, tid: nat, ch: Choice)
    requires Inv(atomic_, s) && RunningThread(s.proc, tid) && !s.proc.threads[tid].pc.run.Finished?
    ensures GateOk(AdvanceThread(atomic_, s, tid, ch))
  {
    var run := s.proc.threads[tid].pc.run;
    assert RunOk(s.w, s.proc.cfg, run);
    if run.OnReady? {
      assert AdvanceThread(atomic_, s, tid, ch).w == s.w;
    } else {
      assert s.w.ws.state == Provisioning && s.proc.gate.None?;
      assert AdvanceThread(atomic_, s, tid, ch).proc.gate.None?;
    }
  }

  lemma RunAdvance(atomic_: bool, s: State, tid: nat, ch: Choice)
    requires Inv(atomic_, s) && Alone(s.proc) && RunningThread(s.proc, tid) && FreshIds(s.w, ch)
    ensures var s' := AdvanceThread(atomic_, s, tid, ch); WorldOk(s') && AdmissionOk(atomic_, s') && GateOk(s')
  {
    var s' := AdvanceThread(atomic_, s, tid, ch);
    var run := s.proc.threads[tid].pc.run;
    assert RunOk(s.w, s.proc.cfg, run);
    if run.Finished? {
      RunMoves(atomic_, s, s', tid);
    } else {
      var email := s.proc.threads[tid].request.email;
      RunStepOk(s.proc.cfg, s.w, email, run, ch);
      RunMoves(atomic_, s, s', tid);
      RunStepKeepsGate(atomic_, s, tid, ch);
    }
  }

  /** Steps that neither start nor end nor move a Run. */
  lemma QuietAdvance(atomic_: bool, s: State, s': State)
    requires Inv(atomic_, s) && s'.w == s.w && s.proc.Up? && s'.proc.Up?
    requires s'.proc.cfg == s.proc.cfg && s'.proc.gate == s.proc.gate
    requires forall a :: RunningThread(s'.proc, a) <==> RunningThread(s.proc, a)
    requires forall a :: RunningThread(s'.proc, a) && RunningThread(s.proc, a) ==> s'.proc.threads[a].pc == s.proc.threads[a].pc
    ensures WorldOk(s') && GateOk(s')
  {
  }

  lemma MarkAdvance(atomic_: bool, s: State, tid: nat, ch: Choice)
    requires Inv(atomic_, s) && Alone(s.proc) && s.proc.Up? && tid in s.proc.threads
    requires s.proc.threads[tid].pc.Holding? && ch.ok
    ensures var s' := AdvanceThread(atomic_, s, tid, ch); WorldOk(s') && AdmissionOk(atomic_, s') && GateOk(s')
  {
    var s' := AdvanceThread(atomic_, s, tid, ch);
    OthersAreIdle(s.proc, tid);
    assert !RunInProgress(s.proc);
    assert s'.proc.threads[tid].pc == Running(CreateOrg) && RunningThread(s'.proc, tid);
    assert forall a :: a in s'.proc.threads && a != tid ==> s'.proc.threads[a] == s.proc.threads[a];
    assert forall a :: RunningThread(s'.proc, a) ==> a == tid;
  }

  /** A step outside a Run and without a mark: where its thread gets to. */
  lemma QuietStep(atomic_: bool, s: State, tid: nat, ch: Choice)
    requires s.proc.Up? && tid in s.proc.threads && !s.proc.threads[tid].pc.Running?
    requires s.proc.threads[tid].pc.Holding? ==> !ch.ok
    ensures var s' := AdvanceThread(atomic_, s, tid, ch);
            && s'.w == s.w && s'.proc.Up? && s'.proc.cfg == s.proc.cfg && s'.proc.gate == s.proc.gate
            && tid in s'.proc.threads && s'.proc.threads == s.proc.threads[tid := s'.proc.threads[tid]]
            && var pc, pc' := s.proc.threads[tid].pc, s'.proc.threads[tid].pc;
               && !pc'.Running?
               && (pc'.EligibleSeen? ==> !atomic_ && Eligible(s.w.ws.state))
               && (pc'.Holding? ==> pc.EligibleSeen? || Eligible(s.w.ws.state))
  {
  }

  /** Admission, a failed mark, and giving the slot back. */
  lemma QuietAdmission(atomic_: bool, s: State, tid: nat, ch: Choice)
    requires Inv(atomic_, s) && s.proc.Up? && tid in s.proc.threads && !s.proc.threads[tid].pc.Running?
    requires s.proc.threads[tid].pc.Holding? ==> !ch.ok
    ensures var s' := AdvanceThread(atomic_, s, tid, ch); WorldOk(s') && AdmissionOk(atomic_, s') && GateOk(s')
  {
    var s' := AdvanceThread(atomic_, s, tid, ch);
    QuietStep(atomic_, s, tid, ch);
    assert forall a :: a in s'.proc.threads && a != tid ==> s'.proc.threads[a] == s.proc.threads[a];
    QuietAdvance(atomic_, s, s');
  }

  lemma AdvanceKeepsInv(atomic_: bool, s: State, tid: nat, ch: Choice)
    requires Inv(atomic_, s) && Alone(s.proc) && s.proc.Up? && tid in s.proc.threads && FreshIds(s.w, ch)
    ensures Inv(atomic_, AdvanceThread(atomic_, s, tid, ch))
  {
    AdvanceKeepsSlot(atomic_, s, tid, ch);
    var pc := s.proc.threads[tid].pc;
    if pc.Running? {
      RunAdvance(atomic_, s, tid, ch);
    } else if pc.Holding? && ch.ok {
      MarkAdvance(atomic_, s, tid, ch);
    } else {
      QuietAdmission(atomic_, s, tid, ch);
    }
  }

  lemma ReadyIsInstalled(atomic_: bool, s: State)
    requires Inv(atomic_, s) && s.w.ws.state == Ready
    ensures Base(s.w) && Installed(s.w) && Contracted(s.w.ws) && Causes(s.w) == 0
  {
    if RunInProgress(s.proc) {
      var tid :| RunningThread(s.proc, tid);
      assert RunOk(s.w, s.proc.cfg, s.proc.threads[tid].pc.run);
    }
  }

  /** A Run that has made the workspace ready does not mind what the handlers do. */
  lemma ReadyRunStays(w: World, w': World, cfg: Config, pc: RunPc)
    requires RunOk(w, cfg, pc) && w.ws.state == Ready && w'.ws == w.ws && Installed(w') && Causes(w') == 0
    ensures RunOk(w', cfg, pc)
  {
  }

  /** Nor does the invariant, as long as the workspace stays installed. */
  lemma InstalledKeepsInv(atomic_: bool, s: State, w': World)
    requires Inv(atomic_, s) && s.w.ws.state == Ready
    requires w'.ws == s.w.ws && Base(w') && Installed(w') && Causes(w') == 0
    ensures Inv(atomic_, s.(w := w'))
  {
    forall tid | RunningThread(s.proc, tid) ensures RunOk(w', s.proc.cfg, s.proc.threads[tid].pc.run) {
      ReadyRunStays(s.w, w', s.proc.cfg, s.proc.threads[tid].pc.run);
    }
  }

  lemma ServeKeepsInv(atomic_: bool, s: State, call: Call)
    requires Inv(atomic_, s) && Enabled(s, Serve(call))
    ensures Inv(atomic_, Next(atomic_, s, Serve(call)))
  {
    ReadyIsInstalled(atomic_, s);
    HandledKeepsInstalled(s.w, call);
    HandledKeepsCauses(s.w, call);
    InstalledKeepsInv(atomic_, s, Handled(s.w, call));
  }

  lemma BurialOk(atomic_: bool, s: State, tid: nat)
    requires Inv(atomic_, s) && RunningThread(s.proc, tid)
    ensures Base(BuriedWith(s, tid)) && IdleOk(BuriedWith(s, tid))
  {
    assert RunOk(s.w, s.proc.cfg, s.proc.threads[tid].pc.run);
  }

  lemma RestartKeepsInv(atomic_: bool, s: State, cfg: Config, readOk: bool, discovered: bool)
    requires Inv(atomic_, s)
    ensures Inv(atomic_, Next(atomic_, s, Restart(cfg, readOk, discovered)))
  {
    var s' := Next(atomic_, s, Restart(cfg, readOk, discovered));
    StepKeepsSlot(atomic_, s, Restart(cfg, readOk, discovered));
    assert !RunInProgress(s'.proc);
    if RunInProgress(s.proc) {
      var tid :| RunningThread(s.proc, tid) && s'.w == BuriedWith(s, tid);
      assert RunOk(s.w, s.proc.cfg, s.proc.threads[tid].pc.run);
      BurialOk(atomic_, s, tid);
    }
  }

  lemma StepKeepsInv(atomic_: bool, s: State, l: Label)
    requires Inv(atomic_, s) && Alone(s.proc) && Enabled(s, l)
    ensures Inv(atomic_, Next(atomic_, s, l))
  {
    match l
    case Arrive(tid, req) =>
      StepKeepsSlot(atomic_, s, l);
      QuietAdvance(atomic_, s, Next(atomic_, s, l));
    case Advance(tid, ch) => AdvanceKeepsInv(atomic_, s, tid, ch);
    case Serve(call) => ServeKeepsInv(atomic_, s, call);
    case Restart(cfg, readOk, discovered) => RestartKeepsInv(atomic_, s, cfg, readOk, discovered);
  }

  lemma {:induction false} RunKeepsInv(atomic_: bool, s: State, ls: seq<Label>)
    requires Inv(atomic_, s) && Legal(atomic_, s, ls) && Paced(atomic_, s, ls)
    ensures Inv(atomic_, Final(atomic_, s, ls))
  {
    if ls == [] {
    } else {
      var before := ls[..|ls| - 1];
      RunKeepsInv(atomic_, s, before);
      PacedIsAlone(atomic_, s, before);
      StepKeepsInv(atomic_, Final(atomic_, s, before), ls[|ls| - 1]);
    }
  }

  lemma InitOk(atomic_: bool)
    ensures Inv(atomic_, INIT)
  {
  }
}
