/** One deployment over its whole life: install requests and the saga step by step,
    process restarts, and, once the gate is active, the RPC handlers one at a time. */
module Lifecycle {
  import opened Schema
  import opened Contract
  import opened Install
  import Gate
  import Authz
  import Team
  import Services

  datatype Thread = Thread(request: InstallRequest, pc: InstallPc)

  /** `marks` counts the MarkWorkspaceProvisioning statements that took effect. */
  datatype Process =
    | Down
    | Up(cfg: Config, inflight: bool, gate: Option<Gate.Verifier>, marks: nat, threads: map<nat, Thread>)

  datatype State = State(w: World, proc: Process)

  datatype Call =
    | InviteMember(invite: Team.InviteRequest, inviteFaults: Team.InviteFaults)
    | GuardedCall(op: Team.GuardOp, member: ContactId, guardFaults: Team.GuardFaults)
    | SignIn(rules: Authz.Rules, request: Authz.Request, resolveOk: bool, activateOk: bool)
    | CreateContact(company: CompanyId, email: Option<string>, contactId: ContactId, checkOk: bool, insertOk: bool)
    | UpdateContact(contact: ContactId, newEmail: Option<string>, ok: bool)
    | ArchiveContact(target: ContactId, hasGrantOk: bool, archiveOk: bool)
    | CreateCompany(form: Services.CompanyForm, readyOk: bool, orgOk: bool, rowOk: bool, org: OrgId, companyId: CompanyId)
    | UpdateCompany(updated: CompanyId, form: Services.CompanyForm, readyOk: bool, ok: bool, explainOk: bool)
    | ArchiveCompany(archived: CompanyId, readyOk: bool, getOk: bool, writeOk: bool)
    | RestoreCompany(restored: CompanyId, readyOk: bool, getOk: bool, writeOk: bool)
    | UpdateWorkspaceCompany(form: Services.CompanyForm, readyOk: bool, ok: bool)

  datatype Label =
    | Arrive(tid: nat, request: InstallRequest)
    | Advance(tid: nat, ch: Choice)
    | Serve(call: Call)
    | Restart(cfg: Config, readOk: bool, discovered: bool)

  // ----------------------------------------------------------- the steps

  predicate FreshIds(w: World, ch: Choice) {
    && ch.org != "" && ch.org !in w.idp.everOrgs
    && ch.user != "" && ch.user !in w.idp.everUsers
    && ch.text != "" && ch.text2 != ""
    && ch.id !in w.db.contacts && ch.id !in w.db.companies
  }

  predicate FreshCall(w: World, call: Call) {
    match call
    case InviteMember(_, f) => FreshIds(w, f.mint) && FreshIds(w, f.contact)
    case CreateContact(_, _, id, _, _) => id !in w.db.contacts
    case CreateCompany(_, _, _, _, org, id) => org != "" && org !in w.idp.everOrgs && id !in w.db.companies
    case _ => true
  }

  /** What one handler call leaves behind. */
  ghost function Handled(w: World, call: Call): World {
    match call
    case InviteMember(req, f) => Team.RunInvite(w, req, Team.Validating, f).0
    case GuardedCall(op, c, f) => w.(db := Team.RunGuard(w.db, op, c, Team.Loading, f).0)
    case SignIn(rules, req, resolveOk, activateOk) => w.(db := Authz.RunRequest(rules, w.db, req, resolveOk, activateOk).0)
    case CreateContact(co, email, id, checkOk, insertOk) =>
      w.(db := Services.CreateContact(w.db, co, email, id, checkOk, insertOk).0)
    case UpdateContact(c, email, ok) => w.(db := Services.UpdateContact(w.db, c, email, ok).0)
    case ArchiveContact(c, checkOk, writeOk) => w.(db := Team.RunArchive(w.db, c, checkOk, writeOk).0)
    case CreateCompany(form, readOk, orgOk, rowOk, org, id) =>
      Services.CreateCompany(w, form, readOk, orgOk, rowOk, org, id).0
    case UpdateCompany(id, form, readOk, ok, explainOk) =>
      Services.UpdateCompany(w, id, form, readOk, ok, explainOk).0
    case ArchiveCompany(id, readOk, getOk, writeOk) => Services.ArchiveCompany(w, id, readOk, getOk, writeOk).0
    case RestoreCompany(id, readOk, getOk, writeOk) => Services.RestoreCompany(w, id, readOk, getOk, writeOk).0
    case UpdateWorkspaceCompany(form, readOk, ok) => Services.UpdateMsp(w, form, readOk, ok).0
  }

  /** Gate.Activate on the contract of this process and project. */
  function Activated(gate: Option<Gate.Verifier>, c: AuthContract, discovered: bool): Option<Gate.Verifier> {
    if c.issuer == "" || c.audience == "" || !discovered then gate
    else Some(Gate.Verifier(c.issuer, c.audience))
  }

  ghost function AdvanceThread(atomic_: bool, s: State, tid: nat, ch: Choice): State
    requires s.proc.Up? && tid in s.proc.threads
  {
    var t, p := s.proc.threads[tid], s.proc;
    match t.pc
    case Requested =>
      var (inflight', pc') := Admit(atomic_, s.w.ws, p.inflight, t.request, t.pc, ch.ok);
      s.(proc := p.(inflight := inflight', threads := p.threads[tid := t.(pc := pc')]))
    case EligibleSeen =>
      var (inflight', pc') := TakeSlot(p.inflight);
      s.(proc := p.(inflight := inflight', threads := p.threads[tid := t.(pc := pc')]))
    case Holding =>
      if !ch.ok then s.(proc := p.(threads := p.threads[tid := t.(pc := Releasing(false))]))
      else State(s.w.(ws := MarkProvisioning(s.w.ws)),
                 p.(marks := p.marks + 1, threads := p.threads[tid := t.(pc := Running(CreateOrg))]))
    case Running(run) =>
      if run.Finished? then s.(proc := p.(threads := p.threads[tid := t.(pc := Releasing(true))]))
      else
        var (w', run') := RunStep(p.cfg, s.w, t.request.email, run, ch);
        var gate' := if run.OnReady? then Activated(p.gate, DeriveFresh(p.cfg, run.ids.project), ch.ok) else p.gate;
        State(w', p.(gate := gate', threads := p.threads[tid := t.(pc := Running(run'))]))
    case Releasing(ran) =>
      s.(proc := p.(inflight := false, threads := p.threads[tid := t.(pc := Over(ran))]))
    case Over(_) => s
    case Refused(_) => s
  }

  predicate RunningThread(p: Process, tid: nat) {
    p.Up? && tid in p.threads && p.threads[tid].pc.Running?
  }

  ghost predicate RunInProgress(p: Process) {
    exists tid :: RunningThread(p, tid)
  }

  /** The row says provisioning and the Run has work left to do on it. */
  predicate MidRun(pc: RunPc) {
    !pc.OnReady? && !pc.Finished?
  }

  function RowOrgs(db: Tables): set<OrgId> {
    set id | id in db.companies :: db.companies[id].org
  }

  /** What dies with a process whose thread `tid` is running: the organisation in
      its hands, if no row records it. */
  function BuriedWith(s: State, tid: nat): World
    requires RunningThread(s.proc, tid)
  {
    var run := s.proc.threads[tid].pc.run;
    s.w.(log := s.w.log.(deaths := s.w.log.deaths + if MidRun(run) then 1 else 0,
                         abandoned := s.w.log.abandoned + (HeldOrg(run) - RowOrgs(s.w.db))))
  }

  ghost function Buried(s: State): World {
    if RunInProgress(s.proc) then var tid :| RunningThread(s.proc, tid); BuriedWith(s, tid) else s.w
  }

  /** A new process: eager activation when the row says ready, and a refusal to start
      when the contract is incomplete or discovery fails. */
  function Booted(ws: Workspace, cfg: Config, readOk: bool, discovered: bool): Process {
    if readOk && ws.state == Ready then
      if Text(ws.issuer) == "" || Text(ws.audience) == "" || !discovered then Down
      else Up(cfg, false, Some(Gate.Verifier(Text(ws.issuer), Text(ws.audience))), 0, map[])
    else Up(cfg, false, None, 0, map[])
  }

  predicate Enabled(s: State, l: Label) {
    match l
    case Arrive(tid, _) => s.proc.Up? && tid !in s.proc.threads
    case Advance(tid, ch) => s.proc.Up? && tid in s.proc.threads && FreshIds(s.w, ch)
    case Serve(call) => s.proc.Up? && s.proc.gate.Some? && FreshCall(s.w, call)
    case Restart(_, _, _) => true
  }

  ghost function Next(atomic_: bool, s: State, l: Label): State
    requires Enabled(s, l)
  {
    match l
    case Arrive(tid, req) => s.(proc := s.proc.(threads := s.proc.threads[tid := Thread(req, Requested)]))
    case Advance(tid, ch) => AdvanceThread(atomic_, s, tid, ch)
    case Serve(call) => s.(w := Handled(s.w, call))
    case Restart(cfg, readOk, discovered) => State(Buried(s), Booted(s.w.ws, cfg, readOk, discovered))
  }

  ghost predicate Legal(atomic_: bool, s: State, ls: seq<Label>)
    decreases |ls|, 0
  {
    ls == [] ||
    (Legal(atomic_, s, ls[..|ls| - 1]) && Enabled(Final(atomic_, s, ls[..|ls| - 1]), ls[|ls| - 1]))
  }

  ghost function Final(atomic_: bool, s: State, ls: seq<Label>): State
    requires Legal(atomic_, s, ls)
    decreases |ls|, 1
  {
    if ls == [] then s else Next(atomic_, Final(atomic_, s, ls[..|ls| - 1]), ls[|ls| - 1])
  }

  /** The requests between their eligibility read and giving back the slot. */
  function Busy(p: Process): set<nat> {
    if p.Down? then {} else set tid | tid in p.threads && Admitting(p.threads[tid].pc)
  }

  /** At most k requests are that far in every state of the run. */
  ghost predicate AtMost(atomic_: bool, s: State, ls: seq<Label>, k: nat)
    requires Legal(atomic_, s, ls)
  {
    && |Busy(Final(atomic_, s, ls).proc)| <= k
    && (ls != [] ==> AtMost(atomic_, s, ls[..|ls| - 1], k))
  }

  /** Admission is atomic, or install requests do not overlap. */
  ghost predicate Paced(atomic_: bool, s: State, ls: seq<Label>)
    requires Legal(atomic_, s, ls)
  {
    atomic_ || AtMost(atomic_, s, ls, 1)
  }

  lemma Extend(atomic_: bool, s: State, ls: seq<Label>, l: Label)
    requires Legal(atomic_, s, ls) && Enabled(Final(atomic_, s, ls), l)
    ensures Legal(atomic_, s, ls + [l])
    ensures Final(atomic_, s, ls + [l]) == Next(atomic_, Final(atomic_, s, ls), l)
  {
  }

  /** A freshly migrated database, an empty ZITADEL, no process yet. */
  const EMPTY_LEDGER: Ledger := Ledger({}, multiset{}, {}, {}, {}, {}, 0, 0)
  const INIT: State := State(World(Workspace(NotInitialized, None, None, None, None, None, None, None, None),
                                   Tables(map[], map[], map[]), Directory({}, map[], {}, {}), EMPTY_LEDGER), Down)

  // -------------------------------------------------------- single flight

  predicate Owner(p: Process, tid: nat) {
    p.Up? && tid in p.threads && Owns(p.threads[tid].pc)
  }

  function Runs(p: Process): set<nat>
    requires p.Up?
  {
    set tid | tid in p.threads && Ran(p.threads[tid].pc)
  }

  /** The slot is taken exactly when one thread owns it, and as many threads have
      started a Run as there were provisioning marks. */
  ghost predicate SlotOk(p: Process) {
    p.Up? ==>
      && (forall a, b :: Owner(p, a) && Owner(p, b) ==> a == b)
      && (p.inflight <==> exists a :: Owner(p, a))
      && |Runs(p)| == p.marks
  }

  /** How one thread's step moves the slot: it is gained only when free, given back
      only by its owner, and a Run starts only with a mark. */
  lemma AdvanceMovesSlot(atomic_: bool, s: State, tid: nat, ch: Choice)
    requires s.proc.Up? && tid in s.proc.threads
    ensures var p, p' := s.proc, AdvanceThread(atomic_, s, tid, ch).proc;
            && p'.Up? && tid in p'.threads && p'.threads == p.threads[tid := p'.threads[tid]]
            && var pc, pc' := p.threads[tid].pc, p'.threads[tid].pc;
               && (Owns(pc) && !Owns(pc') ==> pc.Releasing? && !p'.inflight)
               && (!Owns(pc) && Owns(pc') ==> !p.inflight && p'.inflight)
               && (Owns(pc) == Owns(pc') ==> p'.inflight == p.inflight)
               && (Ran(pc) ==> Ran(pc'))
               && p'.marks == p.marks + if Ran(pc') && !Ran(pc) then 1 else 0
  {
  }

  lemma MovedSlotOk(p: Process, p': Process, tid: nat)
    requires SlotOk(p) && p.Up? && p'.Up? && tid in p.threads
    requires tid in p'.threads && p'.threads == p.threads[tid := p'.threads[tid]]
    requires Owner(p, tid) && !Owner(p', tid) ==> !p'.inflight
    requires !Owner(p, tid) && Owner(p', tid) ==> !p.inflight && p'.inflight
    requires Owner(p, tid) == Owner(p', tid) ==> p'.inflight == p.inflight
    requires Ran(p.threads[tid].pc) ==> Ran(p'.threads[tid].pc)
    requires p'.marks == p.marks + if Ran(p'.threads[tid].pc) && !Ran(p.threads[tid].pc) then 1 else 0
    ensures SlotOk(p')
  {
    assert forall a :: a != tid ==> (Owner(p', a) <==> Owner(p, a));
    if Owner(p, tid) == Owner(p', tid) {
      assert forall a :: Owner(p', a) <==> Owner(p, a);
    }
    if Ran(p'.threads[tid].pc) && !Ran(p.threads[tid].pc) {
      assert Runs(p') == Runs(p) + {tid};
    } else {
      assert Runs(p') == Runs(p);
    }
  }

  lemma AdvanceKeepsSlot(atomic_: bool, s: State, tid: nat, ch: Choice)
    requires SlotOk(s.proc) && s.proc.Up? && tid in s.proc.threads
    ensures SlotOk(AdvanceThread(atomic_, s, tid, ch).proc)
  {
    AdvanceMovesSlot(atomic_, s, tid, ch);
    MovedSlotOk(s.proc, AdvanceThread(atomic_, s, tid, ch).proc, tid);
  }

  lemma StepKeepsSlot(atomic_: bool, s: State, l: Label)
    requires SlotOk(s.proc) && Enabled(s, l)
    ensures SlotOk(Next(atomic_, s, l).proc)
  {
    match l
    case Advance(tid, ch) => AdvanceKeepsSlot(atomic_, s, tid, ch);
    case Arrive(tid, _) =>
      assert forall a :: Owner(Next(atomic_, s, l).proc, a) <==> Owner(s.proc, a);
      assert Runs(Next(atomic_, s, l).proc) == Runs(s.proc);
    case Serve(_) =>
    case Restart(cfg, readOk, discovered) =>
      var p' := Next(atomic_, s, l).proc;
      if p'.Up? { assert Runs(p') == {}; }
  }

  lemma OneRun(p: Process)
    requires SlotOk(p)
    ensures forall a, b :: RunningThread(p, a) && RunningThread(p, b) ==> a == b
  {
    forall a, b | RunningThread(p, a) && RunningThread(p, b) ensures a == b {
      assert Owner(p, a) && Owner(p, b);
    }
  }

  /** At any moment of any run, with the admission as written or made atomic. */
  lemma {:induction false} SingleFlight(atomic_: bool, ls: seq<Label>)
    requires Legal(atomic_, INIT, ls)
    ensures SlotOk(Final(atomic_, INIT, ls).proc)
    ensures forall a, b :: RunningThread(Final(atomic_, INIT, ls).proc, a) && RunningThread(Final(atomic_, INIT, ls).proc, b)
              ==> a == b
  {
    if ls == [] {
    } else {
      SingleFlight(atomic_, ls[..|ls| - 1]);
      StepKeepsSlot(atomic_, Final(atomic_, INIT, ls[..|ls| - 1]), ls[|ls| - 1]);
    }
    OneRun(Final(atomic_, INIT, ls).proc);
  }
  // ------------------------------------------------------ who may install

  /** Only a request with the right token and a valid form gets past its checks. */
  predicate Authorised(t: Thread) {
    match t.pc
    case Requested => true
    case Refused(BadToken) => !t.request.tokenOk
    case Refused(BadRequest) => t.request.tokenOk && !t.request.wellFormed
    case _ => t.request.tokenOk && t.request.wellFormed
  }

  predicate AllAuthorised(p: Process) {
    p.Up? ==> forall tid :: tid in p.threads ==> Authorised(p.threads[tid])
  }

  lemma StepKeepsAuthorised(atomic_: bool, s: State, l: Label)
    requires Enabled(s, l) && AllAuthorised(s.proc)
    ensures AllAuthorised(Next(atomic_, s, l).proc)
  {
  }

  /** In every run, with or without atomic admission: whoever is past the eligibility
      read, owns the slot, has run or runs, came with the token and a valid form, and
      the two refusals for lack of them are exact. */
  lemma {:induction false} InstallersAreAuthorised(atomic_: bool, ls: seq<Label>)
    requires Legal(atomic_, INIT, ls)
    ensures AllAuthorised(Final(atomic_, INIT, ls).proc)
  {
    if ls == [] {
    } else {
      InstallersAreAuthorised(atomic_, ls[..|ls| - 1]);
      StepKeepsAuthorised(atomic_, Final(atomic_, INIT, ls[..|ls| - 1]), ls[|ls| - 1]);
    }
  }

  /** No request of the run carries both the token and a valid form. */
  predicate NobodyMayInstall(ls: seq<Label>) {
    forall i :: 0 <= i < |ls| && ls[i].Arrive? ==> !(ls[i].request.tokenOk && ls[i].request.wellFormed)
  }

  predicate NothingStarted(p: Process) {
    p.Up? ==> p.gate.None? && forall tid :: tid in p.threads ==>
      !(p.threads[tid].request.tokenOk && p.threads[tid].request.wellFormed)
  }

  lemma StepStartsNothing(atomic_: bool, s: State, l: Label)
    requires Enabled(s, l) && AllAuthorised(s.proc) && NothingStarted(s.proc) && s.w == INIT.w
    requires l.Arrive? ==> !(l.request.tokenOk && l.request.wellFormed)
    ensures NothingStarted(Next(atomic_, s, l).proc) && Next(atomic_, s, l).w == INIT.w
  {
    if l.Restart? {
      forall tid ensures !RunningThread(s.proc, tid) {
        assert RunningThread(s.proc, tid) ==> Authorised(s.proc.threads[tid]);
      }
    }
  }

  /** So without such a request nothing ever happens: no run changes the tables, the
      workspace row or ZITADEL, or activates the gate. */
  lemma {:induction false} NothingWithoutToken(atomic_: bool, ls: seq<Label>)
    requires Legal(atomic_, INIT, ls) && NobodyMayInstall(ls)
    ensures NothingStarted(Final(atomic_, INIT, ls).proc) && Final(atomic_, INIT, ls).w == INIT.w
  {
    if ls == [] {
    } else {
      NothingWithoutToken(atomic_, ls[..|ls| - 1]);
      InstallersAreAuthorised(atomic_, ls[..|ls| - 1]);
      StepStartsNothing(atomic_, Final(atomic_, INIT, ls[..|ls| - 1]), ls[|ls| - 1]);
    }
  }

  // --------------------------------------------------------- a new process

  /** What a new process makes of the row: it refuses to start exactly on a ready row
      with an incomplete contract or without discovery, and its gate is active exactly
      on a ready row otherwise, for the issuer and audience on the row. */
  lemma BootedMeaning(ws: Workspace, cfg: Config, readOk: bool, discovered: bool)
    ensures var p := Booted(ws, cfg, readOk, discovered);
            var ready := readOk && ws.state == Ready;
            var complete := ws.issuer.Some? && ws.issuer.value != "" && ws.audience.Some? && ws.audience.value != "";
            && (p.Down? <==> ready && !(complete && discovered))
            && (p.Up? ==> p.cfg == cfg && !p.inflight && p.threads == map[]
                          && p.gate == if ready then Some(Gate.Verifier(ws.issuer.value, ws.audience.value)) else None)
  {
  }

  /** The eager activation at the next start takes up the verifier of the OnReady hook. */
  lemma RestartAfterRun(cfg: Config, w: World, email: string, f: RunFaults, next: Config)
    requires ValidSchema(w.db) && f.contact.id !in w.db.contacts && RunSaga(cfg, w, email, CreateOrg, f).1 == Finished(true)
    ensures var w' := RunSaga(cfg, w, email, CreateOrg, f).0;
            var issuer, audience := if cfg.authIssuer != "" then cfg.authIssuer else cfg.adminApiUrl, f.project.text;
            Booted(w'.ws, next, true, true) ==
              if issuer != "" && audience != "" then Up(next, false, Some(Gate.Verifier(issuer, audience)), 0, map[]) else Down
  {
    SuccessfulRun(cfg, w, email, f);
  }
}
