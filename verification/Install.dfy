/** The installation: admission of a request (internal/install/handler.go) and the
    provisioning saga (internal/install/orchestrator.go), one statement, remote call
    or lock operation at a time. */
module Install {
  import opened Schema
  import opened Contract

  // -------------------------------------------------------------- the saga

  /** The identifiers ZITADEL returned, as the saga's local variables hold them. */
  datatype Ids = Ids(org: OrgId, user: UserId, project: string, app: string, client: string)

  datatype RunPc =
    | CreateOrg
    | CreateProject(org: OrgId, user: UserId)
    | CreateApp(org: OrgId, user: UserId, project: string)
    | PersistIds(ids: Ids)
    | MakeCompany(ids: Ids)
    | MakeContact(ids: Ids, company: CompanyId)
    | MakeGrant(ids: Ids, contact: ContactId)
    | MarkReady(ids: Ids)
    | OnReady(ids: Ids)
    | Undo(created: OrgId, step: string)
    | MarkFailed(error: InstallError)
    | Finished(success: bool)

  predicate Eligible(st: InstallState) {
    st == NotInitialized || st == Failed
  }

  function Persisted(ws: Workspace, cfg: Config, ids: Ids): Workspace {
    var contract := DeriveFresh(cfg, ids.project);
    ws.(orgId := Some(ids.org), projectId := Some(ids.project), spaAppId := Some(ids.app),
        spaClientId := Some(ids.client), issuer := NonEmpty(contract.issuer),
        managementUrl := NonEmpty(contract.managementUrl), audience := NonEmpty(contract.audience))
  }

  /** One step of Run.  OnReady touches the gate only, so it is left to the caller. */
  ghost function RunStep(cfg: Config, w: World, email: string, pc: RunPc, ch: Choice): (World, RunPc) {
    match pc
    case CreateOrg =>
      if !ch.ok then (w, MarkFailed(InstallError("create_org", false)))
      else (w.(idp := AddUser(AddOrg(w.idp, ch.org), ch.user, ch.org)), CreateProject(ch.org, ch.user))
    case CreateProject(o, u) =>
      if !ch.ok then (w, Undo(o, "create_project")) else (w, CreateApp(o, u, ch.text))
    case CreateApp(o, u, p) =>
      if !ch.ok then (w, Undo(o, "create_oidc_app")) else (w, PersistIds(Ids(o, u, p, ch.text, ch.text2)))
    case PersistIds(ids) =>
      if !ch.ok then (w, Undo(ids.org, "persist_ids"))
      else (w.(ws := Persisted(w.ws, cfg, ids)), MakeCompany(ids))
    case MakeCompany(ids) =>
      if !ch.ok || HasMsp(w.db) || OrgTaken(w.db, ids.org) then (w, Undo(ids.org, "materialize_team"))
      else (w.(db := AddCompany(w.db, ch.id, Company(ids.org, true, false, None, ""))), MakeContact(ids, ch.id))
    case MakeContact(ids, m) =>
      var row := Contact(m, NonEmpty(email), Some(ids.user), false);
      if !ch.ok || !ContactFits(w.db, row) then (w, Undo(ids.org, "materialize_team"))
      else (w.(db := AddContact(w.db, ch.id, row)), MakeGrant(ids, ch.id))
    case MakeGrant(ids, c) =>
      if !ch.ok || c in w.db.grants || c !in w.db.contacts then (w, Undo(ids.org, "materialize_team"))
      else (w.(db := AddGrant(w.db, c, Grant(Admin, Active))), MarkReady(ids))
    case MarkReady(ids) =>
      if !ch.ok then (w, Undo(ids.org, "mark_ready"))
      else (w.(ws := w.ws.(state := Ready, error := None)), OnReady(ids))
    case OnReady(_) => (w, Finished(true))
    case Undo(o, step) =>
      if ch.ok then (w.(idp := DropOrg(w.idp, o)), MarkFailed(InstallError(step, false)))
      else (w.(log := w.log.(failedOrgRemovals := w.log.failedOrgRemovals + {o})), MarkFailed(InstallError(step, true)))
    case MarkFailed(e) =>
      if ch.ok then (w.(ws := w.ws.(state := Failed, error := Some(e))), Finished(false))
      else (w.(log := w.log.(failedMarks := w.log.failedMarks + 1)), Finished(false))
    case Finished(_) => (w, pc)
  }

  /** The organisation the saga has created and neither recorded nor removed. */
  function HeldOrg(pc: RunPc): set<OrgId> {
    match pc
    case CreateProject(o, _) => {o}
    case CreateApp(o, _, _) => {o}
    case PersistIds(ids) => {ids.org}
    case MakeCompany(ids) => {ids.org}
    case Undo(o, _) => {o}
    case _ => {}
  }

  function RunRank(pc: RunPc): nat {
    match pc
    case CreateOrg => 11 case CreateProject(_, _) => 10 case CreateApp(_, _, _) => 9
    case PersistIds(_) => 8 case MakeCompany(_) => 7 case MakeContact(_, _) => 6
    case MakeGrant(_, _) => 5 case MarkReady(_) => 4 case OnReady(_) => 3
    case Undo(_, _) => 2 case MarkFailed(_) => 1 case Finished(_) => 0
  }

  /** One outcome for each step of the saga. */
  datatype RunFaults = RunFaults(setUpOrg: Choice, project: Choice, app: Choice, persist: Choice, company: Choice,
                                 contact: Choice, grant: Choice, ready: Choice, undo: Choice, fail: Choice)

  function RunChoice(f: RunFaults, pc: RunPc): Choice {
    match pc
    case CreateOrg => f.setUpOrg
    case CreateProject(_, _) => f.project
    case CreateApp(_, _, _) => f.app
    case PersistIds(_) => f.persist
    case MakeCompany(_) => f.company
    case MakeContact(_, _) => f.contact
    case MakeGrant(_, _) => f.grant
    case MarkReady(_) => f.ready
    case Undo(_, _) => f.undo
    case _ => f.fail
  }

  /** The saga from `pc` on, uninterrupted. */
  ghost function RunSaga(cfg: Config, w: World, email: string, pc: RunPc, f: RunFaults): (World, RunPc)
    decreases RunRank(pc)
  {
    if pc.Finished? then (w, pc)
    else
      var (w', pc') := RunStep(cfg, w, email, pc, RunChoice(f, pc));
      RunSaga(cfg, w', email, pc', f)
  }

  // ------------------------------------------- what the saga amounts to

  function RunIds(f: RunFaults): Ids {
    Ids(f.setUpOrg.org, f.setUpOrg.user, f.project.text, f.app.text, f.app.text2)
  }

  function AdminRow(email: string, f: RunFaults): Contact {
    Contact(f.company.id, NonEmpty(email), Some(f.setUpOrg.user), false)
  }

  function WithMsp(w: World, f: RunFaults): Tables {
    AddCompany(w.db, f.company.id, Company(f.setUpOrg.org, true, false, None, ""))
  }

  /** The row with the seven columns that the outcomes of the first steps supply. */
  function Bound(ws: Workspace, cfg: Config, f: RunFaults): Workspace {
    var issuer := if cfg.authIssuer != "" then cfg.authIssuer else cfg.adminApiUrl;
    ws.(orgId := Some(f.setUpOrg.org), projectId := Some(f.project.text),
        spaAppId := Some(f.app.text), spaClientId := Some(f.app.text2),
        issuer := if issuer == "" then None else Some(issuer),
        managementUrl := if cfg.adminApiUrl == "" then None else Some(cfg.adminApiUrl),
        audience := if f.project.text == "" then None else Some(f.project.text))
  }

  /** ZITADEL with the organisation and its first user, and without them again: with the
      organisation goes everybody in it. */
  function WithOrg(d: Directory, f: RunFaults): Directory {
    var o, u := f.setUpOrg.org, f.setUpOrg.user;
    Directory(d.orgs + {o}, d.users[u := o], d.everOrgs + {o}, d.everUsers + {u})
  }

  function WithoutOrg(d: Directory, f: RunFaults): Directory {
    var o, u := f.setUpOrg.org, f.setUpOrg.user;
    Directory(d.orgs - {o}, map v | v in d.users && v != u && d.users[v] != o :: d.users[v], d.everOrgs + {o}, d.everUsers + {u})
  }

  lemma DirectoryMeaning(d: Directory, f: RunFaults)
    ensures var minted := AddUser(AddOrg(d, f.setUpOrg.org), f.setUpOrg.user, f.setUpOrg.org);
            minted == WithOrg(d, f) && DropOrg(minted, f.setUpOrg.org) == WithoutOrg(d, f)
  {
    var o := f.setUpOrg.org;
    var minted := AddUser(AddOrg(d, o), f.setUpOrg.user, o);
    assert d.orgs + {o} - {o} == d.orgs - {o};
    assert DropOrg(minted, o).users == WithoutOrg(d, f).users;
  }

  /** The contract gets persisted. */
  predicate Bootstraps(f: RunFaults) {
    f.setUpOrg.ok && f.project.ok && f.app.ok && f.persist.ok
  }

  /** The insert of the MSP row would take effect, and of its admin's contact too. */
  ghost predicate InsertsMsp(w: World, f: RunFaults) {
    f.company.ok && !HasMsp(w.db) && !OrgTaken(w.db, f.setUpOrg.org)
  }

  ghost predicate InsertsAdmin(w: World, email: string, f: RunFaults) {
    InsertsMsp(w, f) && f.contact.ok && ContactFits(WithMsp(w, f), AdminRow(email, f))
  }

  /** The step that fails first, None when all succeed. */
  ghost function FirstFailure(w: World, email: string, f: RunFaults): Option<string> {
    if !f.setUpOrg.ok then Some("create_org")
    else if !f.project.ok then Some("create_project")
    else if !f.app.ok then Some("create_oidc_app")
    else if !f.persist.ok then Some("persist_ids")
    else if !InsertsAdmin(w, email, f) || !f.grant.ok then Some("materialize_team")
    else if !f.ready.ok then Some("mark_ready")
    else None
  }

  /** The tables once the three inserts have been tried in order. */
  ghost function Planting(w: World, email: string, f: RunFaults): Tables {
    var db2 := AddContact(WithMsp(w, f), f.contact.id, AdminRow(email, f));
    if !InsertsMsp(w, f) then w.db
    else if !InsertsAdmin(w, email, f) then WithMsp(w, f)
    else if !f.grant.ok then db2
    else AddGrant(db2, f.contact.id, Grant(Admin, Active))
  }

  /** What compensation leaves behind: the named step recorded, if that succeeds, the
      organisation removed, if that does, and the tables as they are. */
  predicate Undone(w: World, o: OrgId, step: string, f: RunFaults, r: (World, RunPc)) {
    && r.1 == Finished(false) && r.0.db == w.db
    && r.0.ws == (if f.fail.ok then w.ws.(state := Failed, error := Some(InstallError(step, !f.undo.ok))) else w.ws)
    && r.0.idp == (if f.undo.ok then DropOrg(w.idp, o) else w.idp)
  }

  lemma MarkFailedMeaning(cfg: Config, w: World, email: string, step: string, cleanupFailed: bool, f: RunFaults)
    ensures var (w', pc') := RunSaga(cfg, w, email, MarkFailed(InstallError(step, cleanupFailed)), f);
            && pc' == Finished(false) && w'.db == w.db && w'.idp == w.idp
            && w'.ws == if f.fail.ok then w.ws.(state := Failed, error := Some(InstallError(step, cleanupFailed))) else w.ws
  {
  }

  lemma UndoMeaning(cfg: Config, w: World, email: string, o: OrgId, step: string, f: RunFaults)
    ensures Undone(w, o, step, f, RunSaga(cfg, w, email, Undo(o, step), f))
  {
    var (w1, pc1) := RunStep(cfg, w, email, Undo(o, step), f.undo);
    assert RunSaga(cfg, w, email, Undo(o, step), f) == RunSaga(cfg, w1, email, pc1, f);
    MarkFailedMeaning(cfg, w1, email, step, !f.undo.ok, f);
  }

  /** From the project to the persisted contract. */
  lemma BootstrapMeaning(cfg: Config, w: World, email: string, f: RunFaults)
    ensures var o, u := f.setUpOrg.org, f.setUpOrg.user;
            var r := RunSaga(cfg, w, email, CreateProject(o, u), f);
            if !f.project.ok then Undone(w, o, "create_project", f, r)
            else if !f.app.ok then Undone(w, o, "create_oidc_app", f, r)
            else if !f.persist.ok then Undone(w, o, "persist_ids", f, r)
            else r == RunSaga(cfg, w.(ws := Persisted(w.ws, cfg, RunIds(f))), email, MakeCompany(RunIds(f)), f)
  {
    var o, u := f.setUpOrg.org, f.setUpOrg.user;
    var pc1 := RunStep(cfg, w, email, CreateProject(o, u), f.project).1;
    assert RunSaga(cfg, w, email, CreateProject(o, u), f) == RunSaga(cfg, w, email, pc1, f);
    if pc1.Undo? {
      UndoMeaning(cfg, w, email, o, "create_project", f);
    } else {
      var pc2 := RunStep(cfg, w, email, pc1, f.app).1;
      assert RunSaga(cfg, w, email, pc1, f) == RunSaga(cfg, w, email, pc2, f);
      if pc2.Undo? {
        UndoMeaning(cfg, w, email, o, "create_oidc_app", f);
      } else {
        var (w3, pc3) := RunStep(cfg, w, email, pc2, f.persist);
        assert RunSaga(cfg, w, email, pc2, f) == RunSaga(cfg, w3, email, pc3, f);
        if pc3.Undo? { UndoMeaning(cfg, w, email, o, "persist_ids", f); }
      }
    }
  }

  lemma GrantingMeaning(cfg: Config, w: World, email: string, f: RunFaults)
    requires f.contact.id in w.db.contacts && f.contact.id !in w.db.grants
    ensures var r := RunSaga(cfg, w, email, MakeGrant(RunIds(f), f.contact.id), f);
            var granted := w.(db := AddGrant(w.db, f.contact.id, Grant(Admin, Active)));
            if !f.grant.ok then Undone(w, f.setUpOrg.org, "materialize_team", f, r)
            else if !f.ready.ok then Undone(granted, f.setUpOrg.org, "mark_ready", f, r)
            else r == (granted.(ws := w.ws.(state := Ready, error := None)), Finished(true))
  {
    var ids := RunIds(f);
    var (w1, pc1) := RunStep(cfg, w, email, MakeGrant(ids, f.contact.id), f.grant);
    assert RunSaga(cfg, w, email, MakeGrant(ids, f.contact.id), f) == RunSaga(cfg, w1, email, pc1, f);
    if pc1.Undo? {
      UndoMeaning(cfg, w1, email, ids.org, "materialize_team", f);
    } else {
      var (w2, pc2) := RunStep(cfg, w1, email, pc1, f.ready);
      assert RunSaga(cfg, w1, email, pc1, f) == RunSaga(cfg, w2, email, pc2, f);
      if pc2.Undo? {
        UndoMeaning(cfg, w2, email, ids.org, "mark_ready", f);
      } else {
        assert RunSaga(cfg, w2, email, pc2, f) == RunSaga(cfg, w2, email, Finished(true), f);
      }
    }
  }

  /** From the MSP row to ready. */
  lemma PlantingMeaning(cfg: Config, w: World, email: string, f: RunFaults)
    requires ValidSchema(w.db) && f.contact.id !in w.db.contacts
    ensures var r := RunSaga(cfg, w, email, MakeCompany(RunIds(f)), f);
            var o, planted := f.setUpOrg.org, w.(db := Planting(w, email, f));
            if !InsertsAdmin(w, email, f) || !f.grant.ok then Undone(planted, o, "materialize_team", f, r)
            else if !f.ready.ok then Undone(planted, o, "mark_ready", f, r)
            else r == (planted.(ws := w.ws.(state := Ready, error := None)), Finished(true))
  {
    var ids := RunIds(f);
    var (w1, pc1) := RunStep(cfg, w, email, MakeCompany(ids), f.company);
    assert RunSaga(cfg, w, email, MakeCompany(ids), f) == RunSaga(cfg, w1, email, pc1, f);
    if pc1.Undo? {
      UndoMeaning(cfg, w1, email, ids.org, "materialize_team", f);
    } else {
      var (w2, pc2) := RunStep(cfg, w1, email, pc1, f.contact);
      assert RunSaga(cfg, w1, email, pc1, f) == RunSaga(cfg, w2, email, pc2, f);
      if pc2.Undo? {
        UndoMeaning(cfg, w2, email, ids.org, "materialize_team", f);
      } else {
        GrantingMeaning(cfg, w2, email, f);
      }
    }
  }

  /** The saga succeeds exactly when no step fails, and then the contract, the MSP row
      with the new organisation, its admin with the new identity and an active admin
      grant, and ready are in place.  Otherwise the row names the first step that
      failed; the contract stays persisted if it was, the inserts that took effect
      stay in the tables, and only the organisation is removed, if that succeeds. */
  lemma RunSagaMeaning(cfg: Config, w: World, email: string, f: RunFaults)
    requires ValidSchema(w.db) && f.contact.id !in w.db.contacts
    ensures var (w', pc') := RunSaga(cfg, w, email, CreateOrg, f);
            var failure := FirstFailure(w, email, f);
            var row := if Bootstraps(f) then Bound(w.ws, cfg, f) else w.ws;
            && pc' == Finished(failure.None?)
            && w'.db == (if Bootstraps(f) then Planting(w, email, f) else w.db)
            && w'.ws == (if failure.None? then row.(state := Ready, error := None)
                         else if f.fail.ok
                         then row.(state := Failed, error := Some(InstallError(failure.value, f.setUpOrg.ok && !f.undo.ok)))
                         else row)
            && w'.idp == if !f.setUpOrg.ok then w.idp
                         else if failure.None? || !f.undo.ok then WithOrg(w.idp, f) else WithoutOrg(w.idp, f)
  {
    DirectoryMeaning(w.idp, f);
    var (w1, pc1) := RunStep(cfg, w, email, CreateOrg, f.setUpOrg);
    assert RunSaga(cfg, w, email, CreateOrg, f) == RunSaga(cfg, w1, email, pc1, f);
    if pc1.CreateProject? {
      BootstrapMeaning(cfg, w1, email, f);
      if Bootstraps(f) {
        PlantingMeaning(cfg, w1.(ws := Persisted(w.ws, cfg, RunIds(f))), email, f);
      }
    } else {
      MarkFailedMeaning(cfg, w1, email, "create_org", false, f);
    }
  }

  /** A Run that succeeds: the three rows, the admin's identity, and the contract, down to
      what the browser is served from then on. */
  lemma SuccessfulRun(cfg: Config, w: World, email: string, f: RunFaults)
    requires ValidSchema(w.db) && f.contact.id !in w.db.contacts && RunSaga(cfg, w, email, CreateOrg, f).1 == Finished(true)
    ensures var w' := RunSaga(cfg, w, email, CreateOrg, f).0;
            var o, u := f.setUpOrg.org, f.setUpOrg.user;
            && w'.ws == Bound(w.ws, cfg, f).(state := Ready, error := None)
            && !HasMsp(w.db) && o !in (set id | id in w.db.companies :: w.db.companies[id].org)
            && w'.db.companies == w.db.companies[f.company.id := Company(o, true, false, None, "")]
            && w'.db.contacts == w.db.contacts[f.contact.id :=
                 Contact(f.company.id, if email == "" then None else Some(email), Some(u), false)]
            && w'.db.grants == w.db.grants[f.contact.id := Grant(Admin, Active)]
            && w'.idp.orgs == w.idp.orgs + {o} && w'.idp.users == w.idp.users[u := o]
  {
    RunSagaMeaning(cfg, w, email, f);
  }

  /** And the browser's configuration, for any static one that it is merged into. */
  lemma InstalledIsServed(cfg: Config, w: World, email: string, f: RunFaults, static_: Config)
    requires ValidSchema(w.db) && f.contact.id !in w.db.contacts && RunSaga(cfg, w, email, CreateOrg, f).1 == Finished(true)
    requires f.setUpOrg.org != "" && f.project.text != "" && f.app.text2 != ""
    ensures var served := Served(static_, Some(AuthOf(RunSaga(cfg, w, email, CreateOrg, f).0.ws)));
            && served.orgId == f.setUpOrg.org && served.clientId == f.app.text2
            && served.issuer == (if cfg.authIssuer != "" then cfg.authIssuer
                                 else if cfg.adminApiUrl != "" then cfg.adminApiUrl else static_.authIssuer)
            && served.scopes == static_.scopes + ["urn:zitadel:iam:org:id:" + f.setUpOrg.org,
                                                  "urn:zitadel:iam:org:project:id:" + f.project.text + ":aud"]
  {
    SuccessfulRun(cfg, w, email, f);
  }

  /** Compensation undoes the organisation and nothing else.  A failed Run leaves the
      tables as they were if and only if its MSP row was not inserted; and the row names
      the organisation of the failed Run, live exactly when its removal failed, if and
      only if the contract had been persisted. */
  lemma FailedRunIsCleanIff(cfg: Config, w: World, email: string, f: RunFaults)
    requires ValidSchema(w.db) && f.contact.id !in w.db.contacts && f.company.id !in w.db.companies
    requires f.setUpOrg.org !in w.idp.orgs && w.ws.orgId != Some(f.setUpOrg.org)
    requires RunSaga(cfg, w, email, CreateOrg, f).1 == Finished(false)
    ensures var w' := RunSaga(cfg, w, email, CreateOrg, f).0;
            && (w'.db == w.db <==> !(Bootstraps(f) && InsertsMsp(w, f)))
            && (w'.db != w.db ==> IsMsp(w'.db, f.company.id) && w'.db.companies[f.company.id].org == f.setUpOrg.org)
            && (w'.ws.orgId == Some(f.setUpOrg.org) <==> Bootstraps(f))
            && (f.setUpOrg.org in w'.idp.orgs <==> f.setUpOrg.ok && !f.undo.ok)
  {
    RunSagaMeaning(cfg, w, email, f);
  }

  // --------------------------------------------------------- the admission

  datatype InstallRequest = InstallRequest(tokenOk: bool, wellFormed: bool, email: string)

  datatype InstallRefusal = BadToken | BadRequest | Ineligible | InProgress | StorageError

  datatype InstallPc =
    | Requested
    | EligibleSeen                // the read said eligible; the slot is not taken yet
    | Holding                     // the slot is taken
    | Running(run: RunPc)         // the goroutine
    | Releasing(ran: bool)        // about to give the slot back
    | Over(ran: bool)
    | Refused(why: InstallRefusal)

  /** Does this thread own the single-flight slot? */
  predicate Owns(pc: InstallPc) {
    pc.Holding? || pc.Running? || pc.Releasing?
  }

  /** Is it past its eligibility read, and not done with the slot? */
  predicate Admitting(pc: InstallPc) {
    pc.EligibleSeen? || Owns(pc)
  }

  /** Did this thread start a Run? */
  predicate Ran(pc: InstallPc) {
    pc.Running? || (pc.Releasing? && pc.ran) || (pc.Over? && pc.ran)
  }

  function TakeSlot(inflight: bool): (bool, InstallPc) {
    if inflight then (true, Refused(InProgress)) else (true, Holding)
  }

  /** Up to and including taking the slot.  As written, the eligibility read and the
      slot are two steps; `atomic` makes them one. */
  function Admit(atomic_: bool, ws: Workspace, inflight: bool, req: InstallRequest, pc: InstallPc, ok: bool): (bool, InstallPc) {
    match pc
    case Requested =>
      if !req.tokenOk then (inflight, Refused(BadToken))
      else if !req.wellFormed then (inflight, Refused(BadRequest))
      else if !ok then (inflight, Refused(StorageError))
      else if !Eligible(ws.state) then (inflight, Refused(Ineligible))
      else if atomic_ then TakeSlot(inflight) else (inflight, EligibleSeen)
    case EligibleSeen => TakeSlot(inflight)
    case _ => (inflight, pc)
  }

  /** MarkWorkspaceProvisioning by the slot's owner. */
  function MarkProvisioning(ws: Workspace): Workspace {
    ws.(state := Provisioning, error := None)
  }
}
