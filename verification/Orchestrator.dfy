/** The install handler and the orchestrator as the source writes them. */
module Orchestrator {
  import opened Schema
  import opened Contract
  import opened Install
  import opened Backend
  import Gate

  /** Once the saga is compensating, the admin's address no longer matters. */
  lemma FailIgnoresEmail(cfg: Config, w: World, email: string, pc: RunPc, f: RunFaults)
    requires pc.Undo? || pc.MarkFailed?
    ensures RunSaga(cfg, w, email, pc, f) == RunSaga(cfg, w, "", pc, f)
    decreases RunRank(pc)
  {
    var (w', pc') := RunStep(cfg, w, email, pc, RunChoice(f, pc));
    if pc'.MarkFailed? {
      FailIgnoresEmail(cfg, w', email, pc', f);
    }
  }

  class Runner {
    const store: Store
    const cfg: Config
    const gate: Gate.AuthGate

    constructor (store: Store, cfg: Config, gate: Gate.AuthGate)
      ensures this.store == store && this.cfg == cfg && this.gate == gate
    {
      this.store, this.cfg, this.gate := store, cfg, gate;
    }

    /** The fail closure: remove the organisation if there is one, then record. */
    method Fail(step: string, created: Option<OrgId>, f: RunFaults) returns (done: RunPc)
      modifies store`ws, store`idp, store`log
      ensures done == Finished(false)
      ensures var pc := if created.None? then MarkFailed(InstallError(step, false)) else Undo(created.value, step);
              (store.World_(), done) == RunSaga(cfg, old(store.World_()), "", pc, f)
    {
      ghost var w := store.World_();
      var cleanupFailed := false;
      if created.Some? {
        store.RemoveOrg(created.value, f.undo.ok);
        cleanupFailed := !f.undo.ok;
        assert RunSaga(cfg, w, "", Undo(created.value, step), f)
            == RunSaga(cfg, store.World_(), "", MarkFailed(InstallError(step, cleanupFailed)), f);
      }
      ghost var w1 := store.World_();
      store.SaveFailure(InstallError(step, cleanupFailed), f.fail.ok);
      done := Finished(false);
      assert RunSaga(cfg, w1, "", MarkFailed(InstallError(step, cleanupFailed)), f)
          == RunSaga(cfg, store.World_(), "", done, f);
    }

    /** Step 6 and the OnReady hook. */
    method MarkReady(ids: Ids, email: string, contract: AuthContract, f: RunFaults, discovered: bool) returns (done: RunPc)
      requires gate.Valid()
      modifies store`ws, store`idp, store`log, gate`verifier
      ensures (store.World_(), done) == RunSaga(cfg, old(store.World_()), email, RunPc.MarkReady(ids), f)
      ensures gate.Valid() && done.Finished?
      ensures gate.Current() == if done == Finished(true) && contract.issuer != "" && contract.audience != "" && discovered
                                then Some(Gate.Verifier(contract.issuer, contract.audience)) else old(gate.Current())
    {
      ghost var w := store.World_();
      store.SaveWorkspace(store.ws.(state := Ready, error := None), f.ready.ok);
      if !f.ready.ok {
        assert RunSaga(cfg, w, email, RunPc.MarkReady(ids), f) == RunSaga(cfg, w, email, Undo(ids.org, "mark_ready"), f);
        FailIgnoresEmail(cfg, w, email, Undo(ids.org, "mark_ready"), f);
        done := Fail("mark_ready", Some(ids.org), f);
        return;
      }
      ghost var w1 := store.World_();
      assert RunSaga(cfg, w, email, RunPc.MarkReady(ids), f) == RunSaga(cfg, w1, email, OnReady(ids), f);
      assert RunSaga(cfg, w1, email, OnReady(ids), f) == RunSaga(cfg, w1, email, Finished(true), f) == (w1, Finished(true));
      var activated := gate.Activate(contract.issuer, contract.audience, discovered);
      done := Finished(true);
    }

    /** Step 5b: the MSP company, the admin contact and the admin grant. */
    method MaterializeTeam(ids: Ids, email: string, f: RunFaults) returns (planted: bool)
      requires ValidSchema(store.db)
      modifies store`db
      ensures var next := if planted then RunPc.MarkReady(ids) else Undo(ids.org, "materialize_team");
              RunSaga(cfg, old(store.World_()), email, MakeCompany(ids), f)
              == RunSaga(cfg, store.World_(), if planted then email else "", next, f)
    {
      ghost var w2 := store.World_();
      var made := store.InsertCompany(f.company.id, Company(ids.org, true, false, None, ""), f.company.ok);
      if !made {
        assert RunSaga(cfg, w2, email, MakeCompany(ids), f) == RunSaga(cfg, w2, email, Undo(ids.org, "materialize_team"), f);
        FailIgnoresEmail(cfg, w2, email, Undo(ids.org, "materialize_team"), f);
        return false;
      }
      ghost var w3 := store.World_();
      assert RunSaga(cfg, w2, email, MakeCompany(ids), f) == RunSaga(cfg, w3, email, MakeContact(ids, f.company.id), f);

      made := store.InsertContact(f.contact.id, Contact(f.company.id, NonEmpty(email), Some(ids.user), false), f.contact.ok);
      if !made {
        assert RunSaga(cfg, w3, email, MakeContact(ids, f.company.id), f)
            == RunSaga(cfg, w3, email, Undo(ids.org, "materialize_team"), f);
        FailIgnoresEmail(cfg, w3, email, Undo(ids.org, "materialize_team"), f);
        return false;
      }
      ghost var w4 := store.World_();
      assert RunSaga(cfg, w3, email, MakeContact(ids, f.company.id), f) == RunSaga(cfg, w4, email, MakeGrant(ids, f.contact.id), f);

      made := store.InsertGrant(f.contact.id, Grant(Admin, Active), f.grant.ok);
      if !made {
        assert RunSaga(cfg, w4, email, MakeGrant(ids, f.contact.id), f)
            == RunSaga(cfg, w4, email, Undo(ids.org, "materialize_team"), f);
        FailIgnoresEmail(cfg, w4, email, Undo(ids.org, "materialize_team"), f);
        return false;
      }
      assert RunSaga(cfg, w4, email, MakeGrant(ids, f.contact.id), f) == RunSaga(cfg, store.World_(), email, RunPc.MarkReady(ids), f);
      return true;
    }

    /** Run: the six steps in order.  Its effect on the workspace, the tables and
        ZITADEL is the uninterrupted saga; on success it activates the gate. */
    method Run(email: string, f: RunFaults, discovered: bool) returns (done: RunPc)
      requires ValidSchema(store.db) && gate.Valid()
      modifies store, gate`verifier
      ensures (store.World_(), done) == RunSaga(cfg, old(store.World_()), email, CreateOrg, f)
      ensures gate.Valid()
      ensures var issuer, audience := if cfg.authIssuer != "" then cfg.authIssuer else cfg.adminApiUrl, f.project.text;
              gate.Current() == if done == Finished(true) && issuer != "" && audience != "" && discovered
                                then Some(Gate.Verifier(issuer, audience)) else old(gate.Current())
    {
      ghost var w0 := store.World_();
      var org, user := f.setUpOrg.org, f.setUpOrg.user;
      store.SetUpOrg(org, user, f.setUpOrg.ok);
      if !f.setUpOrg.ok {
        FailIgnoresEmail(cfg, w0, email, MarkFailed(InstallError("create_org", false)), f);
        done := Fail("create_org", None, f);
        return;
      }
      ghost var w1 := store.World_();
      assert RunSaga(cfg, w0, email, CreateOrg, f) == RunSaga(cfg, w1, email, CreateProject(org, user), f);

      if !f.project.ok {
        assert RunSaga(cfg, w1, email, CreateProject(org, user), f) == RunSaga(cfg, w1, email, Undo(org, "create_project"), f);
        FailIgnoresEmail(cfg, w1, email, Undo(org, "create_project"), f);
        done := Fail("create_project", Some(org), f);
        return;
      }
      var project := f.project.text;
      assert RunSaga(cfg, w1, email, CreateProject(org, user), f) == RunSaga(cfg, w1, email, CreateApp(org, user, project), f);

      if !f.app.ok {
        assert RunSaga(cfg, w1, email, CreateApp(org, user, project), f) == RunSaga(cfg, w1, email, Undo(org, "create_oidc_app"), f);
        FailIgnoresEmail(cfg, w1, email, Undo(org, "create_oidc_app"), f);
        done := Fail("create_oidc_app", Some(org), f);
        return;
      }
      var ids := Ids(org, user, project, f.app.text, f.app.text2);
      assert RunSaga(cfg, w1, email, CreateApp(org, user, project), f) == RunSaga(cfg, w1, email, PersistIds(ids), f);

      var contract := DeriveFresh(cfg, project);
      store.SaveWorkspace(Persisted(store.ws, cfg, ids), f.persist.ok);
      if !f.persist.ok {
        assert RunSaga(cfg, w1, email, PersistIds(ids), f) == RunSaga(cfg, w1, email, Undo(org, "persist_ids"), f);
        FailIgnoresEmail(cfg, w1, email, Undo(org, "persist_ids"), f);
        done := Fail("persist_ids", Some(org), f);
        return;
      }
      assert RunSaga(cfg, w1, email, PersistIds(ids), f) == RunSaga(cfg, store.World_(), email, MakeCompany(ids), f);

      var planted := MaterializeTeam(ids, email, f);
      if !planted {
        done := Fail("materialize_team", Some(org), f);
        return;
      }

      done := MarkReady(ids, email, contract, f, discovered);
    }
  }

  /** The handler with its mutex-guarded flag. */
  class InstallHandler {
    const runner: Runner
    var inflight: bool

    constructor (runner: Runner)
      ensures this.runner == runner && !inflight
    {
      this.runner, inflight := runner, false;
    }

    /** Install up to the hand-off to the goroutine.  The outcome is the admission
        steps of one thread in a row, followed by the provisioning mark; when the
        mark fails the slot is given back. */
    method Install(req: InstallRequest, readOk: bool, markOk: bool) returns (pc: InstallPc)
      modifies this`inflight, runner.store`ws
      ensures var (slot1, pc1) := Admit(false, old(runner.store.ws), old(inflight), req, Requested, readOk);
              var (slot2, pc2) := Admit(false, old(runner.store.ws), slot1, req, pc1, true);
              if pc2.Holding? then
                if markOk then
                  pc == Running(CreateOrg) && inflight && runner.store.ws == MarkProvisioning(old(runner.store.ws))
                else pc == Over(false) && !inflight && runner.store.ws == old(runner.store.ws)
              else pc == pc2 && inflight == slot2 && runner.store.ws == old(runner.store.ws)
      ensures var st := old(runner.store.ws).state;
              var admitted := req.tokenOk && req.wellFormed && readOk && (st == NotInitialized || st == Failed);
              && (pc == Refused(BadToken) <==> !req.tokenOk)
              && (pc == Refused(BadRequest) <==> req.tokenOk && !req.wellFormed)
              && (pc == Refused(StorageError) <==> req.tokenOk && req.wellFormed && !readOk)
              && (pc == Refused(Ineligible) <==> req.tokenOk && req.wellFormed && readOk && (st == Provisioning || st == Ready))
              && (pc == Refused(InProgress) <==> admitted && old(inflight))
              && (pc == Over(false) <==> admitted && !old(inflight) && !markOk)
              && (pc == Running(CreateOrg) <==> admitted && !old(inflight) && markOk)
      ensures pc.Running? ==> inflight && runner.store.ws == old(runner.store.ws).(state := Provisioning, error := None)
      ensures !pc.Running? ==> inflight == old(inflight) && runner.store.ws == old(runner.store.ws)
    {
      if !req.tokenOk {
        return Refused(BadToken);
      }
      if !req.wellFormed {
        return Refused(BadRequest);
      }
      if !readOk {
        return Refused(StorageError);
      }
      var st := runner.store.ws.state;
      if st != NotInitialized && st != Failed {
        return Refused(Ineligible);
      }
      if inflight {
        return Refused(InProgress);
      }
      inflight := true;
      runner.store.SaveWorkspace(MarkProvisioning(runner.store.ws), markOk);
      if !markOk {
        inflight := false;
        return Over(false);
      }
      return Running(CreateOrg);
    }

    /** The goroutine: run the saga, then give the slot back whatever happened. */
    method Goroutine(email: string, f: RunFaults, discovered: bool)
      requires inflight && ValidSchema(runner.store.db) && runner.gate.Valid()
      modifies this`inflight, runner.store, runner.gate`verifier
      ensures !inflight && runner.gate.Valid()
      ensures runner.store.World_() == RunSaga(runner.cfg, old(runner.store.World_()), email, CreateOrg, f).0
    {
      var done := runner.Run(email, f, discovered);
      inflight := false;
    }
  }
}
