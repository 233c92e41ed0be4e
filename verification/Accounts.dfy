/** What the shared state owes the outside: every organisation accounted for, every
    team member a live, unarchived contact of the MSP, and an active admin. */
module Accounts {
  import opened Schema
  import opened Lifecycle
  import Team
  import Authz
  import Services

  // ------------------------------------------------------- the predicates

  /** The contact behind a grant: active, at the MSP company, with an identity. */
  predicate MemberOk(db: Tables, c: ContactId) {
    && ActiveContact(db, c) && db.contacts[c].user.Some?
    && IsMsp(db, db.contacts[c].company)
  }

  predicate Staffed(db: Tables) {
    forall c :: c in db.grants ==> MemberOk(db, c)
  }

  ghost predicate TeamOk(db: Tables, d: Directory) {
    ValidSchema(db) && KnownUsers(db, d) && Staffed(db)
  }

  ghost predicate Base(w: World) {
    && TeamOk(w.db, w.idp)
    && (forall id :: IsMsp(w.db, id) ==> !w.db.companies[id].archived)
    && w.idp.orgs <= w.idp.everOrgs && "" !in w.idp.everOrgs && RowOrgs(w.db) <= w.idp.everOrgs
    && w.log.failedOrgRemovals <= w.idp.orgs && w.log.failedInserts <= w.idp.orgs && w.log.abandoned <= w.idp.orgs
  }

  predicate LiveMembers(db: Tables, d: Directory) {
    forall c :: c in db.grants && MemberOk(db, c) ==> db.contacts[c].user.value in d.users
  }

  /** Every row's organisation is live, and every live organisation has a row or is
      one of the recorded leaks. */
  ghost predicate Healthy(w: World) {
    && (exists m :: IsMsp(w.db, m) && w.ws.orgId == Some(w.db.companies[m].org))
    && RowOrgs(w.db) <= w.idp.orgs
    && w.idp.orgs == RowOrgs(w.db) + w.log.failedOrgRemovals + w.log.failedInserts
    && RowOrgs(w.db) !! w.log.failedOrgRemovals !! w.log.failedInserts
    && w.log.abandoned == {}
    && LiveMembers(w.db, w.idp)
  }

  ghost predicate Installed(w: World) {
    Healthy(w) && ActiveAdmins(w.db.grants) != {}
  }

  predicate OnlyMsp(db: Tables) {
    forall id :: id in db.companies ==> db.companies[id].isOwner
  }

  /** Before readiness: at most the MSP row, and no organisation unaccounted for
      besides those in `held`. */
  ghost predicate Fallow(w: World, held: set<OrgId>) {
    && OnlyMsp(w.db) && w.log.failedInserts == {} && w.log.abandoned == {}
    && w.idp.orgs <= RowOrgs(w.db) + w.log.failedOrgRemovals + held
    && held <= w.idp.orgs && held !! w.log.failedOrgRemovals
  }

  // -------------------------------------------- grants and contacts alone

  predicate SameStanding(a: Contact, b: Contact) {
    a.archived == b.archived && a.company == b.company && a.user == b.user
  }

  /** Granting to members in good standing with a live identity. */
  lemma GrantsKeepTeam(db: Tables, d: Directory, grants: map<ContactId, Grant>)
    requires TeamOk(db, d)
    requires forall c :: c in grants ==> MemberOk(db, c) && db.contacts[c].user.value in d.users
    ensures var db' := db.(grants := grants); TeamOk(db', d) && LiveMembers(db', d)
  {
    var db' := db.(grants := grants);
    GrantsKeepSchema(db, grants);
    assert forall c, u :: HoldsUser(db', c, u) ==> HoldsUser(db, c, u);
    assert forall c :: c in grants && MemberOk(db, c) ==> MemberOk(db', c);
  }

  /** A change of contacts that leaves members in good standing. */
  lemma ContactsKeepTeam(db: Tables, d: Directory, contacts: map<ContactId, Contact>)
    requires TeamOk(db, d) && LiveMembers(db, d) && ValidSchema(db.(contacts := contacts))
    requires forall c, u :: HoldsUser(db.(contacts := contacts), c, u) ==> u in d.everUsers
    requires forall c :: c in db.grants ==> c in contacts && SameStanding(contacts[c], db.contacts[c])
    ensures var db' := db.(contacts := contacts); TeamOk(db', d) && LiveMembers(db', d)
  {
    var db' := db.(contacts := contacts);
    forall c | c in db'.grants ensures MemberOk(db', c) && contacts[c].user.value in d.users {
      assert MemberOk(db, c);
    }
  }

  lemma NewContactKeepsTeam(db: Tables, d: Directory, id: ContactId, row: Contact)
    requires TeamOk(db, d) && LiveMembers(db, d) && id !in db.contacts && ContactFits(db, row)
    requires row.user.Some? ==> row.user.value in d.everUsers
    ensures var db' := AddContact(db, id, row); TeamOk(db', d) && LiveMembers(db', d)
  {
    var db' := AddContact(db, id, row);
    AddContactKeepsSchema(db, id, row);
    assert forall c, u :: HoldsUser(db', c, u) ==> HoldsUser(db, c, u) || row.user == Some(u);
    ContactsKeepTeam(db, d, db'.contacts);
  }

  /** An archival touches nobody but its contact, and no identity. */
  lemma ArchivalFrame(db: Tables, c: ContactId)
    ensures var contacts := ArchiveContactRow(db, c).contacts;
            && ArchiveContactRow(db, c) == db.(contacts := contacts) && contacts.Keys == db.contacts.Keys
            && (forall e :: e in contacts && e != c ==> contacts[e] == db.contacts[e])
            && (forall e, u :: HoldsUser(db.(contacts := contacts), e, u) ==> HoldsUser(db, e, u))
  {
  }

  lemma ArchivalKeepsTeam(db: Tables, d: Directory, c: ContactId)
    requires TeamOk(db, d) && LiveMembers(db, d) && c !in db.grants
    ensures var db' := ArchiveContactRow(db, c); TeamOk(db', d) && LiveMembers(db', d)
  {
    ArchiveKeepsSchema(db, c);
    ArchivalFrame(db, c);
    ContactsKeepTeam(db, d, ArchiveContactRow(db, c).contacts);
  }

  /** What a change that spares the companies has to see to. */
  lemma TablesKeepInstalled(w: World, db': Tables)
    requires Base(w) && Installed(w) && db'.companies == w.db.companies
    requires TeamOk(db', w.idp) && LiveMembers(db', w.idp) && ActiveAdmins(db'.grants) != {}
    ensures Base(w.(db := db')) && Installed(w.(db := db'))
  {
    var m :| IsMsp(w.db, m) && w.ws.orgId == Some(w.db.companies[m].org);
    assert IsMsp(db', m) && RowOrgs(db') == RowOrgs(w.db);
  }

  lemma GrantsKeepInstalled(w: World, grants: map<ContactId, Grant>)
    requires Base(w) && Installed(w) && ActiveAdmins(grants) != {}
    requires forall c :: c in grants ==> MemberOk(w.db, c) && w.db.contacts[c].user.value in w.idp.users
    ensures var w' := w.(db := w.db.(grants := grants)); Base(w') && Installed(w')
  {
    GrantsKeepTeam(w.db, w.idp, grants);
    TablesKeepInstalled(w, w.db.(grants := grants));
  }

  // ------------------------------------------------- the team handlers

  /** One at a time, the guarded handlers never take the last active admin. */
  lemma GuardedKeepsAdmins(db: Tables, op: Team.GuardOp, c: ContactId, f: Team.GuardFaults)
    requires ActiveAdmins(db.grants) != {}
    ensures var db' := Team.RunGuard(db, op, c, Team.Loading, f).0;
            db' == db.(grants := db'.grants) && db'.grants.Keys == db.grants.Keys && ActiveAdmins(db'.grants) != {}
  {
    Team.RunGuardMeaning(db, op, c, f);
    var (db', pc') := Team.RunGuard(db, op, c, Team.Loading, f);
    if pc'.Done? {
      var a :| a in ActiveAdmins(db.grants);
      if Team.NeedsGuard(op, db.grants[c]) {
        Team.AnotherAdmin(db.grants, c);
        a :| a in ActiveAdmins(db.grants) && a != c;
        Team.WriteSparesOthers(db, op, c);
      } else if Team.Removes(op) {
        assert a != c;
        Team.WriteSparesOthers(db, op, c);
      } else {
        Team.PromotionsOnlyAdd(db, op, c);
      }
      assert a in ActiveAdmins(db'.grants);
    }
  }

  lemma GuardedKeepsInstalled(w: World, op: Team.GuardOp, c: ContactId, f: Team.GuardFaults)
    requires Base(w) && Installed(w)
    ensures var w' := w.(db := Team.RunGuard(w.db, op, c, Team.Loading, f).0); Base(w') && Installed(w')
  {
    GuardedKeepsAdmins(w.db, op, c, f);
    GrantsKeepInstalled(w, Team.RunGuard(w.db, op, c, Team.Loading, f).0.grants);
  }

  lemma ActivationKeepsInstalled(w: World, c: ContactId)
    requires Base(w) && Installed(w)
    ensures var w' := w.(db := ActivatePending(w.db, c)); Base(w') && Installed(w')
  {
    var db' := ActivatePending(w.db, c);
    var a :| a in ActiveAdmins(w.db.grants);
    assert a in ActiveAdmins(db'.grants);
    assert db' == w.db.(grants := db'.grants);
    GrantsKeepInstalled(w, db'.grants);
  }

  /** What holds while an uninterrupted invite is at `pc`. */
  ghost predicate InviteOk(w: World, pc: Team.InvitePc, f: Team.InviteFaults) {
    && Base(w) && Installed(w)
    && (pc.Validating? || pc.CompanyKnown? || pc.EmailFree? ==> f.mint.user !in w.idp.everUsers)
    && (pc.Validating? || pc.CompanyKnown? || pc.EmailFree? || pc.Minted? ==> f.contact.id !in w.db.contacts)
    && match pc
       case CompanyKnown(m, _) => IsMsp(w.db, m)
       case EmailFree(m, _) => IsMsp(w.db, m)
       case Minted(m, u) => IsMsp(w.db, m) && u in w.idp.users && !UserTaken(w.db, u)
       case Stored(c, u) => HoldsUser(w.db, c, u) && MemberOk(w.db, c) && u in w.idp.users && c !in w.db.grants
       case Undoing(u) => forall c :: c in w.db.grants ==> !HoldsUser(w.db, c, u)
       case _ => true
  }

  lemma UndoingKeepsInstalled(w: World, u: UserId, log': Ledger)
    requires Base(w) && Installed(w)
    requires forall c :: c in w.db.grants ==> !HoldsUser(w.db, c, u)
    requires log'.failedOrgRemovals == w.log.failedOrgRemovals && log'.failedInserts == w.log.failedInserts
    requires log'.abandoned == w.log.abandoned
    ensures Base(w.(log := log')) && Installed(w.(log := log'))
    ensures var w' := w.(idp := DropUser(w.idp, u), log := log'); Base(w') && Installed(w')
  {
  }

  lemma StoringKeepsInstalled(w: World, id: ContactId, row: Contact)
    requires Base(w) && Installed(w) && id !in w.db.contacts && ContactFits(w.db, row)
    requires row.user.Some? ==> row.user.value in w.idp.everUsers
    ensures var w' := w.(db := AddContact(w.db, id, row)); Base(w') && Installed(w')
  {
    NewContactKeepsTeam(w.db, w.idp, id, row);
    TablesKeepInstalled(w, AddContact(w.db, id, row));
  }

  lemma GrantingKeepsInstalled(w: World, c: ContactId, g: Grant)
    requires Base(w) && Installed(w) && MemberOk(w.db, c) && c !in w.db.grants
    requires w.db.contacts[c].user.value in w.idp.users
    ensures var w' := w.(db := AddGrant(w.db, c, g)); Base(w') && Installed(w')
  {
    var grants := AddGrant(w.db, c, g).grants;
    var a :| a in ActiveAdmins(w.db.grants);
    assert a in ActiveAdmins(grants);
    GrantsKeepInstalled(w, grants);
  }

  lemma InviteMintOk(w: World, req: Team.InviteRequest, m: CompanyId, o: OrgId, f: Team.InviteFaults)
    requires InviteOk(w, Team.EmailFree(m, o), f)
    ensures var (w', pc') := Team.InviteStep(w, req, Team.EmailFree(m, o), f.mint); InviteOk(w', pc', f) && w'.ws == w.ws
  {
  }

  lemma InviteStoreOk(w: World, req: Team.InviteRequest, m: CompanyId, u: UserId, f: Team.InviteFaults)
    requires InviteOk(w, Team.Minted(m, u), f)
    ensures var (w', pc') := Team.InviteStep(w, req, Team.Minted(m, u), f.contact); InviteOk(w', pc', f) && w'.ws == w.ws
  {
    var row := Contact(m, Some(req.email), Some(u), false);
    if f.contact.ok && ContactFits(w.db, row) {
      StoringKeepsInstalled(w, f.contact.id, row);
      assert f.contact.id !in w.db.grants;
    }
  }

  lemma InviteGrantOk(w: World, req: Team.InviteRequest, c: ContactId, u: UserId, f: Team.InviteFaults)
    requires InviteOk(w, Team.Stored(c, u), f)
    ensures var (w', pc') := Team.InviteStep(w, req, Team.Stored(c, u), f.grant); InviteOk(w', pc', f) && w'.ws == w.ws
  {
    if f.grant.ok && req.role.Some? {
      GrantingKeepsInstalled(w, c, Grant(req.role.value, NotSignedInYet));
    } else {
      assert forall d :: d in w.db.grants ==> !HoldsUser(w.db, d, u);
    }
  }

  lemma InviteReadOk(w: World, req: Team.InviteRequest, pc: Team.InvitePc, f: Team.InviteFaults)
    requires InviteOk(w, pc, f) && (pc.Validating? || pc.CompanyKnown? || Team.InviteEnded(pc))
    ensures var (w', pc') := Team.InviteStep(w, req, pc, Team.InviteChoice(f, pc)); InviteOk(w', pc', f) && w' == w
  {
  }

  lemma InviteUndoOk(w: World, req: Team.InviteRequest, u: UserId, f: Team.InviteFaults)
    requires InviteOk(w, Team.Undoing(u), f)
    ensures var (w', pc') := Team.InviteStep(w, req, Team.Undoing(u), f.undo); InviteOk(w', pc', f) && w'.ws == w.ws
  {
    UndoingKeepsInstalled(w, u, Team.InviteStep(w, req, Team.Undoing(u), f.undo).0.log);
  }

  lemma InviteStepOk(w: World, req: Team.InviteRequest, pc: Team.InvitePc, f: Team.InviteFaults)
    requires InviteOk(w, pc, f)
    ensures var (w', pc') := Team.InviteStep(w, req, pc, Team.InviteChoice(f, pc));
            InviteOk(w', pc', f) && w'.ws == w.ws
  {
    match pc
    case EmailFree(m, o) => InviteMintOk(w, req, m, o, f);
    case Minted(m, u) => InviteStoreOk(w, req, m, u, f);
    case Stored(c, u) => InviteGrantOk(w, req, c, u, f);
    case Undoing(u) => InviteUndoOk(w, req, u, f);
    case _ => InviteReadOk(w, req, pc, f);
  }

  lemma {:induction false} InviteKeepsInstalled(w: World, req: Team.InviteRequest, pc: Team.InvitePc, f: Team.InviteFaults)
    requires InviteOk(w, pc, f)
    ensures var w' := Team.RunInvite(w, req, pc, f).0; Base(w') && Installed(w') && w'.ws == w.ws
    decreases Team.InviteRank(pc)
  {
    if !Team.InviteEnded(pc) {
      var (w', pc') := Team.InviteStep(w, req, pc, Team.InviteChoice(f, pc));
      InviteStepOk(w, req, pc, f);
      InviteKeepsInstalled(w', req, pc', f);
    }
  }

  // ---------------------------------------- contact and company handlers

  lemma ContactRowKeepsInstalled(w: World, c: ContactId, row: Contact)
    requires Base(w) && Installed(w) && c in w.db.contacts && SameStanding(row, w.db.contacts[c])
    requires ValidSchema(AddContact(w.db, c, row))
    ensures var w' := w.(db := AddContact(w.db, c, row)); Base(w') && Installed(w')
  {
    var db' := AddContact(w.db, c, row);
    assert forall d, u :: HoldsUser(db', d, u) ==> HoldsUser(w.db, d, u);
    ContactsKeepTeam(w.db, w.idp, db'.contacts);
    TablesKeepInstalled(w, db');
  }

  lemma EmailChangeKeepsInstalled(w: World, c: ContactId, email: Option<string>, ok: bool)
    requires Base(w) && Installed(w)
    ensures var w' := w.(db := Services.UpdateContact(w.db, c, email, ok).0); Base(w') && Installed(w')
  {
    var (db', refusal) := Services.UpdateContact(w.db, c, email, ok);
    if refusal.None? {
      Services.UpdateContactKeepsSchema(w.db, c, email, ok);
      ContactRowKeepsInstalled(w, c, w.db.contacts[c].(email := email));
    } else {
      assert w.(db := db') == w;
    }
  }

  lemma ArchivalKeepsInstalled(w: World, c: ContactId)
    requires Base(w) && Installed(w) && c !in w.db.grants
    ensures var w' := w.(db := ArchiveContactRow(w.db, c)); Base(w') && Installed(w')
  {
    ArchivalKeepsTeam(w.db, w.idp, c);
    TablesKeepInstalled(w, ArchiveContactRow(w.db, c));
  }

  lemma EditedRowFrame(db: Tables, id: CompanyId, row: Company)
    requires id in db.companies && row.org == db.companies[id].org && row.isOwner == db.companies[id].isOwner
    ensures var db' := AddCompany(db, id, row);
            && RowOrgs(db') == RowOrgs(db)
            && (forall o :: IsMsp(db', o) <==> IsMsp(db, o))
            && (forall c :: MemberOk(db', c) <==> MemberOk(db, c))
            && (forall c, u :: HoldsUser(db', c, u) <==> HoldsUser(db, c, u))
  {
    var db' := AddCompany(db, id, row);
    assert forall o :: o in db'.companies <==> o in db.companies;
    assert forall o :: o in db.companies ==> db'.companies[o].org == db.companies[o].org;
    assert forall o :: IsMsp(db', o) <==> IsMsp(db, o);
  }

  /** Editing a row without touching its organisation or owner mark, and without
      archiving the MSP. */
  lemma EditedRowKeepsInstalled(w: World, id: CompanyId, row: Company)
    requires Base(w) && Installed(w) && id in w.db.companies
    requires row.org == w.db.companies[id].org && row.isOwner == w.db.companies[id].isOwner
    requires row.isOwner ==> !row.archived
    ensures var w' := w.(db := AddCompany(w.db, id, row)); Base(w') && Installed(w')
  {
    var w' := w.(db := AddCompany(w.db, id, row));
    EditedRowFrame(w.db, id, row);
    assert Base(w') by {
      Services.EditedCompanyKeepsSchema(w.db, id, row);
    }
    assert Installed(w') by {
      var m :| IsMsp(w.db, m) && w.ws.orgId == Some(w.db.companies[m].org);
      assert IsMsp(w'.db, m) && w'.db.companies[m].org == w.db.companies[m].org;
    }
  }

  lemma LeakKeepsInstalled(w: World, org: OrgId)
    requires Base(w) && Installed(w) && org != "" && org !in w.idp.everOrgs
    ensures var w' := w.(idp := AddOrg(w.idp, org), log := w.log.(failedInserts := w.log.failedInserts + {org}));
            Base(w') && Installed(w')
  {
  }

  lemma NewRowOrgs(db: Tables, id: CompanyId, row: Company)
    requires id !in db.companies
    ensures RowOrgs(AddCompany(db, id, row)) == RowOrgs(db) + {row.org}
  {
    var db' := AddCompany(db, id, row);
    assert db'.companies[id].org == row.org;
    assert forall a :: a in db.companies ==> db'.companies[a] == db.companies[a];
  }

  /** A new customer row changes nothing about the MSP, its members or identities. */
  lemma CustomerFrame(db: Tables, id: CompanyId, row: Company)
    requires id !in db.companies && !row.isOwner && forall c :: c in db.contacts ==> db.contacts[c].company in db.companies
    ensures var db' := AddCompany(db, id, row);
            && (forall a :: IsMsp(db', a) <==> IsMsp(db, a))
            && (forall c :: MemberOk(db', c) <==> MemberOk(db, c))
            && (forall c, u :: HoldsUser(db', c, u) <==> HoldsUser(db, c, u))
  {
  }

  lemma CustomerKeepsBase(w: World, id: CompanyId, row: Company)
    requires Base(w) && row.org != "" && row.org !in w.idp.everOrgs && id !in w.db.companies && !row.isOwner
    ensures Base(w.(idp := AddOrg(w.idp, row.org), db := AddCompany(w.db, id, row)))
  {
    forall a | a in w.db.companies ensures w.db.companies[a].org != row.org {
      assert w.db.companies[a].org in RowOrgs(w.db);
    }
    Services.NewCompanyKeepsSchema(w.db, id, row);
    NewRowOrgs(w.db, id, row);
    CustomerFrame(w.db, id, row);
  }

  lemma CustomerKeepsHealth(w: World, id: CompanyId, row: Company)
    requires Base(w) && Installed(w) && row.org !in w.idp.everOrgs && id !in w.db.companies && !row.isOwner
    ensures Installed(w.(idp := AddOrg(w.idp, row.org), db := AddCompany(w.db, id, row)))
  {
    NewRowOrgs(w.db, id, row);
    CustomerFrame(w.db, id, row);
    var db' := AddCompany(w.db, id, row);
    var m :| IsMsp(w.db, m) && w.ws.orgId == Some(w.db.companies[m].org);
    assert IsMsp(db', m) && db'.companies[m] == w.db.companies[m];
  }

  lemma CustomerKeepsInstalled(w: World, id: CompanyId, row: Company)
    requires Base(w) && Installed(w)
    requires row.org != "" && row.org !in w.idp.everOrgs && id !in w.db.companies && !row.isOwner
    ensures var w' := w.(idp := AddOrg(w.idp, row.org), db := AddCompany(w.db, id, row)); Base(w') && Installed(w')
  {
    CustomerKeepsBase(w, id, row);
    CustomerKeepsHealth(w, id, row);
  }

  lemma CompanyHandlersKeepInstalled(w: World, call: Call)
    requires Base(w) && Installed(w) && FreshCall(w, call)
    requires call.CreateCompany? || call.UpdateCompany? || call.ArchiveCompany? || call.RestoreCompany?
             || call.UpdateWorkspaceCompany?
    ensures Base(Handled(w, call)) && Installed(Handled(w, call)) && Handled(w, call).ws == w.ws
  {
    var w' := Handled(w, call);
    if w' != w {
      match call
      case CreateCompany(form, _, _, _, org, id) =>
        LeakKeepsInstalled(w, org);
        CustomerKeepsInstalled(w, id, Company(org, false, false, form.accountOwner, form.profile));
      case UpdateCompany(id, _, _, _, _) => EditedRowKeepsInstalled(w, id, w'.db.companies[id]);
      case ArchiveCompany(id, _, _, _) => EditedRowKeepsInstalled(w, id, w'.db.companies[id]);
      case RestoreCompany(id, _, _, _) => EditedRowKeepsInstalled(w, id, w'.db.companies[id]);
      case UpdateWorkspaceCompany(_, _, _) =>
        var m := MspId(w.db).value;
        EditedRowKeepsInstalled(w, m, w'.db.companies[m]);
    }
  }

  lemma SignInKeepsInstalled(w: World, rules: Authz.Rules, req: Authz.Request, resolveOk: bool, activateOk: bool)
    requires Base(w) && Installed(w)
    ensures var w' := w.(db := Authz.RunRequest(rules, w.db, req, resolveOk, activateOk).0); Base(w') && Installed(w')
  {
    var pc := Authz.Resolve(rules, w.db, req, resolveOk);
    if pc.Activating? && activateOk {
      ActivationKeepsInstalled(w, pc.contact);
    } else {
      assert Authz.RunRequest(rules, w.db, req, resolveOk, activateOk).0 == w.db;
      assert w.(db := w.db) == w;
    }
  }

  lemma TeamCallsKeepInstalled(w: World, call: Call)
    requires Base(w) && Installed(w) && FreshCall(w, call)
    requires call.InviteMember? || call.GuardedCall? || call.SignIn?
    ensures Base(Handled(w, call)) && Installed(Handled(w, call)) && Handled(w, call).ws == w.ws
  {
    match call
    case InviteMember(req, f) => InviteKeepsInstalled(w, req, Team.Validating, f);
    case GuardedCall(op, c, f) => GuardedKeepsInstalled(w, op, c, f);
    case SignIn(rules, req, resolveOk, activateOk) => SignInKeepsInstalled(w, rules, req, resolveOk, activateOk);
  }

  lemma NewContactKeepsInstalled(w: World, co: CompanyId, email: Option<string>, id: ContactId, checkOk: bool, insertOk: bool)
    requires Base(w) && Installed(w) && id !in w.db.contacts
    ensures var w' := w.(db := Services.CreateContact(w.db, co, email, id, checkOk, insertOk).0); Base(w') && Installed(w')
  {
    if Services.CreateContact(w.db, co, email, id, checkOk, insertOk).1.None? {
      StoringKeepsInstalled(w, id, Contact(co, email, None, false));
    } else {
      assert w.(db := w.db) == w;
    }
  }

  lemma ContactCallsKeepInstalled(w: World, call: Call)
    requires Base(w) && Installed(w) && FreshCall(w, call)
    requires call.CreateContact? || call.UpdateContact? || call.ArchiveContact?
    ensures Base(Handled(w, call)) && Installed(Handled(w, call)) && Handled(w, call).ws == w.ws
  {
    match call
    case CreateContact(co, email, id, checkOk, insertOk) => NewContactKeepsInstalled(w, co, email, id, checkOk, insertOk);
    case UpdateContact(c, email, ok) => EmailChangeKeepsInstalled(w, c, email, ok);
    case ArchiveContact(c, checkOk, writeOk) =>
      if checkOk && writeOk && c !in w.db.grants {
        ArchivalKeepsInstalled(w, c);
      } else {
        assert Handled(w, call) == w;
      }
  }

  /** No handler call disturbs an installed workspace. */
  lemma HandledKeepsInstalled(w: World, call: Call)
    requires Base(w) && Installed(w) && FreshCall(w, call)
    ensures Base(Handled(w, call)) && Installed(Handled(w, call)) && Handled(w, call).ws == w.ws
  {
    if call.InviteMember? || call.GuardedCall? || call.SignIn? {
      TeamCallsKeepInstalled(w, call);
    } else if call.CreateContact? || call.UpdateContact? || call.ArchiveContact? {
      ContactCallsKeepInstalled(w, call);
    } else {
      CompanyHandlersKeepInstalled(w, call);
    }
  }

  lemma {:induction false} InviteKeepsCauses(w: World, req: Team.InviteRequest, pc: Team.InvitePc, f: Team.InviteFaults)
    ensures var w' := Team.RunInvite(w, req, pc, f).0;
            w'.log.failedMarks == w.log.failedMarks && w'.log.deaths == w.log.deaths
    decreases Team.InviteRank(pc)
  {
    if !Team.InviteEnded(pc) {
      var (w', pc') := Team.InviteStep(w, req, pc, Team.InviteChoice(f, pc));
      InviteKeepsCauses(w', req, pc', f);
    }
  }

  /** Nor does it ever strand an installation. */
  lemma HandledKeepsCauses(w: World, call: Call)
    ensures Handled(w, call).log.failedMarks == w.log.failedMarks && Handled(w, call).log.deaths == w.log.deaths
  {
    if call.InviteMember? {
      InviteKeepsCauses(w, call.invite, Team.Validating, call.inviteFaults);
    }
  }
}
