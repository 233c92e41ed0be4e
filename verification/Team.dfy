/** The team handlers of internal/team/handler.go and the archive handler of
    internal/contacts/handler.go, one statement or remote call at a time.  A
    handler whose statements run with nothing in between is a `Run...` function,
    so the interleaved and the atomic reading share one definition of each step. */
module Team {
  import opened Schema

  datatype Refusal = Internal | InvalidArgument | NotFound | AlreadyExists | FailedPrecondition

  // ------------------------------------- ChangeRole, Suspend, Reactivate

  datatype GuardOp = ChangeRole(role: Role) | Suspend | Reactivate

  datatype GuardPc =
    | Loading
    | ContactLoaded
    | GrantLoaded(loaded: Grant)
    | Cleared
    | Done
    | Rejected(why: Refusal)

  /** The test that decides whether CountActiveAdmins is consulted at all; it
      reads the grant as loaded, not as it is now. */
  predicate NeedsGuard(op: GuardOp, loaded: Grant) {
    match op
    case ChangeRole(r) => loaded.role == Admin && r != Admin
    case Suspend => loaded.role == Admin && loaded.status == Active
    case Reactivate => false
  }

  /** Could this operation take an active admin away? */
  predicate Removes(op: GuardOp) {
    op == Suspend || op == ChangeRole(Technician)
  }

  function GuardWrite(db: Tables, op: GuardOp, c: ContactId): Tables {
    match op
    case ChangeRole(r) => SetRole(db, c, r)
    case Suspend => SetStatus(db, c, Suspended)
    case Reactivate => SetStatus(db, c, Active)
  }

  /** One statement of a guarded handler; `ok` is false when the statement fails. */
  function GuardStep(db: Tables, op: GuardOp, c: ContactId, pc: GuardPc, ok: bool): (Tables, GuardPc) {
    match pc
    case Loading =>
      if !ok then (db, Rejected(Internal))
      else if ActiveContact(db, c) then (db, ContactLoaded) else (db, Rejected(NotFound))
    case ContactLoaded =>
      if !ok then (db, Rejected(Internal))
      else if c in db.grants then (db, GrantLoaded(db.grants[c])) else (db, Rejected(NotFound))
    case GrantLoaded(g) =>
      if !NeedsGuard(op, g) then (db, Cleared)
      else if !ok then (db, Rejected(Internal))
      else if CountActiveAdmins(db.grants) <= 1 then (db, Rejected(FailedPrecondition))
      else (db, Cleared)
    case Cleared =>
      if !ok then (db, Rejected(Internal)) else (GuardWrite(db, op, c), Done)
    case Done => (db, pc)
    case Rejected(_) => (db, pc)
  }

  predicate GuardEnded(pc: GuardPc) { pc.Done? || pc.Rejected? }

  /** Which of the four statements fail. */
  datatype GuardFaults = GuardFaults(contactOk: bool, grantOk: bool, countOk: bool, writeOk: bool)

  function GuardOk(f: GuardFaults, pc: GuardPc): bool {
    match pc
    case Loading => f.contactOk
    case ContactLoaded => f.grantOk
    case GrantLoaded(_) => f.countOk
    case _ => f.writeOk
  }

  function GuardRank(pc: GuardPc): nat {
    match pc
    case Loading => 4 case ContactLoaded => 3 case GrantLoaded(_) => 2 case Cleared => 1
    case _ => 0
  }

  /** The handler from `pc` on, uninterrupted. */
  function RunGuard(db: Tables, op: GuardOp, c: ContactId, pc: GuardPc, f: GuardFaults): (Tables, GuardPc)
    decreases GuardRank(pc)
  {
    if GuardEnded(pc) then (db, pc)
    else
      var (db', pc') := GuardStep(db, op, c, pc, GuardOk(f, pc));
      RunGuard(db', op, c, pc', f)
  }

  /** What an operation makes of a grant. */
  function Regranted(op: GuardOp, g: Grant): Grant {
    match op
    case ChangeRole(r) => Grant(r, g.status)
    case Suspend => Grant(g.role, Suspended)
    case Reactivate => Grant(g.role, Active)
  }

  /** What an uninterrupted guarded handler amounts to: it writes exactly when no
      statement fails, the member exists and the guard does not object, and then the one
      grant has its new role or status; otherwise nothing changes. */
  lemma RunGuardMeaning(db: Tables, op: GuardOp, c: ContactId, f: GuardFaults)
    ensures var (db', pc') := RunGuard(db, op, c, Loading, f);
            var member := c in db.contacts && !db.contacts[c].archived && c in db.grants;
            var guarded := member && db.grants[c].role == Admin
                           && (op == ChangeRole(Technician) || (op == Suspend && db.grants[c].status == Active));
            var blocked := guarded && |set a | a in db.grants && db.grants[a] == Grant(Admin, Active)| <= 1;
            var readsOk := f.contactOk && f.grantOk && (guarded ==> f.countOk);
            && (pc'.Done? <==> readsOk && member && !blocked && f.writeOk)
            && (pc'.Done? ==> db' == db.(grants := db.grants[c := Regranted(op, db.grants[c])]))
            && (!pc'.Done? ==> db' == db && pc'.Rejected?)
            && (pc' == Rejected(FailedPrecondition) <==> readsOk && blocked)
            && (pc' == Rejected(NotFound) <==>
                  f.contactOk && (c !in db.contacts || db.contacts[c].archived || (f.grantOk && c !in db.grants)))
  {
    assert ActiveAdmins(db.grants) == set a | a in db.grants && db.grants[a] == Grant(Admin, Active);
    match op { case ChangeRole(r) => assert r == Admin || r == Technician; case _ => }
  }

  /** No guarded handler touches anything but the role or status of the one grant. */
  lemma GuardStepFrame(db: Tables, op: GuardOp, c: ContactId, pc: GuardPc, ok: bool)
    ensures var db' := GuardStep(db, op, c, pc, ok).0;
            && db'.companies == db.companies && db'.contacts == db.contacts
            && db'.grants.Keys == db.grants.Keys
            && forall d :: d in db.grants && d != c ==> db'.grants[d] == db.grants[d]
  {
  }

  /** A write that does not remove admins only adds to them. */
  lemma PromotionsOnlyAdd(db: Tables, op: GuardOp, c: ContactId)
    requires !Removes(op)
    ensures ActiveAdmins(db.grants) <= ActiveAdmins(GuardWrite(db, op, c).grants)
  {
    forall a | a in ActiveAdmins(db.grants) ensures a in ActiveAdmins(GuardWrite(db, op, c).grants) {
      match op { case ChangeRole(r) => assert r == Admin || r == Technician; case _ => }
      assert db.grants[a] == Grant(Admin, Active);
    }
  }

  /** A write never affects whether anybody else is an active admin. */
  lemma WriteSparesOthers(db: Tables, op: GuardOp, c: ContactId)
    ensures ActiveAdmins(db.grants) - {c} <= ActiveAdmins(GuardWrite(db, op, c).grants)
  {
  }

  lemma {:induction false} SubsetSize<T>(a: set<T>, b: set<T>)
    requires a <= b
    ensures |a| <= |b|
  {
    if a == {} {
    } else {
      var x :| x in a;
      SubsetSize(a - {x}, b - {x});
    }
  }

  /** Two active admins leave one besides any given contact. */
  lemma AnotherAdmin(grants: map<ContactId, Grant>, c: ContactId)
    requires CountActiveAdmins(grants) > 1
    ensures exists a :: a in ActiveAdmins(grants) && a != c
  {
    if forall a :: a in ActiveAdmins(grants) ==> a == c {
      assert ActiveAdmins(grants) <= {c};
      SubsetSize(ActiveAdmins(grants), {c});
    }
  }

  /** Who is refused for the last admin's sake, with an active admin around: exactly
      whoever would take the last active admin away, and besides, whoever demotes an
      admin that is not active while there is just one that is. */
  lemma RefusedAsLastAdminIff(db: Tables, op: GuardOp, c: ContactId, f: GuardFaults)
    requires ActiveContact(db, c) && c in db.grants && ActiveAdmins(db.grants) != {}
    requires f.contactOk && f.grantOk && f.countOk
    ensures RunGuard(db, op, c, Loading, f).1 == Rejected(FailedPrecondition) <==>
            || ActiveAdmins(GuardWrite(db, op, c).grants) == {}
            || (op == ChangeRole(Technician) && db.grants[c].role == Admin && db.grants[c].status != Active
                && CountActiveAdmins(db.grants) == 1)
  {
    RunGuardMeaning(db, op, c, f);
    var before, after := ActiveAdmins(db.grants), ActiveAdmins(GuardWrite(db, op, c).grants);
    WriteSparesOthers(db, op, c);
    if !Removes(op) {
      PromotionsOnlyAdd(db, op, c);
      assert after != {} && !NeedsGuard(op, db.grants[c]);
    } else if CountActiveAdmins(db.grants) > 1 {
      AnotherAdmin(db.grants, c);
      var a :| a in before && a != c;
      assert a in after && CountActiveAdmins(db.grants) != 1;
    } else {
      var a :| a in before;
      assert before == {a} by {
        if b :| b in before && b != a { SubsetSize({a, b}, before); }
      }
      assert c !in after && after <= before + {c};
    }
  }

  /** The guard looks at the role alone: with one active admin, 0, it refuses to demote
      1, who has never signed in, although that would leave the active admins as they are. */
  lemma HarmlessDemotionIsRefused(f: GuardFaults)
    requires f.contactOk && f.grantOk && f.countOk
    ensures var db := Tables(map[7 := Company("msp", true, false, None, "")],
                             map[0 := Contact(7, None, Some("a"), false), 1 := Contact(7, None, Some("b"), false)],
                             map[0 := Grant(Admin, Active), 1 := Grant(Admin, NotSignedInYet)]);
            && RunGuard(db, ChangeRole(Technician), 1, Loading, f) == (db, Rejected(FailedPrecondition))
            && ActiveAdmins(db.grants) == {0} == ActiveAdmins(GuardWrite(db, ChangeRole(Technician), 1).grants)
  {
    var db := Tables(map[7 := Company("msp", true, false, None, "")],
                     map[0 := Contact(7, None, Some("a"), false), 1 := Contact(7, None, Some("b"), false)],
                     map[0 := Grant(Admin, Active), 1 := Grant(Admin, NotSignedInYet)]);
    assert ActiveAdmins(db.grants) == {0};
    RefusedAsLastAdminIff(db, ChangeRole(Technician), 1, f);
    RunGuardMeaning(db, ChangeRole(Technician), 1, f);
  }

  /** Reactivating undoes a suspension if and only if the member was active before: a
      member who had never signed in comes back active. */
  lemma ReactivateUndoesSuspendIff(db: Tables, c: ContactId, f: GuardFaults, f': GuardFaults)
    requires RunGuard(db, Suspend, c, Loading, f).1.Done?
    requires RunGuard(RunGuard(db, Suspend, c, Loading, f).0, Reactivate, c, Loading, f').1.Done?
    ensures c in db.grants
    ensures RunGuard(RunGuard(db, Suspend, c, Loading, f).0, Reactivate, c, Loading, f').0 == db
            <==> db.grants[c].status == Active
  {
    RunGuardMeaning(db, Suspend, c, f);
    var db1 := RunGuard(db, Suspend, c, Loading, f).0;
    RunGuardMeaning(db1, Reactivate, c, f');
    var db2 := RunGuard(db1, Reactivate, c, Loading, f').0;
    assert db2.grants[c] == db.grants[c].(status := Active);
    assert db2.grants == db.grants[c := db2.grants[c]];
    if db.grants[c].status == Active { assert db2.grants == db.grants; }
  }

  /** A member, 0, who had never signed in, suspended and reactivated beside an admin, 1. */
  lemma ReactivatedUnseen(f: GuardFaults)
    requires f == GuardFaults(true, true, true, true)
    ensures var grants := map[0 := Grant(Technician, NotSignedInYet), 1 := Grant(Admin, Active)];
            var db := Tables(map[7 := Company("msp", true, false, None, "")],
                             map[0 := Contact(7, None, Some("a"), false), 1 := Contact(7, None, Some("b"), false)], grants);
            var db1 := RunGuard(db, Suspend, 0, Loading, f).0;
            && RunGuard(db, Suspend, 0, Loading, f).1 == RunGuard(db1, Reactivate, 0, Loading, f).1 == Done
            && RunGuard(db1, Reactivate, 0, Loading, f).0.grants[0] == Grant(Technician, Active) != db.grants[0]
  {
    var grants := map[0 := Grant(Technician, NotSignedInYet), 1 := Grant(Admin, Active)];
    var db := Tables(map[7 := Company("msp", true, false, None, "")],
                     map[0 := Contact(7, None, Some("a"), false), 1 := Contact(7, None, Some("b"), false)], grants);
    RunGuardMeaning(db, Suspend, 0, f);
    RunGuardMeaning(RunGuard(db, Suspend, 0, Loading, f).0, Reactivate, 0, f);
  }

  // ------------------------------------------------------- InviteMember

  /** The request after trimming: a blank name, a blank email and an unspecified
      role are the three ways it can be invalid. */
  datatype InviteRequest = InviteRequest(named: bool, email: string, role: Option<Role>)

  datatype InvitePc =
    | Validating
    | CompanyKnown(company: CompanyId, org: OrgId)
    | EmailFree(company: CompanyId, org: OrgId)
    | Minted(company: CompanyId, user: UserId)
    | Stored(contact: ContactId, user: UserId)
    | Undoing(user: UserId)               // the deferred RemoveUser is due
    | Committed(contact: ContactId, user: UserId)
    | Refused(why: Refusal)

  predicate InviteEnded(pc: InvitePc) { pc.Committed? || pc.Refused? }

  /** Reject the request, or read the MSP company. */
  ghost function InviteBegin(w: World, req: InviteRequest, ch: Choice): InvitePc {
    if !req.named || req.email == "" || req.role.None? then Refused(InvalidArgument)
    else if !ch.ok || MspId(w.db).None? then Refused(Internal)
    else var m := MspId(w.db).value; CompanyKnown(m, w.db.companies[m].org)
  }

  ghost function InviteStep(w: World, req: InviteRequest, pc: InvitePc, ch: Choice): (World, InvitePc) {
    match pc
    case Validating => (w, InviteBegin(w, req, ch))
    case CompanyKnown(m, o) =>
      if !ch.ok then (w, Refused(Internal))
      else if EmailTaken(w.db, m, req.email) then (w, Refused(AlreadyExists))
      else (w, EmailFree(m, o))
    case EmailFree(m, o) =>
      if !ch.ok then (w, Refused(Internal))
      else (w.(idp := AddUser(w.idp, ch.user, o), log := w.log.(invitedUsers := w.log.invitedUsers + {ch.user})),
            Minted(m, ch.user))
    case Minted(m, u) =>
      var row := Contact(m, Some(req.email), Some(u), false);
      if !ch.ok || !ContactFits(w.db, row) then (w, Undoing(u))
      else (w.(db := AddContact(w.db, ch.id, row)), Stored(ch.id, u))
    case Stored(c, u) =>
      if !ch.ok || c in w.db.grants || c !in w.db.contacts || req.role.None? then (w, Undoing(u))
      else (w.(db := AddGrant(w.db, c, Grant(req.role.value, NotSignedInYet))), Committed(c, u))
    case Undoing(u) =>
      var log' := w.log.(removeUserCalls := w.log.removeUserCalls + multiset{u});
      if ch.ok then (w.(idp := DropUser(w.idp, u), log := log'), Refused(Internal))
      else (w.(log := log'.(failedUserRemovals := log'.failedUserRemovals + {u})), Refused(Internal))
    case Committed(_, _) => (w, pc)
    case Refused(_) => (w, pc)
  }

  function InviteRank(pc: InvitePc): nat {
    match pc
    case Validating => 6 case CompanyKnown(_, _) => 5 case EmailFree(_, _) => 4
    case Minted(_, _) => 3 case Stored(_, _) => 2 case Undoing(_) => 1
    case _ => 0
  }

  /** One outcome for each program point of InviteMember. */
  datatype InviteFaults = InviteFaults(company: Choice, exists_: Choice, mint: Choice,
                                       contact: Choice, grant: Choice, undo: Choice)

  function InviteChoice(f: InviteFaults, pc: InvitePc): Choice {
    match pc
    case Validating => f.company
    case CompanyKnown(_, _) => f.exists_
    case EmailFree(_, _) => f.mint
    case Minted(_, _) => f.contact
    case Stored(_, _) => f.grant
    case _ => f.undo
  }

  ghost function RunInvite(w: World, req: InviteRequest, pc: InvitePc, f: InviteFaults): (World, InvitePc)
    decreases InviteRank(pc)
  {
    if InviteEnded(pc) then (w, pc)
    else
      var (w', pc') := InviteStep(w, req, pc, InviteChoice(f, pc));
      RunInvite(w', req, pc', f)
  }

  /** The invite gets as far as a minted user: a valid request, no failure, an MSP
      company, and nobody there with this email. */
  ghost predicate InviteMints(w: World, req: InviteRequest, f: InviteFaults) {
    && req.named && req.email != "" && req.role.Some?
    && f.company.ok && MspId(w.db).Some?
    && f.exists_.ok && !EmailTaken(w.db, MspId(w.db).value, req.email)
    && f.mint.ok
  }

  ghost function InvitedRow(w: World, req: InviteRequest, f: InviteFaults): Contact
    requires MspId(w.db).Some?
  {
    Contact(MspId(w.db).value, Some(req.email), Some(f.mint.user), false)
  }

  /** It also gets its contact stored. */
  ghost predicate InviteStores(w: World, req: InviteRequest, f: InviteFaults) {
    InviteMints(w, req, f) && f.contact.ok && ContactFits(w.db, InvitedRow(w, req, f))
  }

  /** Why an invite is refused, when it is. */
  ghost function InviteRefusal(w: World, req: InviteRequest, f: InviteFaults): Refusal {
    if !req.named || req.email == "" || req.role.None? then InvalidArgument
    else if f.company.ok && MspId(w.db).Some? && f.exists_.ok && EmailTaken(w.db, MspId(w.db).value, req.email)
    then AlreadyExists
    else Internal
  }

  lemma UndoMeaning(w: World, req: InviteRequest, u: UserId, f: InviteFaults)
    ensures var (w', pc') := RunInvite(w, req, Undoing(u), f);
            && pc' == Refused(Internal) && w'.ws == w.ws && w'.db == w.db
            && w'.idp == if f.undo.ok then DropUser(w.idp, u) else w.idp
  {
  }

  /** The second half: from the minted user on. */
  lemma MintedMeaning(w: World, req: InviteRequest, m: CompanyId, u: UserId, f: InviteFaults)
    requires ValidSchema(w.db) && f.contact.id !in w.db.contacts && req.role.Some?
    ensures var (w', pc') := RunInvite(w, req, Minted(m, u), f);
            var row := Contact(m, Some(req.email), Some(u), false);
            var stored := f.contact.ok && ContactFits(w.db, row);
            var db1 := AddContact(w.db, f.contact.id, row);
            && pc' == (if stored && f.grant.ok then Committed(f.contact.id, u) else Refused(Internal))
            && w'.ws == w.ws
            && w'.db == (if !stored then w.db
                         else if f.grant.ok then AddGrant(db1, f.contact.id, Grant(req.role.value, NotSignedInYet)) else db1)
            && w'.idp == if pc'.Committed? || !f.undo.ok then w.idp else DropUser(w.idp, u)
  {
    var (w1, pc1) := InviteStep(w, req, Minted(m, u), f.contact);
    assert RunInvite(w, req, Minted(m, u), f) == RunInvite(w1, req, pc1, f);
    if pc1.Stored? {
      var (w2, pc2) := InviteStep(w1, req, pc1, f.grant);
      assert RunInvite(w1, req, pc1, f) == RunInvite(w2, req, pc2, f);
      UndoMeaning(w2, req, u, f);
    } else {
      UndoMeaning(w1, req, u, f);
    }
  }

  lemma UnmintedMeaning(w: World, req: InviteRequest, f: InviteFaults)
    requires !InviteMints(w, req, f)
    ensures RunInvite(w, req, Validating, f) == (w, Refused(InviteRefusal(w, req, f)))
  {
    var pc1 := InviteStep(w, req, Validating, f.company).1;
    assert RunInvite(w, req, Validating, f) == RunInvite(w, req, pc1, f);
    if pc1.CompanyKnown? {
      var pc2 := InviteStep(w, req, pc1, f.exists_).1;
      assert RunInvite(w, req, pc1, f) == RunInvite(w, req, pc2, f);
    }
  }

  /** What an uninterrupted invite amounts to.  It commits exactly when the contact is
      stored and the grant insert succeeds, as a pending grant of the requested role;
      the minted user survives exactly a commit or a failed removal; and a failed grant
      insert leaves the contact behind. */
  lemma RunInviteMeaning(w: World, req: InviteRequest, f: InviteFaults)
    requires ValidSchema(w.db) && f.contact.id !in w.db.contacts
    ensures var (w', pc') := RunInvite(w, req, Validating, f);
            && pc' == (if InviteStores(w, req, f) && f.grant.ok then Committed(f.contact.id, f.mint.user)
                       else Refused(InviteRefusal(w, req, f)))
            && w'.ws == w.ws
            && (if !InviteStores(w, req, f) then w'.db == w.db
                else
                  var db1 := AddContact(w.db, f.contact.id, InvitedRow(w, req, f));
                  w'.db == if f.grant.ok then AddGrant(db1, f.contact.id, Grant(req.role.value, NotSignedInYet)) else db1)
            && (if !InviteMints(w, req, f) then w'.idp == w.idp
                else
                  var minted := AddUser(w.idp, f.mint.user, w.db.companies[MspId(w.db).value].org);
                  w'.idp == if pc'.Committed? || !f.undo.ok then minted else DropUser(minted, f.mint.user))
  {
    var m := MspId(w.db);
    if InviteMints(w, req, f) {
      var org := w.db.companies[m.value].org;
      assert RunInvite(w, req, Validating, f) == RunInvite(w, req, EmailFree(m.value, org), f) by {
        assert RunInvite(w, req, Validating, f) == RunInvite(w, req, CompanyKnown(m.value, org), f);
      }
      var w1 := InviteStep(w, req, EmailFree(m.value, org), f.mint).0;
      assert RunInvite(w, req, EmailFree(m.value, org), f) == RunInvite(w1, req, Minted(m.value, f.mint.user), f);
      MintedMeaning(w1, req, m.value, f.mint.user, f);
    } else {
      UnmintedMeaning(w, req, f);
    }
  }

  /** The answers of an invite in terms of the request and the rows alone, m being the MSP
      company: what is asked for, whether its address is in use there, and whether anybody
      has the minted identity. */
  lemma RunInviteAnswers(w: World, req: InviteRequest, f: InviteFaults, m: CompanyId)
    requires ValidSchema(w.db) && f.contact.id !in w.db.contacts
    requires m in w.db.companies && w.db.companies[m].isOwner
    ensures var (w', pc') := RunInvite(w, req, Validating, f);
            var valid := req.named && req.email != "" && req.role.Some?;
            var inUse := exists c :: c in w.db.contacts && !w.db.contacts[c].archived
                                     && w.db.contacts[c].company == m && w.db.contacts[c].email == Some(req.email);
            var held := exists c :: c in w.db.contacts && w.db.contacts[c].user == Some(f.mint.user);
            var asked := valid && f.company.ok && f.exists_.ok;
            && (pc' == Refused(InvalidArgument) <==> !valid)
            && (pc' == Refused(AlreadyExists) <==> asked && inUse)
            && (pc'.Committed? <==> asked && !inUse && f.mint.ok && f.contact.ok && !held && f.grant.ok)
            && (pc'.Committed? ==>
                  && w'.db.companies == w.db.companies
                  && w'.db.contacts == w.db.contacts[f.contact.id := Contact(m, Some(req.email), Some(f.mint.user), false)]
                  && w'.db.grants == w.db.grants[f.contact.id := Grant(req.role.value, NotSignedInYet)]
                  && w'.idp.users == w.idp.users[f.mint.user := w.db.companies[m].org])
  {
    RunInviteMeaning(w, req, f);
    assert IsMsp(w.db, m) && MspId(w.db) == Some(m);
    assert forall c :: HoldsEmail(w.db, c, m, req.email) <==>
      c in w.db.contacts && !w.db.contacts[c].archived && w.db.contacts[c].company == m && w.db.contacts[c].email == Some(req.email);
    assert forall c :: HoldsUser(w.db, c, f.mint.user) <==> c in w.db.contacts && w.db.contacts[c].user == Some(f.mint.user);
  }

  /** The two inserts are not one transaction: a refused invite leaves the tables as
      they were if and only if its contact insert did not take effect. */
  lemma RefusedInviteIsCleanIff(w: World, req: InviteRequest, f: InviteFaults)
    requires ValidSchema(w.db) && f.contact.id !in w.db.contacts
    requires RunInvite(w, req, Validating, f).1.Refused?
    ensures RunInvite(w, req, Validating, f).0.db == w.db <==> !InviteStores(w, req, f)
  {
    RunInviteMeaning(w, req, f);
    if InviteStores(w, req, f) {
      assert f.contact.id in RunInvite(w, req, Validating, f).0.db.contacts;
    }
  }

  /** An invite into a workspace without contacts whose grant insert fails is refused and
      leaves its contact. */
  lemma RefusedInviteLeavesContact(w: World)
    requires w.db == Tables(map[0 := Company("msp", true, false, None, "")], map[], map[])
    ensures var ok := Choice(true, "", "u", "", "", 9);
            var f := InviteFaults(ok, ok, ok, ok, ok.(ok := false), ok);
            var (w', pc') := RunInvite(w, InviteRequest(true, "e", Some(Technician)), Validating, f);
            && pc' == Refused(Internal) && w'.db != w.db
            && w'.db.contacts == map[9 := Contact(0, Some("e"), Some("u"), false)] && w'.db.grants == map[]
  {
    var ok := Choice(true, "", "u", "", "", 9);
    var f := InviteFaults(ok, ok, ok, ok, ok.(ok := false), ok);
    var req := InviteRequest(true, "e", Some(Technician));
    assert IsMsp(w.db, 0) && forall id :: IsMsp(w.db, id) ==> id == 0;
    assert forall c, co, e :: !HoldsEmail(w.db, c, co, e);
    assert forall c, u :: !HoldsUser(w.db, c, u);
    assert InviteStores(w, req, f);
    RunInviteMeaning(w, req, f);
  }

  /** And then the address is burnt: inviting it again is refused as a duplicate. */
  lemma LeftoverBlocksRetry(w: World, req: InviteRequest, f: InviteFaults, again: InviteRequest, f': InviteFaults)
    requires ValidSchema(w.db) && f.contact.id !in w.db.contacts
    requires InviteStores(w, req, f) && !f.grant.ok
    requires again.named && again.email == req.email && again.role.Some? && f'.company.ok && f'.exists_.ok
    ensures var w' := RunInvite(w, req, Validating, f).0;
            RunInvite(w', again, Validating, f') == (w', Refused(AlreadyExists))
  {
    RunInviteMeaning(w, req, f);
    var w', m := RunInvite(w, req, Validating, f).0, MspId(w.db).value;
    assert IsMsp(w'.db, m) && forall id :: IsMsp(w'.db, id) ==> IsMsp(w.db, id);
    assert MspId(w'.db) == Some(m);
    assert HoldsEmail(w'.db, f.contact.id, m, req.email);
    var known := CompanyKnown(m, w'.db.companies[m].org);
    assert RunInvite(w', again, Validating, f') == RunInvite(w', again, known, f');
    assert RunInvite(w', again, known, f') == (w', Refused(AlreadyExists));
  }

  // ------------------------------------------------------ ArchiveContact

  datatype ArchivePc = Checking | Unbacked | Archived | Kept(why: Refusal)

  /** ContactHasWorkspaceGrant, then the update. */
  function ArchiveStep(db: Tables, c: ContactId, pc: ArchivePc, ok: bool): (Tables, ArchivePc) {
    match pc
    case Checking =>
      if !ok then (db, Kept(Internal))
      else if c in db.grants then (db, Kept(FailedPrecondition)) else (db, Unbacked)
    case Unbacked =>
      if !ok then (db, Kept(Internal)) else (ArchiveContactRow(db, c), Archived)
    case Archived => (db, pc)
    case Kept(_) => (db, pc)
  }

  function RunArchive(db: Tables, c: ContactId, checkOk: bool, writeOk: bool): (Tables, ArchivePc) {
    var (db', pc') := ArchiveStep(db, c, Checking, checkOk);
    ArchiveStep(db', c, pc', writeOk)
  }
}
