/** What a team handler that has succeeded means for the member's next requests: the
    answers of Wrap after a change of role, a suspension, a reactivation and an invite. */
module Access {
  import opened Schema
  import opened Team
  import opened Authz

  predicate Guarded(rules: Rules, path: string) {
    IsConnectProcedure(path) && path !in rules.isPublic
  }

  /** The policy opens the path to the role. */
  predicate Open(rules: Rules, path: string, r: Role) {
    path in rules.policy && (rules.policy[path] == AdminOnly ==> r == Admin)
  }

  /** A member is served on a guarded path exactly when not suspended and the policy
      opens it to their role. */
  lemma MemberIsLetThroughIff(rules: Rules, db: Tables, c: ContactId, u: UserId, path: string, activateOk: bool)
    requires ValidSchema(db) && HoldsUser(db, c, u) && c in db.grants
    ensures LetThrough(RunRequest(rules, db, Request(path, Some(u)), true, activateOk).1) <==>
            !Guarded(rules, path) || (db.grants[c].status != Suspended && Open(rules, path, db.grants[c].role))
  {
    var req := Request(path, Some(u));
    RequestAnswers(rules, db, req, true, activateOk);
    if Guarded(rules, path) {
      assert RightForContact(rules, db, path, c, RunRequest(rules, db, req, true, activateOk).1);
    }
  }

  lemma WrittenMember(db: Tables, op: GuardOp, c: ContactId, f: GuardFaults)
    requires ValidSchema(db) && RunGuard(db, op, c, Loading, f).1.Done?
    ensures c in db.grants
    ensures var db' := RunGuard(db, op, c, Loading, f).0;
            && ValidSchema(db') && db'.contacts == db.contacts
            && c in db'.grants && db'.grants[c] == Regranted(op, db.grants[c])
  {
    RunGuardMeaning(db, op, c, f);
    GrantsKeepSchema(db, RunGuard(db, op, c, Loading, f).0.grants);
  }

  /** After ChangeRole the new role decides, and nothing else about the member has changed:
      a promoted member who is not suspended is served on every admin-only procedure, a
      demoted one on none. */
  lemma ChangedRoleDecides(rules: Rules, db: Tables, r: Role, c: ContactId, u: UserId, f: GuardFaults, path: string, activateOk: bool)
    requires ValidSchema(db) && HoldsUser(db, c, u) && RunGuard(db, ChangeRole(r), c, Loading, f).1.Done?
    ensures c in db.grants
    ensures var db' := RunGuard(db, ChangeRole(r), c, Loading, f).0;
            LetThrough(RunRequest(rules, db', Request(path, Some(u)), true, activateOk).1) <==>
            !Guarded(rules, path) || (db.grants[c].status != Suspended && Open(rules, path, r))
  {
    WrittenMember(db, ChangeRole(r), c, f);
    MemberIsLetThroughIff(rules, RunGuard(db, ChangeRole(r), c, Loading, f).0, c, u, path, activateOk);
  }

  /** After SuspendMember nothing guarded is served to them, after ReactivateMember what
      their role allows. */
  lemma SuspensionDecides(rules: Rules, db: Tables, op: GuardOp, c: ContactId, u: UserId, f: GuardFaults, path: string, activateOk: bool)
    requires ValidSchema(db) && HoldsUser(db, c, u) && !op.ChangeRole? && RunGuard(db, op, c, Loading, f).1.Done?
    ensures c in db.grants
    ensures var db' := RunGuard(db, op, c, Loading, f).0;
            LetThrough(RunRequest(rules, db', Request(path, Some(u)), true, activateOk).1) <==>
            !Guarded(rules, path) || (op == Reactivate && Open(rules, path, db.grants[c].role))
  {
    WrittenMember(db, op, c, f);
    MemberIsLetThroughIff(rules, RunGuard(db, op, c, Loading, f).0, c, u, path, activateOk);
  }

  lemma InvitedMember(w: World, req: InviteRequest, f: InviteFaults)
    requires ValidSchema(w.db) && f.contact.id !in w.db.contacts
    requires RunInvite(w, req, Validating, f).1.Committed?
    ensures req.role.Some?
    ensures var db' := RunInvite(w, req, Validating, f).0.db;
            && ValidSchema(db') && HoldsUser(db', f.contact.id, f.mint.user)
            && f.contact.id in db'.grants && db'.grants[f.contact.id] == Grant(req.role.value, NotSignedInYet)
  {
    RunInviteMeaning(w, req, f);
    var db1 := AddContact(w.db, f.contact.id, InvitedRow(w, req, f));
    AddContactKeepsSchema(w.db, f.contact.id, InvitedRow(w, req, f));
    GrantsKeepSchema(db1, RunInvite(w, req, Validating, f).0.db.grants);
  }

  /** The identity that an invite minted is served by the invited role, from its first
      request on, and that request makes the grant active if its write succeeds. */
  lemma InviteDecides(rules: Rules, w: World, req: InviteRequest, f: InviteFaults, path: string, activateOk: bool)
    requires ValidSchema(w.db) && f.contact.id !in w.db.contacts
    requires RunInvite(w, req, Validating, f).1.Committed?
    ensures req.role.Some?
    ensures var db' := RunInvite(w, req, Validating, f).0.db;
            var (db2, d) := RunRequest(rules, db', Request(path, Some(f.mint.user)), true, activateOk);
            && (LetThrough(d) <==> !Guarded(rules, path) || Open(rules, path, req.role.value))
            && f.contact.id in db2.grants
            && db2.grants[f.contact.id] == Grant(req.role.value, if Guarded(rules, path) && activateOk then Active else NotSignedInYet)
  {
    InvitedMember(w, req, f);
    var db' := RunInvite(w, req, Validating, f).0.db;
    MemberIsLetThroughIff(rules, db', f.contact.id, f.mint.user, path, activateOk);
    RequestAnswers(rules, db', Request(path, Some(f.mint.user)), true, activateOk);
  }
}
