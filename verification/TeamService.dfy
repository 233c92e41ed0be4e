/** The team handlers as the source writes them, each proved to be the uninterrupted
    run of its statements. */
module TeamService {
  import opened Schema
  import opened Team
  import opened Backend

  /** The four steps of a guarded handler, spelled out. */
  lemma RunGuardUnfolds(db: Tables, op: GuardOp, c: ContactId, f: GuardFaults)
    ensures var (db1, pc1) := GuardStep(db, op, c, Loading, f.contactOk);
            var (db2, pc2) := GuardStep(db1, op, c, pc1, f.grantOk);
            var (db3, pc3) := GuardStep(db2, op, c, pc2, f.countOk);
            var (db4, pc4) := GuardStep(db3, op, c, pc3, f.writeOk);
            RunGuard(db, op, c, Loading, f) == (db4, pc4)
  {
  }

  class Handler {
    const store: Store

    constructor (store: Store)
      ensures this.store == store
    {
      this.store := store;
    }

    /** GetContact, then GetGrantByContactID. */
    method LoadContactAndGrant(c: ContactId, f: GuardFaults) returns (r: Option<Grant>, why: Refusal)
      ensures var (db1, pc1) := GuardStep(store.db, Reactivate, c, Loading, f.contactOk);
              var (db2, pc2) := GuardStep(db1, Reactivate, c, pc1, f.grantOk);
              pc2 == if r.Some? then GrantLoaded(r.value) else Rejected(why)
    {
      if !f.contactOk {
        return None, Internal;
      }
      if c !in store.db.contacts || store.db.contacts[c].archived {
        return None, NotFound;
      }
      if !f.grantOk {
        return None, Internal;
      }
      if c !in store.db.grants {
        return None, NotFound;
      }
      return Some(store.db.grants[c]), Internal;
    }

    /** None when another active admin remains, otherwise the refusal. */
    method EnsureAnotherActiveAdmin(ok: bool) returns (why: Option<Refusal>)
      ensures why == if !ok then Some(Internal)
                     else if CountActiveAdmins(store.db.grants) <= 1 then Some(FailedPrecondition) else None
    {
      if !ok {
        return Some(Internal);
      }
      if CountActiveAdmins(store.db.grants) <= 1 {
        return Some(FailedPrecondition);
      }
      return None;
    }

    method ChangeRole(c: ContactId, role: Role, f: GuardFaults) returns (pc: GuardPc)
      modifies store`db
      ensures (store.db, pc) == RunGuard(old(store.db), Team.ChangeRole(role), c, Loading, f)
      ensures pc.Done? ==>
        c in old(store.db).grants
        && store.db == old(store.db).(grants := old(store.db).grants[c := Grant(role, old(store.db).grants[c].status)])
    {
      RunGuardMeaning(store.db, Team.ChangeRole(role), c, f);
      RunGuardUnfolds(store.db, Team.ChangeRole(role), c, f);
      var grant, why := LoadContactAndGrant(c, f);
      if grant.None? {
        return Rejected(why);
      }
      if grant.value.role == Admin && role != Admin {
        var refusal := EnsureAnotherActiveAdmin(f.countOk);
        if refusal.Some? {
          return Rejected(refusal.value);
        }
      }
      if !f.writeOk {
        return Rejected(Internal);
      }
      store.db := SetRole(store.db, c, role);
      return Done;
    }

    method SuspendMember(c: ContactId, f: GuardFaults) returns (pc: GuardPc)
      modifies store`db
      ensures (store.db, pc) == RunGuard(old(store.db), Suspend, c, Loading, f)
      ensures pc.Done? ==>
        c in old(store.db).grants
        && store.db == old(store.db).(grants := old(store.db).grants[c := Grant(old(store.db).grants[c].role, Suspended)])
    {
      RunGuardUnfolds(store.db, Suspend, c, f);
      var grant, why := LoadContactAndGrant(c, f);
      if grant.None? {
        return Rejected(why);
      }
      if grant.value.role == Admin && grant.value.status == Active {
        var refusal := EnsureAnotherActiveAdmin(f.countOk);
        if refusal.Some? {
          return Rejected(refusal.value);
        }
      }
      if !f.writeOk {
        return Rejected(Internal);
      }
      store.db := SetStatus(store.db, c, Suspended);
      return Done;
    }

    method ReactivateMember(c: ContactId, f: GuardFaults) returns (pc: GuardPc)
      modifies store`db
      ensures (store.db, pc) == RunGuard(old(store.db), Reactivate, c, Loading, f)
      ensures pc.Done? ==>
        c in old(store.db).grants
        && store.db == old(store.db).(grants := old(store.db).grants[c := Grant(old(store.db).grants[c].role, Active)])
    {
      RunGuardUnfolds(store.db, Reactivate, c, f);
      var grant, why := LoadContactAndGrant(c, f);
      if grant.None? {
        return Rejected(why);
      }
      if !f.writeOk {
        return Rejected(Internal);
      }
      store.db := SetStatus(store.db, c, Active);
      return Done;
    }

    /** InviteMember; the flag and the block at the end are the deferred clean-up. */
    method InviteMember(req: InviteRequest, f: InviteFaults) returns (pc: InvitePc)
      requires ValidSchema(store.db)
      modifies store
      ensures (store.World_(), pc) == RunInvite(old(store.World_()), req, Validating, f)
    {
      ghost var w := store.World_();
      if !req.named || req.email == "" || req.role.None? {
        return Refused(InvalidArgument);
      }
      var company := store.GetWorkspaceCompany(f.company.ok);
      if company.None? {
        assert RunInvite(w, req, Validating, f) == (w, Refused(Internal));
        return Refused(Internal);
      }
      var m := company.value;
      var org := store.db.companies[m].org;
      assert RunInvite(w, req, Validating, f) == RunInvite(w, req, CompanyKnown(m, org), f);

      var found := store.ContactExistsByCompanyEmail(m, req.email, f.exists_.ok);
      if found.None? {
        assert RunInvite(w, req, CompanyKnown(m, org), f) == (w, Refused(Internal));
        return Refused(Internal);
      }
      if found.value {
        assert RunInvite(w, req, CompanyKnown(m, org), f) == (w, Refused(AlreadyExists));
        return Refused(AlreadyExists);
      }
      assert RunInvite(w, req, CompanyKnown(m, org), f) == RunInvite(w, req, EmailFree(m, org), f);

      store.AddHumanUser(f.mint.user, org, f.mint.ok);
      if !f.mint.ok {
        assert RunInvite(w, req, EmailFree(m, org), f) == (w, Refused(Internal));
        return Refused(Internal);
      }
      var user := f.mint.user;
      assert RunInvite(w, req, EmailFree(m, org), f) == RunInvite(store.World_(), req, Minted(m, user), f);

      var committed := false;
      ghost var w1 := store.World_();
      var stored := store.InsertContact(f.contact.id, Contact(m, Some(req.email), Some(user), false), f.contact.ok);
      if stored {
        assert RunInvite(w1, req, Minted(m, user), f) == RunInvite(store.World_(), req, Stored(f.contact.id, user), f);
        ghost var w2 := store.World_();
        committed := store.InsertGrant(f.contact.id, Grant(req.role.value, NotSignedInYet), f.grant.ok);
        assert committed ==>
          RunInvite(w2, req, Stored(f.contact.id, user), f) == (store.World_(), Committed(f.contact.id, user));
        assert !committed ==>
          RunInvite(w2, req, Stored(f.contact.id, user), f) == RunInvite(store.World_(), req, Undoing(user), f);
      } else {
        assert RunInvite(w1, req, Minted(m, user), f) == RunInvite(store.World_(), req, Undoing(user), f);
      }
      if !committed {
        ghost var w3 := store.World_();
        store.RemoveUser(user, f.undo.ok);
        assert RunInvite(w3, req, Undoing(user), f) == (store.World_(), Refused(Internal));
        return Refused(Internal);
      }
      return Committed(f.contact.id, user);
    }
  }
}
