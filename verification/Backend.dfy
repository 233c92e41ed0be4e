/** The database and ZITADEL as the handlers call them: each method is one statement
    or one remote call, `ok` says whether it succeeds, and a failing one changes
    nothing. */
module Backend {
  import opened Schema

  class Store {
    var ws: Workspace
    var db: Tables
    var idp: Directory
    ghost var log: Ledger

    ghost function World_(): World
      reads this
    {
      World(ws, db, idp, log)
    }

    constructor (ws: Workspace, db: Tables, idp: Directory, ghost log: Ledger)
      ensures World_() == World(ws, db, idp, log)
    {
      this.ws, this.db, this.idp, this.log := ws, db, idp, log;
    }

    // ------------------------------------------------------- queries

    method GetWorkspaceCompany(ok: bool) returns (m: Option<CompanyId>)
      requires ValidSchema(db)
      ensures m == if ok then MspId(db) else None
    {
      m := None;
      if ok {
        if id :| id in db.companies && db.companies[id].isOwner {
          assert IsMsp(db, id);
          m := Some(id);
        } else {
          assert !HasMsp(db);
        }
      }
    }

    method ContactExistsByCompanyEmail(company: CompanyId, email: string, ok: bool) returns (found: Option<bool>)
      ensures found == if ok then Some(EmailTaken(db, company, email)) else None
    {
      if !ok {
        return None;
      }
      var taken := exists c | c in db.contacts :: HoldsEmail(db, c, company, email);
      assert taken <==> EmailTaken(db, company, email);
      return Some(taken);
    }

    method ResolveContact(u: UserId, ok: bool) returns (c: Option<Option<ContactId>>)
      requires ValidSchema(db)
      ensures c == if ok then Some(ContactOf(db, u)) else None
    {
      if !ok {
        return None;
      }
      if d :| d in db.contacts && db.contacts[d].user == Some(u) {
        ContactOfIsUnique(db, d, u);
        return Some(Some(d));
      }
      assert !UserTaken(db, u);
      return Some(None);
    }

    // ---------------------------------------------------- statements

    method InsertContact(id: ContactId, row: Contact, ok: bool) returns (done: bool)
      modifies this`db
      ensures done <==> ok && ContactFits(old(db), row)
      ensures db == if done then AddContact(old(db), id, row) else old(db)
    {
      if !ok || row.company !in db.companies {
        return false;
      }
      if row.email.Some? && !row.archived {
        var taken := exists c | c in db.contacts :: HoldsEmail(db, c, row.company, row.email.value);
        assert taken <==> EmailTaken(db, row.company, row.email.value);
        if taken {
          return false;
        }
      }
      if row.user.Some? {
        var taken := exists c | c in db.contacts :: HoldsUser(db, c, row.user.value);
        assert taken <==> UserTaken(db, row.user.value);
        if taken {
          return false;
        }
      }
      db := AddContact(db, id, row);
      return true;
    }

    method InsertGrant(c: ContactId, g: Grant, ok: bool) returns (done: bool)
      modifies this`db
      ensures done <==> ok && c !in old(db).grants && c in old(db).contacts
      ensures db == if done then AddGrant(old(db), c, g) else old(db)
    {
      done := ok && c !in db.grants && c in db.contacts;
      if done {
        db := AddGrant(db, c, g);
      }
    }

    /** INSERT INTO companies: one MSP row at most, and no organisation twice. */
    method InsertCompany(id: CompanyId, row: Company, ok: bool) returns (done: bool)
      modifies this`db
      ensures done <==> ok && (row.isOwner ==> !HasMsp(old(db))) && !OrgTaken(old(db), row.org)
                        && (row.accountOwner.Some? ==> row.accountOwner.value in old(db).contacts)
      ensures db == if done then AddCompany(old(db), id, row) else old(db)
    {
      var second := exists m | m in db.companies :: IsMsp(db, m);
      assert second <==> HasMsp(db);
      done := ok && !(row.isOwner && second) && !OrgTaken(db, row.org)
              && (row.accountOwner.Some? ==> row.accountOwner.value in db.contacts);
      if done {
        db := AddCompany(db, id, row);
      }
    }

    // ------------------------------------------------------- ZITADEL

    method AddHumanUser(u: UserId, org: OrgId, ok: bool)
      modifies this`idp, this`log
      ensures idp == if ok then AddUser(old(idp), u, org) else old(idp)
      ensures log == if ok then old(log).(invitedUsers := old(log).invitedUsers + {u}) else old(log)
    {
      if ok {
        idp := AddUser(idp, u, org);
        log := log.(invitedUsers := log.invitedUsers + {u});
      }
    }

    method RemoveUser(u: UserId, ok: bool)
      modifies this`idp, this`log
      ensures idp == if ok then DropUser(old(idp), u) else old(idp)
      ensures log.removeUserCalls == old(log).removeUserCalls + multiset{u}
      ensures log.failedUserRemovals == if ok then old(log).failedUserRemovals else old(log).failedUserRemovals + {u}
      ensures log == old(log).(removeUserCalls := log.removeUserCalls, failedUserRemovals := log.failedUserRemovals)
    {
      log := log.(removeUserCalls := log.removeUserCalls + multiset{u});
      if ok {
        idp := DropUser(idp, u);
      } else {
        log := log.(failedUserRemovals := log.failedUserRemovals + {u});
      }
    }

    /** SetUpOrg: the organisation and its first user in one call. */
    method SetUpOrg(org: OrgId, u: UserId, ok: bool)
      modifies this`idp
      ensures idp == if ok then AddUser(AddOrg(old(idp), org), u, org) else old(idp)
    {
      if ok {
        idp := AddUser(AddOrg(idp, org), u, org);
      }
    }

    method AddOrganization(org: OrgId, ok: bool)
      modifies this`idp
      ensures idp == if ok then AddOrg(old(idp), org) else old(idp)
    {
      if ok {
        idp := AddOrg(idp, org);
      }
    }

    method RemoveOrg(org: OrgId, ok: bool)
      modifies this`idp, this`log
      ensures idp == if ok then DropOrg(old(idp), org) else old(idp)
      ensures log == if ok then old(log) else old(log).(failedOrgRemovals := old(log).failedOrgRemovals + {org})
    {
      if ok {
        idp := DropOrg(idp, org);
      } else {
        log := log.(failedOrgRemovals := log.failedOrgRemovals + {org});
      }
    }

    // ---------------------------------------------------- workspace row

    method SaveWorkspace(next: Workspace, ok: bool)
      modifies this`ws
      ensures ws == if ok then next else old(ws)
    {
      if ok {
        ws := next;
      }
    }

    /** MarkWorkspaceFailed. */
    method SaveFailure(e: InstallError, ok: bool)
      modifies this`ws, this`log
      ensures ws == if ok then old(ws).(state := Failed, error := Some(e)) else old(ws)
      ensures log == if ok then old(log) else old(log).(failedMarks := old(log).failedMarks + 1)
    {
      if ok {
        ws := ws.(state := Failed, error := Some(e));
      } else {
        log := log.(failedMarks := log.failedMarks + 1);
      }
    }
  }
}
