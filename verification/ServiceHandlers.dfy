/** The contact and company handlers as the source writes them, each proved to be the
    function of the shared state in Services. */
module ServiceHandlers {
  import opened Schema
  import opened Backend
  import Team
  import Services

  class ContactsHandler {
    const store: Store

    constructor (store: Store)
      ensures this.store == store
    {
      this.store := store;
    }

    method CreateContact(company: CompanyId, email: Option<string>, id: ContactId, checkOk: bool, insertOk: bool)
      returns (why: Option<Team.Refusal>)
      modifies store`db
      ensures (store.db, why) == Services.CreateContact(old(store.db), company, email, id, checkOk, insertOk)
    {
      if email.Some? {
        var found := store.ContactExistsByCompanyEmail(company, email.value, checkOk);
        if found.None? {
          return Some(Team.Internal);
        }
        if found.value {
          return Some(Team.AlreadyExists);
        }
      }
      var done := store.InsertContact(id, Contact(company, email, None, false), insertOk);
      return if done then None else Some(Team.Internal);
    }

    method UpdateContact(c: ContactId, email: Option<string>, ok: bool) returns (why: Option<Team.Refusal>)
      modifies store`db
      ensures (store.db, why) == Services.UpdateContact(old(store.db), c, email, ok)
    {
      if !ok {
        return Some(Team.Internal);
      }
      if c !in store.db.contacts || store.db.contacts[c].archived {
        return Some(Team.NotFound);
      }
      if email.Some? {
        var taken := exists d | d in store.db.contacts ::
          d != c && HoldsEmail(store.db, d, store.db.contacts[c].company, email.value);
        assert taken <==> Services.EmailTakenByAnother(store.db, c, email.value);
        if taken {
          return Some(Team.Internal);
        }
      }
      store.db := AddContact(store.db, c, store.db.contacts[c].(email := email));
      return None;
    }

    method ArchiveContact(c: ContactId, checkOk: bool, writeOk: bool) returns (pc: Team.ArchivePc)
      modifies store`db
      ensures (store.db, pc) == Team.RunArchive(old(store.db), c, checkOk, writeOk)
    {
      if !checkOk {
        return Team.Kept(Team.Internal);
      }
      if c in store.db.grants {
        return Team.Kept(Team.FailedPrecondition);
      }
      if !writeOk {
        return Team.Kept(Team.Internal);
      }
      store.db := ArchiveContactRow(store.db, c);
      return Team.Archived;
    }
  }

  class CompaniesHandler {
    const store: Store

    constructor (store: Store)
      ensures this.store == store
    {
      this.store := store;
    }

    /** The organisation first, then the row. */
    method CreateCompany(form: Services.CompanyForm, readOk: bool, orgOk: bool, insertOk: bool, org: OrgId, id: CompanyId)
      returns (why: Option<Team.Refusal>)
      modifies store
      ensures (store.World_(), why) == Services.CreateCompany(old(store.World_()), form, readOk, orgOk, insertOk, org, id)
    {
      why := Services.RequireReady(store.ws, readOk);
      if why.Some? {
        return;
      }
      if !form.named {
        return Some(Team.InvalidArgument);
      }
      store.AddOrganization(org, orgOk);
      if !orgOk {
        return Some(Team.Internal);
      }
      var done := store.InsertCompany(id, Company(org, false, false, form.accountOwner, form.profile), insertOk);
      if !done {
        store.log := store.log.(failedInserts := store.log.failedInserts + {org});
        return Some(Team.Internal);
      }
      return None;
    }

    /** Was it the MSP row, or nothing at all? */
    method ExplainMissingCompany(id: CompanyId, ok: bool) returns (why: Option<Team.Refusal>)
      requires ValidSchema(store.db)
      ensures why == Some(if ok && IsMsp(store.db, id) then Team.FailedPrecondition else Team.NotFound)
    {
      var m := store.GetWorkspaceCompany(ok);
      if m.Some? && m.value == id {
        return Some(Team.FailedPrecondition);
      }
      return Some(Team.NotFound);
    }

    method UpdateCompany(id: CompanyId, form: Services.CompanyForm, readOk: bool, ok: bool, explainOk: bool)
      returns (why: Option<Team.Refusal>)
      requires ValidSchema(store.db)
      modifies store`db
      ensures (store.World_(), why) == Services.UpdateCompany(old(store.World_()), id, form, readOk, ok, explainOk)
    {
      why := Services.RequireReady(store.ws, readOk);
      if why.Some? {
        return;
      }
      if !form.named {
        return Some(Team.InvalidArgument);
      }
      if !ok {
        return Some(Team.Internal);
      }
      if !Services.ActiveCustomer(store.db, id) {
        why := ExplainMissingCompany(id, explainOk);
        return;
      }
      if form.accountOwner.Some? && form.accountOwner.value !in store.db.contacts {
        return Some(Team.Internal);
      }
      store.db := AddCompany(store.db, id,
        store.db.companies[id].(accountOwner := form.accountOwner, profile := form.profile));
      return None;
    }

    method ArchiveCompany(id: CompanyId, readOk: bool, getOk: bool, writeOk: bool) returns (why: Option<Team.Refusal>)
      modifies store`db
      ensures (store.World_(), why) == Services.ArchiveCompany(old(store.World_()), id, readOk, getOk, writeOk)
    {
      why := Services.RequireReady(store.ws, readOk);
      if why.Some? {
        return;
      }
      if !getOk {
        return Some(Team.Internal);
      }
      if id !in store.db.companies || store.db.companies[id].archived {
        return Some(Team.NotFound);
      }
      if store.db.companies[id].isOwner {
        return Some(Team.FailedPrecondition);
      }
      if !writeOk {
        return Some(Team.Internal);
      }
      store.db := AddCompany(store.db, id, store.db.companies[id].(archived := true));
      return None;
    }

    method RestoreCompany(id: CompanyId, readOk: bool, getOk: bool, writeOk: bool) returns (why: Option<Team.Refusal>)
      modifies store`db
      ensures (store.World_(), why) == Services.RestoreCompany(old(store.World_()), id, readOk, getOk, writeOk)
    {
      why := Services.RequireReady(store.ws, readOk);
      if why.Some? {
        return;
      }
      if !getOk {
        return Some(Team.Internal);
      }
      if id !in store.db.companies {
        return Some(Team.NotFound);
      }
      if store.db.companies[id].isOwner || !store.db.companies[id].archived {
        return Some(Team.FailedPrecondition);
      }
      if !writeOk {
        return Some(Team.Internal);
      }
      store.db := AddCompany(store.db, id, store.db.companies[id].(archived := false));
      return None;
    }

    method UpdateWorkspaceCompany(form: Services.CompanyForm, readOk: bool, ok: bool) returns (why: Option<Team.Refusal>)
      requires ValidSchema(store.db)
      modifies store`db
      ensures (store.World_(), why) == Services.UpdateMsp(old(store.World_()), form, readOk, ok)
    {
      why := Services.RequireReady(store.ws, readOk);
      if why.Some? {
        return;
      }
      if !form.named {
        return Some(Team.InvalidArgument);
      }
      if !ok {
        return Some(Team.Internal);
      }
      var m := store.GetWorkspaceCompany(true);
      if m.None? {
        return Some(Team.FailedPrecondition);
      }
      store.db := AddCompany(store.db, m.value, store.db.companies[m.value].(profile := form.profile));
      return None;
    }
  }
}
