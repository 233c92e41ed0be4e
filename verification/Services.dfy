/** The contact and company handlers (internal/contacts, internal/companies) as
    functions on the shared state, each handler one step. */
module Services {
  import opened Schema
  import opened Team

  // ---------------------------------------------------------- contacts

  /** Another active contact of the same company has this email. */
  ghost predicate EmailTakenByAnother(db: Tables, c: ContactId, email: string)
    requires c in db.contacts
  {
    exists d :: d != c && HoldsEmail(db, d, db.contacts[c].company, email)
  }

  /** ContactsService.CreateContact after validation; `email` is None when blank. */
  ghost function CreateContact(db: Tables, company: CompanyId, email: Option<string>, id: ContactId,
                               checkOk: bool, insertOk: bool): (Tables, Option<Refusal>)
  {
    var row := Contact(company, email, None, false);
    if email.Some? && !checkOk then (db, Some(Internal))
    else if email.Some? && EmailTaken(db, company, email.value) then (db, Some(AlreadyExists))
    else if !insertOk || !ContactFits(db, row) then (db, Some(Internal))
    else (AddContact(db, id, row), None)
  }

  ghost function UpdateContact(db: Tables, c: ContactId, email: Option<string>, ok: bool): (Tables, Option<Refusal>) {
    if !ok then (db, Some(Internal))
    else if !ActiveContact(db, c) then (db, Some(NotFound))
    else if email.Some? && EmailTakenByAnother(db, c, email.value) then (db, Some(Internal))
    else (AddContact(db, c, db.contacts[c].(email := email)), None)
  }

  // --------------------------------------------------------- companies

  datatype CompanyForm = CompanyForm(named: bool, accountOwner: Option<ContactId>, profile: string)

  /** requireReady. */
  function RequireReady(ws: Workspace, readOk: bool): Option<Refusal> {
    if !readOk then Some(Internal) else if ws.state != Ready then Some(FailedPrecondition) else None
  }

  predicate OwnerExists(db: Tables, form: CompanyForm) {
    form.accountOwner.Some? ==> form.accountOwner.value in db.contacts
  }

  /** CreateCompany: the ZITADEL organisation first, then the row; a row that cannot
      be inserted leaves the organisation behind. */
  function CreateCompany(w: World, form: CompanyForm, readOk: bool, orgOk: bool, insertOk: bool,
                         org: OrgId, id: CompanyId): (World, Option<Refusal>)
  {
    if RequireReady(w.ws, readOk).Some? then (w, RequireReady(w.ws, readOk))
    else if !form.named then (w, Some(InvalidArgument))
    else if !orgOk then (w, Some(Internal))
    else
      var w1 := w.(idp := AddOrg(w.idp, org));
      if !insertOk || !OwnerExists(w.db, form) || OrgTaken(w.db, org)
      then (w1.(log := w1.log.(failedInserts := w1.log.failedInserts + {org})), Some(Internal))
      else (w1.(db := AddCompany(w.db, id, Company(org, false, false, form.accountOwner, form.profile))), None)
  }

  /** The WHERE guard of UpdateCompany and ArchiveCompany. */
  predicate ActiveCustomer(db: Tables, id: CompanyId) {
    id in db.companies && !db.companies[id].archived && !db.companies[id].isOwner
  }

  function UpdateCompany(w: World, id: CompanyId, form: CompanyForm, readOk: bool, ok: bool, explainOk: bool)
    : (World, Option<Refusal>)
  {
    if RequireReady(w.ws, readOk).Some? then (w, RequireReady(w.ws, readOk))
    else if !form.named then (w, Some(InvalidArgument))
    else if !ok then (w, Some(Internal))
    else if !ActiveCustomer(w.db, id)
    then (w, Some(if explainOk && IsMsp(w.db, id) then FailedPrecondition else NotFound))
    else if !OwnerExists(w.db, form) then (w, Some(Internal))
    else
      var row := w.db.companies[id].(accountOwner := form.accountOwner, profile := form.profile);
      (w.(db := AddCompany(w.db, id, row)), None)
  }

  function ArchiveCompany(w: World, id: CompanyId, readOk: bool, getOk: bool, writeOk: bool): (World, Option<Refusal>) {
    if RequireReady(w.ws, readOk).Some? then (w, RequireReady(w.ws, readOk))
    else if !getOk then (w, Some(Internal))
    else if id !in w.db.companies || w.db.companies[id].archived then (w, Some(NotFound))
    else if w.db.companies[id].isOwner then (w, Some(FailedPrecondition))
    else if !writeOk then (w, Some(Internal))
    else (w.(db := AddCompany(w.db, id, w.db.companies[id].(archived := true))), None)
  }

  function RestoreCompany(w: World, id: CompanyId, readOk: bool, getOk: bool, writeOk: bool): (World, Option<Refusal>) {
    if RequireReady(w.ws, readOk).Some? then (w, RequireReady(w.ws, readOk))
    else if !getOk then (w, Some(Internal))
    else if id !in w.db.companies then (w, Some(NotFound))
    else if w.db.companies[id].isOwner then (w, Some(FailedPrecondition))
    else if !w.db.companies[id].archived then (w, Some(FailedPrecondition))
    else if !writeOk then (w, Some(Internal))
    else (w.(db := AddCompany(w.db, id, w.db.companies[id].(archived := false))), None)
  }

  /** UpdateWorkspaceCompany: the MSP row and no other. */
  ghost function UpdateMsp(w: World, form: CompanyForm, readOk: bool, ok: bool): (World, Option<Refusal>) {
    if RequireReady(w.ws, readOk).Some? then (w, RequireReady(w.ws, readOk))
    else if !form.named then (w, Some(InvalidArgument))
    else if !ok then (w, Some(Internal))
    else
      match MspId(w.db)
      case None => (w, Some(FailedPrecondition))
      case Some(m) => (w.(db := AddCompany(w.db, m, w.db.companies[m].(profile := form.profile))), None)
  }

  // ------------------------------------------------ what they keep

  lemma UpdateContactKeepsSchema(db: Tables, c: ContactId, email: Option<string>, ok: bool)
    requires ValidSchema(db)
    ensures ValidSchema(UpdateContact(db, c, email, ok).0)
  {
    var db' := UpdateContact(db, c, email, ok).0;
    forall d, u | HoldsUser(db', d, u) ensures HoldsUser(db, d, u) {}
    forall d, co, e | HoldsEmail(db', d, co, e) && d != c ensures HoldsEmail(db, d, co, e) {}
    assert forall a :: IsMsp(db', a) ==> IsMsp(db, a);
  }

  /** Replacing a company row by one with the same organisation and owner mark. */
  lemma EditedCompanyKeepsSchema(db: Tables, id: CompanyId, row: Company)
    requires ValidSchema(db) && id in db.companies
    requires row.org == db.companies[id].org && row.isOwner == db.companies[id].isOwner
    ensures ValidSchema(AddCompany(db, id, row))
  {
    var db' := AddCompany(db, id, row);
    assert forall d, u :: HoldsUser(db', d, u) ==> HoldsUser(db, d, u);
    assert forall d, co, e :: HoldsEmail(db', d, co, e) ==> HoldsEmail(db, d, co, e);
    assert forall a :: IsMsp(db', a) ==> IsMsp(db, a);
  }

  lemma NewCompanyKeepsSchema(db: Tables, id: CompanyId, row: Company)
    requires ValidSchema(db) && id !in db.companies && (row.isOwner ==> !HasMsp(db))
    requires forall a :: a in db.companies ==> db.companies[a].org != row.org
    ensures ValidSchema(AddCompany(db, id, row))
  {
    var db' := AddCompany(db, id, row);
    assert forall d, u :: HoldsUser(db', d, u) ==> HoldsUser(db, d, u);
    assert forall d, co, e :: HoldsEmail(db', d, co, e) ==> HoldsEmail(db, d, co, e);
    assert forall a :: IsMsp(db', a) ==> a == id || IsMsp(db, a);
  }

  // ------------------------------------- what one call does to another

  /** Restoring undoes archiving, and archiving undoes restoring. */
  lemma RestoreUndoesArchive(w: World, id: CompanyId)
    ensures var (w', why) := ArchiveCompany(w, id, true, true, true);
            why.None? ==> RestoreCompany(w', id, true, true, true) == (w, None)
    ensures var (w', why) := RestoreCompany(w, id, true, true, true);
            why.None? ==> ArchiveCompany(w', id, true, true, true) == (w, None)
  {
    if id in w.db.companies {
      var row := w.db.companies[id];
      assert w.db.companies[id := row] == w.db.companies;
      forall b: bool ensures w.db.companies[id := row.(archived := b)][id := row] == w.db.companies {}
    }
  }

  /** An email is reserved within its company from creation until archival. */
  lemma EmailReservedUntilArchived(db: Tables, company: CompanyId, email: string, id: ContactId, id': ContactId)
    requires ValidSchema(db) && company in db.companies && !EmailTaken(db, company, email)
    requires id !in db.contacts && id' !in db.contacts && id != id'
    ensures var (db1, why1) := CreateContact(db, company, Some(email), id, true, true);
            && why1.None?
            && CreateContact(db1, company, Some(email), id', true, true) == (db1, Some(AlreadyExists))
            && CreateContact(ArchiveContactRow(db1, id), company, Some(email), id', true, true).1.None?
  {
    var db1 := AddContact(db, id, Contact(company, Some(email), None, false));
    assert HoldsEmail(db1, id, company, email);
    var db2 := ArchiveContactRow(db1, id);
    forall c ensures !HoldsEmail(db2, c, company, email) {
      assert !HoldsEmail(db, c, company, email);
    }
  }
  // ------------------------------------- when a call succeeds, and how

  /** Another active contact of the company has the address. */
  ghost predicate AddressInUse(db: Tables, company: CompanyId, email: Option<string>, but: Option<ContactId>) {
    email.Some? && exists d :: d in db.contacts && Some(d) != but && !db.contacts[d].archived
                               && db.contacts[d].company == company && db.contacts[d].email == email
  }

  lemma AddressInUseMeaning(db: Tables, company: CompanyId, email: string, c: ContactId)
    ensures EmailTaken(db, company, email) <==> AddressInUse(db, company, Some(email), None)
    ensures c in db.contacts && db.contacts[c].company == company ==>
              (EmailTakenByAnother(db, c, email) <==> AddressInUse(db, company, Some(email), Some(c)))
  {
    assert forall d :: HoldsEmail(db, d, company, email) <==>
      d in db.contacts && !db.contacts[d].archived && db.contacts[d].company == company && db.contacts[d].email == Some(email);
  }

  /** CreateContact succeeds exactly when no statement fails, the company exists and the
      address is free in it, and then there is one more active contact, without an identity. */
  lemma CreateContactMeaning(db: Tables, company: CompanyId, email: Option<string>, id: ContactId, checkOk: bool, insertOk: bool)
    ensures var (db', why) := CreateContact(db, company, email, id, checkOk, insertOk);
            && (why.None? <==> (email.Some? ==> checkOk) && insertOk && company in db.companies && !AddressInUse(db, company, email, None))
            && (why == Some(AlreadyExists) <==> checkOk && AddressInUse(db, company, email, None))
            && (why.Some? ==> db' == db && (why == Some(AlreadyExists) || why == Some(Internal)))
            && (why.None? ==> db' == db.(contacts := db.contacts[id := Contact(company, email, None, false)]))
  {
    if email.Some? { AddressInUseMeaning(db, company, email.value, id); }
  }

  /** UpdateContact succeeds exactly on an active contact whose new address no other one of
      its company has, and then the contact has that address and is otherwise the same. */
  lemma UpdateContactMeaning(db: Tables, c: ContactId, email: Option<string>, ok: bool)
    ensures var (db', why) := UpdateContact(db, c, email, ok);
            var active := c in db.contacts && !db.contacts[c].archived;
            && (why.None? <==> ok && active && !AddressInUse(db, db.contacts[c].company, email, Some(c)))
            && (why == Some(NotFound) <==> ok && !active)
            && (why.Some? ==> db' == db && (why == Some(NotFound) || why == Some(Internal)))
            && (why.None? ==>
                  var row := db.contacts[c];
                  db' == db.(contacts := db.contacts[c := Contact(row.company, email, row.user, row.archived)]))
  {
    if email.Some? && c in db.contacts { AddressInUseMeaning(db, db.contacts[c].company, email.value, c); }
  }

  /** ArchiveContact succeeds exactly for a contact without a grant when no statement fails;
      the contact, if there is one, is then archived and otherwise the same. */
  lemma ArchiveContactMeaning(db: Tables, c: ContactId, checkOk: bool, writeOk: bool)
    ensures var (db', pc) := RunArchive(db, c, checkOk, writeOk);
            && (pc == Archived <==> checkOk && c !in db.grants && writeOk)
            && (pc == Kept(FailedPrecondition) <==> checkOk && c in db.grants)
            && (pc != Archived ==> db' == db && (pc == Kept(FailedPrecondition) || pc == Kept(Internal)))
            && (pc == Archived && c !in db.contacts ==> db' == db)
            && (pc == Archived && c in db.contacts ==>
                  var row := db.contacts[c];
                  db' == db.(contacts := db.contacts[c := Contact(row.company, row.email, row.user, true)]))
  {
    if c in db.contacts && db.contacts[c].archived {
      assert db.contacts[c := db.contacts[c]] == db.contacts;
    }
  }

  /** How the readiness check and the form refuse a company call, and that a refused one
      changes nothing. */
  predicate RefusedAlike(w: World, readOk: bool, named: bool, w': World, why: Option<Refusal>) {
    && (!readOk ==> why == Some(Internal))
    && (readOk && w.ws.state != Ready ==> why == Some(FailedPrecondition))
    && (readOk && w.ws.state == Ready && !named ==> why == Some(InvalidArgument))
    && (why.Some? ==> w'.db == w.db && w'.ws == w.ws)
  }

  /** UpdateCompany succeeds exactly on an active customer row of a ready workspace, with a
      name and an existing account owner or none, and then the row has the form's values. */
  lemma UpdateCompanyMeaning(w: World, id: CompanyId, form: CompanyForm, readOk: bool, ok: bool, explainOk: bool)
    ensures var (w', why) := UpdateCompany(w, id, form, readOk, ok, explainOk);
            var called := readOk && w.ws.state == Ready && form.named && ok;
            var customer := id in w.db.companies && !w.db.companies[id].archived && !w.db.companies[id].isOwner;
            var owned := form.accountOwner.Some? ==> form.accountOwner.value in w.db.contacts;
            && RefusedAlike(w, readOk, form.named, w', why)
            && (why.None? <==> called && customer && owned)
            && (called && !customer ==>
                  why == Some(if explainOk && id in w.db.companies && w.db.companies[id].isOwner then FailedPrecondition else NotFound))
            && (why.Some? ==> w' == w)
            && (why.None? ==>
                  var row := w.db.companies[id];
                  w' == w.(db := w.db.(companies :=
                    w.db.companies[id := Company(row.org, false, false, form.accountOwner, form.profile)])))
  {
  }

  /** UpdateWorkspaceCompany succeeds exactly when there is an MSP row in a ready workspace
      and a name, and then that row has the form's profile and keeps everything else. */
  lemma UpdateMspMeaning(w: World, form: CompanyForm, readOk: bool, ok: bool, m: CompanyId)
    requires ValidSchema(w.db) && m in w.db.companies && w.db.companies[m].isOwner
    ensures var (w', why) := UpdateMsp(w, form, readOk, ok);
            && RefusedAlike(w, readOk, form.named, w', why)
            && (why.None? <==> readOk && w.ws.state == Ready && form.named && ok)
            && (why.Some? ==> w' == w)
            && (why.None? ==>
                  var row := w.db.companies[m];
                  w' == w.(db := w.db.(companies :=
                    w.db.companies[m := Company(row.org, true, row.archived, row.accountOwner, form.profile)])))
  {
    assert IsMsp(w.db, m);
  }

  /** ArchiveCompany and RestoreCompany succeed exactly on a customer row of a ready
      workspace that is not so marked yet, tell the MSP row from a missing one, and set
      nothing but the mark. */
  lemma MarkCompanyMeaning(w: World, id: CompanyId, readOk: bool, getOk: bool, writeOk: bool)
    ensures var (w', why) := ArchiveCompany(w, id, readOk, getOk, writeOk);
            var called := readOk && w.ws.state == Ready && getOk;
            var active := id in w.db.companies && !w.db.companies[id].archived;
            && RefusedAlike(w, readOk, true, w', why) && (why.Some? ==> w' == w)
            && (called && !active ==> why == Some(NotFound))
            && (called && active && w.db.companies[id].isOwner ==> why == Some(FailedPrecondition))
            && (why.None? <==> called && active && !w.db.companies[id].isOwner && writeOk)
            && (why.None? ==>
                  var row := w.db.companies[id];
                  w' == w.(db := w.db.(companies := w.db.companies[id := Company(row.org, false, true, row.accountOwner, row.profile)])))
    ensures var (w', why) := RestoreCompany(w, id, readOk, getOk, writeOk);
            var called := readOk && w.ws.state == Ready && getOk;
            var archived := id in w.db.companies && w.db.companies[id].archived;
            && RefusedAlike(w, readOk, true, w', why) && (why.Some? ==> w' == w)
            && (called && id !in w.db.companies ==> why == Some(NotFound))
            && (called && id in w.db.companies && (w.db.companies[id].isOwner || !archived) ==> why == Some(FailedPrecondition))
            && (why.None? <==> called && archived && !w.db.companies[id].isOwner && writeOk)
            && (why.None? ==>
                  var row := w.db.companies[id];
                  w' == w.(db := w.db.(companies := w.db.companies[id := Company(row.org, false, false, row.accountOwner, row.profile)])))
  {
  }

  /** CreateCompany succeeds exactly in a ready workspace, with a name, an existing account
      owner or none, and an organisation that is nobody else's; and once the organisation
      is created it is there, recorded as a leak if the row could not be inserted. */
  lemma CreateCompanyMeaning(w: World, form: CompanyForm, readOk: bool, orgOk: bool, insertOk: bool, org: OrgId, id: CompanyId)
    ensures var (w', why) := CreateCompany(w, form, readOk, orgOk, insertOk, org, id);
            var made := readOk && w.ws.state == Ready && form.named && orgOk;
            var fits := insertOk && (form.accountOwner.Some? ==> form.accountOwner.value in w.db.contacts)
                        && forall a :: a in w.db.companies ==> w.db.companies[a].org != org;
            && RefusedAlike(w, readOk, form.named, w', why)
            && (why.None? <==> made && fits)
            && w'.db == (if made && fits
                         then w.db.(companies := w.db.companies[id := Company(org, false, false, form.accountOwner, form.profile)])
                         else w.db)
            && w'.idp.orgs == (if made then w.idp.orgs + {org} else w.idp.orgs) && w'.idp.users == w.idp.users
            && w'.log.failedInserts == if made && !fits then w.log.failedInserts + {org} else w.log.failedInserts
  {
  }
}
