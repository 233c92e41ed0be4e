/** The shared state: the four database tables, the ZITADEL directory, and the
    history that the conservation laws refer to.  Every SQL statement the model
    uses is a function here; a statement either takes effect as a whole or, when
    it fails, has no effect at all. */
module Schema {

  datatype Option<+T> = None | Some(value: T)

  // ZITADEL identifiers are strings, because scopes are built from them;
  // row identifiers (UUIDs) are numbers.
  type OrgId = string
  type UserId = string
  type CompanyId = nat
  type ContactId = nat

  datatype Role = Admin | Technician
  datatype Status = Active | NotSignedInYet | Suspended
  datatype Grant = Grant(role: Role, status: Status)

  /** `email` is the case-folded address lower(email), the only form that the
      modelled statements compare. */
  datatype Contact = Contact(company: CompanyId, email: Option<string>, user: Option<UserId>, archived: bool)

  /** `isOwner` marks the MSP row; `profile` stands for the name and address columns. */
  datatype Company = Company(org: OrgId, isOwner: bool, archived: bool,
                             accountOwner: Option<ContactId>, profile: string)

  datatype Tables = Tables(companies: map<CompanyId, Company>,
                           contacts: map<ContactId, Contact>,
                           grants: map<ContactId, Grant>)

  datatype InstallState = NotInitialized | Provisioning | Ready | Failed
  datatype InstallError = InstallError(step: string, cleanupFailed: bool)

  /** The singleton `workspace` row. */
  datatype Workspace = Workspace(state: InstallState, error: Option<InstallError>,
                                 orgId: Option<OrgId>, projectId: Option<string>,
                                 spaAppId: Option<string>, spaClientId: Option<string>,
                                 issuer: Option<string>, managementUrl: Option<string>,
                                 audience: Option<string>)

  /** What is live in ZITADEL, and every id it ever handed out. */
  datatype Directory = Directory(orgs: set<OrgId>, users: map<UserId, OrgId>,
                                 everOrgs: set<OrgId>, everUsers: set<UserId>)

  /** History variables; no modelled code reads them. */
  datatype Ledger = Ledger(
    invitedUsers: set<UserId>,            // minted by AddHumanUser
    removeUserCalls: multiset<UserId>,    // RemoveUser attempts
    failedUserRemovals: set<UserId>,      // RemoveUser attempts that failed
    failedOrgRemovals: set<OrgId>,        // RemoveOrg attempts that failed
    failedInserts: set<OrgId>,            // orgs whose companies row was never inserted
    abandoned: set<OrgId>,                // orgs a dying process left unaccounted for
    failedMarks: nat,                     // MarkWorkspaceFailed statements that failed
    deaths: nat)                          // processes that died before their Run had ended

  datatype World = World(ws: Workspace, db: Tables, idp: Directory, log: Ledger)

  /** How one statement or remote call turned out, with the values it returned. */
  datatype Choice = Choice(ok: bool, org: OrgId, user: UserId, text: string, text2: string, id: nat)

  // ---------------------------------------------------------------- queries

  predicate IsMsp(db: Tables, id: CompanyId) {
    id in db.companies && db.companies[id].isOwner
  }

  ghost predicate HasMsp(db: Tables) {
    exists id :: IsMsp(db, id)
  }

  /** GetWorkspaceCompany. */
  ghost function MspId(db: Tables): (m: Option<CompanyId>)
    ensures m.Some? ==> IsMsp(db, m.value)
    ensures m.None? <==> !HasMsp(db)
  {
    if HasMsp(db) then var id :| IsMsp(db, id); Some(id) else None
  }

  /** companies_zitadel_org_id_unique objects. */
  predicate OrgTaken(db: Tables, org: OrgId) {
    exists id :: id in db.companies && db.companies[id].org == org
  }

  predicate ActiveContact(db: Tables, c: ContactId) {
    c in db.contacts && !db.contacts[c].archived
  }

  predicate HoldsUser(db: Tables, c: ContactId, u: UserId) {
    c in db.contacts && db.contacts[c].user == Some(u)
  }

  ghost predicate UserTaken(db: Tables, u: UserId) {
    exists c :: HoldsUser(db, c, u)
  }

  /** The contact half of ResolveTeamCallerByZitadelUserID. */
  ghost function ContactOf(db: Tables, u: UserId): (r: Option<ContactId>)
    ensures r.Some? ==> HoldsUser(db, r.value, u)
    ensures r.None? <==> !UserTaken(db, u)
  {
    if UserTaken(db, u) then var c :| HoldsUser(db, c, u); Some(c) else None
  }

  predicate HoldsEmail(db: Tables, c: ContactId, company: CompanyId, email: string) {
    ActiveContact(db, c) && db.contacts[c].company == company && db.contacts[c].email == Some(email)
  }

  /** ContactExistsByCompanyEmail. */
  ghost predicate EmailTaken(db: Tables, company: CompanyId, email: string) {
    exists c :: HoldsEmail(db, c, company, email)
  }

  function ActiveAdmins(grants: map<ContactId, Grant>): set<ContactId> {
    set c | c in grants && grants[c] == Grant(Admin, Active)
  }

  function CountActiveAdmins(grants: map<ContactId, Grant>): nat {
    |ActiveAdmins(grants)|
  }

  // ------------------------------------------------- statements that write

  /** INSERT INTO contacts succeeds: the company exists and neither the email
      index nor the identity index objects. */
  ghost predicate ContactFits(db: Tables, c: Contact) {
    && c.company in db.companies
    && (c.email.Some? && !c.archived ==> !EmailTaken(db, c.company, c.email.value))
    && (c.user.Some? ==> !UserTaken(db, c.user.value))
  }

  function AddContact(db: Tables, id: ContactId, c: Contact): Tables {
    db.(contacts := db.contacts[id := c])
  }

  function AddGrant(db: Tables, c: ContactId, g: Grant): Tables {
    db.(grants := db.grants[c := g])
  }

  function AddCompany(db: Tables, id: CompanyId, co: Company): Tables {
    db.(companies := db.companies[id := co])
  }

  /** UPDATE workspace_grants SET role ... WHERE contact_id = c */
  function SetRole(db: Tables, c: ContactId, r: Role): Tables {
    if c in db.grants then AddGrant(db, c, db.grants[c].(role := r)) else db
  }

  function SetStatus(db: Tables, c: ContactId, s: Status): Tables {
    if c in db.grants then AddGrant(db, c, db.grants[c].(status := s)) else db
  }

  /** ActivatePendingGrant: only a pending grant changes. */
  function ActivatePending(db: Tables, c: ContactId): Tables {
    if c in db.grants && db.grants[c].status == NotSignedInYet
    then SetStatus(db, c, Active) else db
  }

  /** ArchiveContact (the statement). */
  function ArchiveContactRow(db: Tables, c: ContactId): Tables {
    if ActiveContact(db, c) then AddContact(db, c, db.contacts[c].(archived := true)) else db
  }

  /** RemoveOrg: ZITADEL deletes the organisation with everything inside it. */
  function DropOrg(d: Directory, o: OrgId): Directory {
    d.(orgs := d.orgs - {o}, users := map u | u in d.users && d.users[u] != o :: d.users[u])
  }

  function AddOrg(d: Directory, o: OrgId): Directory {
    d.(orgs := d.orgs + {o}, everOrgs := d.everOrgs + {o})
  }

  function AddUser(d: Directory, u: UserId, o: OrgId): Directory {
    d.(users := d.users[u := o], everUsers := d.everUsers + {u})
  }

  function DropUser(d: Directory, u: UserId): Directory {
    d.(users := map v | v in d.users && v != u :: d.users[v])
  }

  // ------------------------------------------------- what the schema keeps

  /** The foreign keys and unique indexes of migrations 00002 to 00006. */
  ghost predicate ValidSchema(db: Tables) {
    && (forall a, b :: IsMsp(db, a) && IsMsp(db, b) ==> a == b)
    && (forall a, b :: a in db.companies && b in db.companies && db.companies[a].org == db.companies[b].org ==> a == b)
    && (forall c :: c in db.contacts ==> db.contacts[c].company in db.companies)
    && (forall c :: c in db.grants ==> c in db.contacts)
    && (forall a, b, u :: HoldsUser(db, a, u) && HoldsUser(db, b, u) ==> a == b)
    && (forall a, b, co, e :: HoldsEmail(db, a, co, e) && HoldsEmail(db, b, co, e) ==> a == b)
  }

  /** The identities that contacts hold were all handed out by ZITADEL. */
  ghost predicate KnownUsers(db: Tables, d: Directory) {
    && (forall u :: u in d.users ==> u in d.everUsers)
    && (forall c, u :: HoldsUser(db, c, u) ==> u in d.everUsers)
  }

  lemma ContactOfIsUnique(db: Tables, c: ContactId, u: UserId)
    requires ValidSchema(db) && HoldsUser(db, c, u)
    ensures ContactOf(db, u) == Some(c)
  {
  }

  lemma AddContactKeepsSchema(db: Tables, id: ContactId, c: Contact)
    requires ValidSchema(db) && id !in db.contacts && ContactFits(db, c)
    ensures ValidSchema(AddContact(db, id, c))
  {
    var db' := AddContact(db, id, c);
    forall a, u | HoldsUser(db', a, u) ensures a == id || HoldsUser(db, a, u) {}
    forall a, co, e | HoldsEmail(db', a, co, e) ensures a == id || HoldsEmail(db, a, co, e) {}
    assert forall a :: IsMsp(db', a) ==> IsMsp(db, a);
  }

  /** A change of grants alone, on contacts that exist, keeps the schema. */
  lemma GrantsKeepSchema(db: Tables, grants: map<ContactId, Grant>)
    requires ValidSchema(db)
    requires forall c :: c in grants ==> c in db.contacts
    ensures ValidSchema(db.(grants := grants))
  {
    var db' := db.(grants := grants);
    assert forall a, u :: HoldsUser(db', a, u) ==> HoldsUser(db, a, u);
    assert forall a, co, e :: HoldsEmail(db', a, co, e) ==> HoldsEmail(db, a, co, e);
    assert forall a :: IsMsp(db', a) ==> IsMsp(db, a);
  }

  lemma ArchiveKeepsSchema(db: Tables, c: ContactId)
    requires ValidSchema(db)
    ensures ValidSchema(ArchiveContactRow(db, c))
  {
    var db' := ArchiveContactRow(db, c);
    assert forall a, u :: HoldsUser(db', a, u) ==> HoldsUser(db, a, u);
    assert forall a, co, e :: HoldsEmail(db', a, co, e) ==> HoldsEmail(db, a, co, e);
    assert forall a :: IsMsp(db', a) ==> IsMsp(db, a);
  }
}
