/** What a sequence of handler calls leaves in a field: the value of the last call that
    set it, of whatever kind the calls in between were. */
module Edits {
  import opened Schema
  import opened Lifecycle
  import opened Accounts
  import Authz
  import Lifetime
  import Services
  import Team

  /** The world after the calls, one at a time. */
  ghost function After(w: World, calls: seq<Call>): World {
    if calls == [] then w else Handled(After(w, calls[..|calls| - 1]), calls[|calls| - 1])
  }

  ghost predicate AllFresh(w: World, calls: seq<Call>) {
    calls != [] ==>
      AllFresh(w, calls[..|calls| - 1]) && FreshCall(After(w, calls[..|calls| - 1]), calls[|calls| - 1])
  }

  /** The world that the call with index i meets. */
  ghost function Before(w: World, calls: seq<Call>, i: nat): World
    requires i < |calls|
  {
    After(w, calls[..i])
  }

  // ------------------------------------------------------------- fields

  /** A field of one row: of a customer, of the MSP row, of a contact or of a member. */
  datatype Field =
    | CustomerForm(id: CompanyId)
    | CustomerMark(id: CompanyId)
    | MspProfile(id: CompanyId)
    | ContactEmail(contact: ContactId)
    | ContactMark(contact: ContactId)
    | MemberRole(contact: ContactId)
    | MemberStatus(contact: ContactId)

  datatype Value =
    | Form(profile: string, accountOwner: Option<ContactId>)
    | Mark(archived: bool)
    | Email(email: Option<string>)
    | RoleIs(role: Role)
    | StatusIs(status: Status)

  predicate Present(w: World, f: Field) {
    match f
    case CustomerForm(id) => id in w.db.companies && !w.db.companies[id].isOwner
    case CustomerMark(id) => id in w.db.companies && !w.db.companies[id].isOwner
    case MspProfile(id) => IsMsp(w.db, id)
    case ContactEmail(c) => c in w.db.contacts
    case ContactMark(c) => c in w.db.contacts
    case MemberRole(c) => c in w.db.grants && c in w.db.contacts
    case MemberStatus(c) => c in w.db.grants && c in w.db.contacts
  }

  function ValueOf(w: World, f: Field): Value
    requires Present(w, f)
  {
    match f
    case CustomerForm(id) => Form(w.db.companies[id].profile, w.db.companies[id].accountOwner)
    case CustomerMark(id) => Mark(w.db.companies[id].archived)
    case MspProfile(id) => Form(w.db.companies[id].profile, w.db.companies[id].accountOwner)
    case ContactEmail(c) => Email(w.db.contacts[c].email)
    case ContactMark(c) => Mark(w.db.contacts[c].archived)
    case MemberRole(c) => RoleIs(w.db.grants[c].role)
    case MemberStatus(c) => StatusIs(w.db.grants[c].status)
  }

  predicate ActiveCustomer(w: World, id: CompanyId) {
    w.ws.state == Ready && id in w.db.companies && !w.db.companies[id].isOwner && !w.db.companies[id].archived
  }

  predicate ArchivedCustomer(w: World, id: CompanyId) {
    w.ws.state == Ready && id in w.db.companies && !w.db.companies[id].isOwner && w.db.companies[id].archived
  }

  /** The guarded handler ends with its write. */
  predicate Writes(w: World, call: Call, c: ContactId) {
    call.GuardedCall? && call.member == c && Team.RunGuard(w.db, call.op, c, Team.Loading, call.guardFaults).1.Done?
  }

  /** The first request of a member: guarded, resolved, and its write succeeds. */
  predicate FirstVisit(w: World, call: Call, c: ContactId) {
    && call.SignIn? && call.resolveOk && call.activateOk && call.request.user.Some?
    && Authz.IsConnectProcedure(call.request.path) && call.request.path !in call.rules.isPublic
    && c in w.db.contacts && w.db.contacts[c].user == call.request.user
    && c in w.db.grants && w.db.grants[c].status == NotSignedInYet
  }

  /** The call sets the field, nothing standing against it. */
  ghost predicate Sets(w: World, call: Call, f: Field) {
    match f
    case CustomerForm(id) =>
      && call.UpdateCompany? && call.updated == id && call.readyOk && call.ok && call.form.named && ActiveCustomer(w, id)
      && (call.form.accountOwner.Some? ==> call.form.accountOwner.value in w.db.contacts)
    case CustomerMark(id) =>
      || (call.ArchiveCompany? && call.archived == id && call.readyOk && call.getOk && call.writeOk && ActiveCustomer(w, id))
      || (call.RestoreCompany? && call.restored == id && call.readyOk && call.getOk && call.writeOk && ArchivedCustomer(w, id))
    case MspProfile(_) => call.UpdateWorkspaceCompany? && call.readyOk && call.ok && call.form.named && w.ws.state == Ready
    case ContactEmail(c) =>
      && call.UpdateContact? && call.contact == c && call.ok && c in w.db.contacts && !w.db.contacts[c].archived
      && !Services.AddressInUse(w.db, w.db.contacts[c].company, call.newEmail, Some(c))
    case ContactMark(c) => call.ArchiveContact? && call.target == c && call.hasGrantOk && call.archiveOk && c !in w.db.grants
    case MemberRole(c) => Writes(w, call, c) && call.op.ChangeRole?
    case MemberStatus(c) => (Writes(w, call, c) && !call.op.ChangeRole?) || FirstVisit(w, call, c)
  }

  /** What a call makes of the value of a field that it sets. */
  function SetBy(call: Call, v: Value): Value {
    match call
    case UpdateCompany(_, form, _, _, _) => Form(form.profile, form.accountOwner)
    case ArchiveCompany(_, _, _, _) => Mark(true)
    case RestoreCompany(_, _, _, _) => Mark(false)
    case UpdateWorkspaceCompany(form, _, _) => if v.Form? then v.(profile := form.profile) else v
    case UpdateContact(_, email, _) => Email(email)
    case ArchiveContact(_, _, _) => Mark(true)
    case GuardedCall(op, _, _) =>
      (match op
       case ChangeRole(r) => RoleIs(r)
       case Suspend => StatusIs(Suspended)
       case Reactivate => StatusIs(Active))
    case SignIn(_, _, _, _) => StatusIs(Active)
    case _ => v
  }

  // ----------------------------------------------------------- one call

  /** A call leaves every field there, set by it or as it was. */
  ghost predicate SetOrKept(w: World, call: Call, f: Field)
    requires Present(w, f)
  {
    && Present(Handled(w, call), f)
    && ValueOf(Handled(w, call), f) == if Sets(w, call, f) then SetBy(call, ValueOf(w, f)) else ValueOf(w, f)
  }

  predicate EditsCustomer(call: Call, id: CompanyId) {
    || (call.UpdateCompany? && call.updated == id) || (call.ArchiveCompany? && call.archived == id)
    || (call.RestoreCompany? && call.restored == id)
  }

  lemma OtherCallsSpareCustomer(w: World, call: Call, id: CompanyId)
    requires Base(w) && FreshCall(w, call) && id in w.db.companies && !w.db.companies[id].isOwner && !EditsCustomer(call, id)
    ensures id in Handled(w, call).db.companies && Handled(w, call).db.companies[id] == w.db.companies[id]
  {
    if Lifetime.EditsCompany(call) {
      Lifetime.CompanyEditsStayLocal(w, call);
    } else if !call.CreateCompany? {
      Lifetime.OtherCallsSpareCompanies(w, call);
    }
  }

  lemma UpdateAfterCall(w: World, call: Call, f: Field)
    requires call.UpdateCompany? && (f.CustomerForm? || f.CustomerMark?) && call.updated == f.id && Present(w, f)
    ensures SetOrKept(w, call, f)
  {
    Services.UpdateCompanyMeaning(w, call.updated, call.form, call.readyOk, call.ok, call.explainOk);
  }

  lemma MarkAfterCall(w: World, call: Call, f: Field)
    requires (f.CustomerForm? || f.CustomerMark?) && Present(w, f)
    requires (call.ArchiveCompany? && call.archived == f.id) || (call.RestoreCompany? && call.restored == f.id)
    ensures SetOrKept(w, call, f)
  {
    Services.MarkCompanyMeaning(w, f.id, call.readyOk, call.getOk, call.writeOk);
  }

  lemma CustomerAfterCall(w: World, call: Call, f: Field)
    requires Base(w) && FreshCall(w, call) && (f.CustomerForm? || f.CustomerMark?) && Present(w, f)
    ensures SetOrKept(w, call, f)
  {
    if !EditsCustomer(call, f.id) {
      OtherCallsSpareCustomer(w, call, f.id);
    } else if call.UpdateCompany? {
      UpdateAfterCall(w, call, f);
    } else {
      MarkAfterCall(w, call, f);
    }
  }

  lemma MspAfterCall(w: World, call: Call, f: Field)
    requires Base(w) && FreshCall(w, call) && f.MspProfile? && Present(w, f)
    ensures SetOrKept(w, call, f)
  {
    Lifetime.MspRowIsProtected(w, call, f.id);
    if call.UpdateWorkspaceCompany? {
      Services.UpdateMspMeaning(w, call.form, call.readyOk, call.ok, f.id);
    }
  }

  lemma CompanyCallsSpareContacts(w: World, call: Call)
    requires call.CreateCompany? || Lifetime.EditsCompany(call)
    ensures Handled(w, call).db.contacts == w.db.contacts && Handled(w, call).db.grants == w.db.grants
  {
  }

  lemma InviteSparesRows(w: World, call: Call, c: ContactId)
    requires ValidSchema(w.db) && FreshCall(w, call) && call.InviteMember? && c in w.db.contacts
    ensures var db' := Handled(w, call).db;
            && c in db'.contacts && db'.contacts[c] == w.db.contacts[c]
            && (c in w.db.grants ==> c in db'.grants && db'.grants[c] == w.db.grants[c])
  {
    Team.RunInviteMeaning(w, call.invite, call.inviteFaults);
  }

  /** A request changes nothing but the status of the grant it activates. */
  lemma SignInFrame(w: World, call: Call)
    requires call.SignIn?
    ensures var db' := Handled(w, call).db;
            && db'.contacts == w.db.contacts && db'.grants.Keys == w.db.grants.Keys
            && forall c :: c in w.db.grants && db'.grants[c] != w.db.grants[c] ==>
                 && call.resolveOk && call.activateOk && call.request.user.Some? && !Authz.Exempt(call.rules, call.request.path)
                 && ContactOf(w.db, call.request.user.value) == Some(c)
                 && w.db.grants[c].status == NotSignedInYet
  {
  }

  lemma SignInWrites(w: World, call: Call, c: ContactId)
    requires ValidSchema(w.db) && call.SignIn? && c in w.db.contacts
    ensures var db' := Handled(w, call).db;
            && db'.contacts == w.db.contacts
            && (c in w.db.grants ==>
                  c in db'.grants
                  && db'.grants[c] == if FirstVisit(w, call, c) then Grant(w.db.grants[c].role, Active) else w.db.grants[c])
  {
    SignInFrame(w, call);
    if FirstVisit(w, call, c) {
      ContactOfIsUnique(w.db, c, call.request.user.value);
      Authz.HolderIsAnswered(call.rules, w.db, call.request, true, c);
    }
  }

  lemma InviteAndSignInSpareContact(w: World, call: Call, c: ContactId)
    requires ValidSchema(w.db) && FreshCall(w, call) && c in w.db.contacts
    requires call.InviteMember? || call.GuardedCall? || call.SignIn?
    ensures c in Handled(w, call).db.contacts && Handled(w, call).db.contacts[c] == w.db.contacts[c]
  {
    match call
    case InviteMember(_, _) => InviteSparesRows(w, call, c);
    case GuardedCall(op, member, faults) => Team.RunGuardMeaning(w.db, op, member, faults);
    case SignIn(_, _, _, _) => SignInFrame(w, call);
  }

  lemma NewContactAfterCall(w: World, call: Call, f: Field)
    requires FreshCall(w, call) && call.CreateContact? && (f.ContactEmail? || f.ContactMark?) && Present(w, f)
    ensures SetOrKept(w, call, f)
  {
    Services.CreateContactMeaning(w.db, call.company, call.email, call.contactId, call.checkOk, call.insertOk);
  }

  lemma EditedContactAfterCall(w: World, call: Call, f: Field)
    requires call.UpdateContact? && (f.ContactEmail? || f.ContactMark?) && Present(w, f)
    ensures SetOrKept(w, call, f)
  {
    Services.UpdateContactMeaning(w.db, call.contact, call.newEmail, call.ok);
  }

  lemma ArchivedContactAfterCall(w: World, call: Call, f: Field)
    requires call.ArchiveContact? && (f.ContactEmail? || f.ContactMark?) && Present(w, f)
    ensures SetOrKept(w, call, f)
  {
    Services.ArchiveContactMeaning(w.db, call.target, call.hasGrantOk, call.archiveOk);
  }

  lemma ContactAfterCall(w: World, call: Call, f: Field)
    requires Base(w) && FreshCall(w, call) && (f.ContactEmail? || f.ContactMark?) && Present(w, f)
    ensures SetOrKept(w, call, f)
  {
    if call.CreateContact? {
      NewContactAfterCall(w, call, f);
    } else if call.UpdateContact? {
      EditedContactAfterCall(w, call, f);
    } else if call.ArchiveContact? {
      ArchivedContactAfterCall(w, call, f);
    } else if call.CreateCompany? || Lifetime.EditsCompany(call) {
      CompanyCallsSpareContacts(w, call);
    } else {
      InviteAndSignInSpareContact(w, call, f.contact);
    }
  }

  lemma GuardedWrites(w: World, call: Call, c: ContactId)
    requires call.GuardedCall? && c in w.db.grants
    ensures var db' := Handled(w, call).db;
            && db'.contacts == w.db.contacts && c in db'.grants
            && db'.grants[c] == if Writes(w, call, c) then Team.Regranted(call.op, w.db.grants[c]) else w.db.grants[c]
  {
    Team.RunGuardMeaning(w.db, call.op, call.member, call.guardFaults);
  }

  lemma ContactCallsSpareGrants(w: World, call: Call)
    requires call.CreateContact? || call.UpdateContact? || call.ArchiveContact?
    ensures Handled(w, call).db.grants == w.db.grants
    ensures FreshCall(w, call) ==> w.db.contacts.Keys <= Handled(w, call).db.contacts.Keys
  {
  }

  lemma GrantAfterCall(w: World, call: Call, c: ContactId)
    requires ValidSchema(w.db) && FreshCall(w, call) && c in w.db.contacts && c in w.db.grants
    ensures c in Handled(w, call).db.contacts && c in Handled(w, call).db.grants
    ensures var g := w.db.grants[c];
            Handled(w, call).db.grants[c] == if Writes(w, call, c) then Team.Regranted(call.op, g)
                                             else if FirstVisit(w, call, c) then Grant(g.role, Active) else g
  {
    match call
    case InviteMember(_, _) => InviteSparesRows(w, call, c);
    case GuardedCall(_, _, _) => GuardedWrites(w, call, c);
    case SignIn(_, _, _, _) => SignInWrites(w, call, c);
    case CreateContact(_, _, _, _, _) => ContactCallsSpareGrants(w, call);
    case UpdateContact(_, _, _) => ContactCallsSpareGrants(w, call);
    case ArchiveContact(_, _, _) => ContactCallsSpareGrants(w, call);
    case _ => CompanyCallsSpareContacts(w, call);
  }

  lemma MemberAfterCall(w: World, call: Call, f: Field)
    requires Base(w) && FreshCall(w, call) && (f.MemberRole? || f.MemberStatus?) && Present(w, f)
    ensures SetOrKept(w, call, f)
  {
    GrantAfterCall(w, call, f.contact);
  }

  lemma FieldAfterCall(w: World, call: Call, f: Field)
    requires Base(w) && FreshCall(w, call) && Present(w, f)
    ensures SetOrKept(w, call, f)
  {
    if f.CustomerForm? || f.CustomerMark? {
      CustomerAfterCall(w, call, f);
    } else if f.MspProfile? {
      MspAfterCall(w, call, f);
    } else if f.ContactEmail? || f.ContactMark? {
      ContactAfterCall(w, call, f);
    } else {
      MemberAfterCall(w, call, f);
    }
  }

  /** A creation that nothing stands against puts its row there, and an invite a member. */
  lemma CreationsAppear(w: World, call: Call)
    requires ValidSchema(w.db) && FreshCall(w, call)
    ensures call.CreateContact? && call.checkOk && call.insertOk && call.company in w.db.companies
            && !Services.AddressInUse(w.db, call.company, call.email, None) ==>
              call.contactId in Handled(w, call).db.contacts
              && Handled(w, call).db.contacts[call.contactId] == Contact(call.company, call.email, None, false)
    ensures call.CreateCompany? && call.readyOk && w.ws.state == Ready && call.form.named && call.orgOk && call.rowOk
            && call.form.accountOwner.None? && (forall a :: a in w.db.companies ==> w.db.companies[a].org != call.org) ==>
              call.companyId in Handled(w, call).db.companies && call.org in Handled(w, call).idp.orgs
              && Handled(w, call).db.companies[call.companyId] == Company(call.org, false, false, None, call.form.profile)
    ensures call.InviteMember? && Team.RunInvite(w, call.invite, Team.Validating, call.inviteFaults).1.Committed? ==>
              call.inviteFaults.contact.id in Handled(w, call).db.grants
              && Handled(w, call).db.grants[call.inviteFaults.contact.id].status == NotSignedInYet
              && Some(Handled(w, call).db.grants[call.inviteFaults.contact.id].role) == call.invite.role
  {
    match call
    case CreateContact(co, email, id, checkOk, insertOk) => Services.CreateContactMeaning(w.db, co, email, id, checkOk, insertOk);
    case CreateCompany(form, readOk, orgOk, rowOk, org, id) => Services.CreateCompanyMeaning(w, form, readOk, orgOk, rowOk, org, id);
    case InviteMember(req, faults) => Team.RunInviteMeaning(w, req, faults);
    case _ =>
  }

  // ---------------------------------------------------------- any calls

  /** The value of the field according to the calls that set it, in order. */
  ghost function Replayed(w: World, calls: seq<Call>, f: Field): Value
    requires Present(w, f)
  {
    if calls == [] then ValueOf(w, f)
    else
      var before, call := calls[..|calls| - 1], calls[|calls| - 1];
      var v := Replayed(w, before, f);
      if Sets(After(w, before), call, f) then SetBy(call, v) else v
  }

  /** Whatever the calls, the field has the value that replaying its setters gives. */
  lemma {:induction false} FieldIsReplayed(w: World, calls: seq<Call>, f: Field)
    requires Base(w) && Installed(w) && AllFresh(w, calls) && Present(w, f)
    ensures Base(After(w, calls)) && Installed(After(w, calls)) && Present(After(w, calls), f)
    ensures ValueOf(After(w, calls), f) == Replayed(w, calls, f)
  {
    if calls != [] {
      var w1, call := After(w, calls[..|calls| - 1]), calls[|calls| - 1];
      FieldIsReplayed(w, calls[..|calls| - 1], f);
      HandledKeepsInstalled(w1, call);
      FieldAfterCall(w1, call, f);
    }
  }

  /** And that is what the last setter made of it: `i` is the index of a call that sets the
      field, and none after it does. */
  lemma {:induction false} LastSetterStands(w: World, calls: seq<Call>, f: Field, i: nat)
    requires Present(w, f) && i < |calls| && Sets(Before(w, calls, i), calls[i], f)
    requires forall j :: i < j < |calls| ==> !Sets(Before(w, calls, j), calls[j], f)
    ensures Replayed(w, calls, f) == SetBy(calls[i], Replayed(w, calls[..i], f))
  {
    var before := calls[..|calls| - 1];
    assert before[..i] == calls[..i];
    if i < |before| {
      assert !Sets(Before(w, calls, |before|), calls[|before|], f);
      forall j | i < j < |before| ensures !Sets(Before(w, before, j), before[j], f) {
        assert before[..j] == calls[..j];
        assert !Sets(Before(w, calls, j), calls[j], f);
      }
      LastSetterStands(w, before, f, i);
    }
  }
}
