/** Whether somebody can always administer the workspace when statements interleave:
    an active contact of the MSP with a live identity, whom Wrap lets through. */
module AdminSafety {
  import opened Schema
  import opened Team
  import opened Authz
  import opened TeamMachine
  import Accounts
  import Lifetime
  import LastAdmin
  import ArchiveRace
  import InviteConservation

  /** At the MSP, with a live identity; the archive mark is another matter. */
  predicate Housed(w: World, c: ContactId) {
    && c in w.db.contacts && w.db.contacts[c].user.Some? && w.db.contacts[c].user.value in w.idp.users
    && IsMsp(w.db, w.db.contacts[c].company)
  }

  /** An invite works for the MSP from its first read on. */
  predicate ThreadPlaced(w: World, t: Thread) {
    match t
    case Inviting(_, CompanyKnown(m, _)) => IsMsp(w.db, m)
    case Inviting(_, EmailFree(m, _)) => IsMsp(w.db, m)
    case Inviting(_, Minted(m, _)) => IsMsp(w.db, m)
    case Inviting(_, Stored(c, _)) => c in w.db.contacts && IsMsp(w.db, w.db.contacts[c].company)
    case _ => true
  }

  ghost predicate Placed(s: State) {
    && (forall c :: c in s.w.db.grants ==> Housed(s.w, c))
    && (forall t :: t in s.threads ==> ThreadPlaced(s.w, s.threads[t]))
  }

  /** A workspace in good order with an active admin, before the first request. */
  ghost predicate Start(s: State) {
    && InviteConservation.Start(s) && Accounts.Staffed(s.w.db) && Accounts.LiveMembers(s.w.db, s.w.idp)
    && ActiveAdmins(s.w.db.grants) != {}
  }

  ghost predicate HasWorkingAdmin(w: World) {
    exists c, u :: Lifetime.WorkingAdmin(w, c, u)
  }

  // ------------------------------------- what no interleaving can change

  /** Companies stay, and contacts keep their company and identity. */
  predicate SameHomes(w: World, w': World) {
    && w'.db.companies == w.db.companies
    && forall c :: c in w.db.contacts ==>
         c in w'.db.contacts && w'.db.contacts[c].company == w.db.contacts[c].company
         && w'.db.contacts[c].user == w.db.contacts[c].user
  }

  lemma AdvanceKeepsHomes(rules: Rules, w: World, t: Thread, ch: Choice)
    requires FreshIds(w, ch)
    ensures SameHomes(w, Advance(rules, w, t, ch).0)
  {
  }

  /** The only identity that a step takes back is the one its own invite minted. */
  lemma AdvanceUsers(rules: Rules, w: World, t: Thread, ch: Choice, u: UserId)
    requires u in w.idp.users && (t.Inviting? && t.ipc.Undoing? ==> t.ipc.user != u)
    ensures u in Advance(rules, w, t, ch).0.idp.users
  {
  }

  lemma AdvancePlacesItself(rules: Rules, w: World, t: Thread, ch: Choice)
    requires ThreadPlaced(w, t) && FreshIds(w, ch)
    ensures var (w', t') := Advance(rules, w, t, ch); ThreadPlaced(w', t')
  {
  }

  /** A member before the step still has a live identity after it. */
  lemma MembersStayHoused(rules: Rules, s: State, l: Label, c: ContactId)
    requires InviteConservation.Accounted(s) && Enabled(s, l) && l.Step? && c in s.w.db.grants && Housed(s.w, c)
    ensures Housed(Next(rules, s, l).w, c)
  {
    var t, u := s.threads[l.tid], s.w.db.contacts[c].user.value;
    AdvanceKeepsHomes(rules, s.w, t, l.ch);
    if t.Inviting? && t.ipc.Undoing? {
      assert InviteConservation.Mints(s, l.tid, t.ipc.user);
      assert InviteConservation.ThreadHolds(s, l.tid, t.ipc.user);
      assert InviteConservation.MemberWith(s.w.db, c, u);
    }
    AdvanceUsers(rules, s.w, t, l.ch, u);
  }

  /** And so does one that the step makes a member. */
  lemma NewMembersAreHoused(rules: Rules, s: State, l: Label, c: ContactId)
    requires InviteConservation.Accounted(s) && Placed(s) && Enabled(s, l) && l.Step?
    requires c in Next(rules, s, l).w.db.grants && c !in s.w.db.grants
    ensures Housed(Next(rules, s, l).w, c)
  {
    var t := s.threads[l.tid];
    ArchiveRace.AdvanceShape(rules, s.w, t, l.ch);
    assert ThreadPlaced(s.w, t);
    assert InviteConservation.Mints(s, l.tid, t.ipc.user);
    assert InviteConservation.ThreadHolds(s, l.tid, t.ipc.user);
  }

  lemma StepKeepsPlaced(rules: Rules, s: State, l: Label)
    requires InviteConservation.Accounted(s) && Placed(s) && Enabled(s, l)
    ensures Placed(Next(rules, s, l))
  {
    if l.Step? {
      var s', t := Next(rules, s, l), s.threads[l.tid];
      forall c | c in s'.w.db.grants ensures Housed(s'.w, c) {
        if c in s.w.db.grants { MembersStayHoused(rules, s, l, c); } else { NewMembersAreHoused(rules, s, l, c); }
      }
      AdvanceKeepsHomes(rules, s.w, t, l.ch);
      AdvancePlacesItself(rules, s.w, t, l.ch);
      forall o | o in s'.threads ensures ThreadPlaced(s'.w, s'.threads[o]) {
        if o != l.tid { assert ThreadPlaced(s.w, s.threads[o]); }
      }
    }
  }

  /** Whatever overlaps: every member stays at the MSP, with a live identity. */
  lemma {:induction false} RunKeepsPlaced(rules: Rules, s: State, ls: seq<Label>)
    requires Start(s) && Legal(rules, s, ls)
    ensures InviteConservation.Accounted(Final(rules, s, ls)) && Placed(Final(rules, s, ls))
  {
    InviteConservation.RunKeepsAccounts(rules, s, ls);
    if ls == [] {
    } else {
      var before := ls[..|ls| - 1];
      RunKeepsPlaced(rules, s, before);
      StepKeepsPlaced(rules, Final(rules, s, before), ls[|ls| - 1]);
    }
  }

  lemma PlacedAdminWorks(s: State, c: ContactId)
    requires ValidSchema(s.w.db) && Placed(s) && c in ActiveAdmins(s.w.db.grants) && ActiveContact(s.w.db, c)
    ensures HasWorkingAdmin(s.w)
  {
    assert Housed(s.w, c);
    Lifetime.AdminWorks(s.w, c);
  }

  // -------------------------------------------------- the two safe cases

  /** At most one removal in its window, and no archival overlapping an invite. */
  lemma OneWindowKeepsWorkingAdmin(rules: Rules, s: State, ls: seq<Label>)
    requires Start(s) && Legal(rules, s, ls)
    requires LastAdmin.Bounded(rules, s, ls, 1) && ArchiveRace.Bounded(rules, s, ls, 0)
    ensures HasWorkingAdmin(Final(rules, s, ls).w)
  {
    var t := Final(rules, s, ls);
    assert LastAdmin.Windows(s) == {};
    LastAdmin.LastAdminStays(rules, s, ls);
    ArchiveRace.RunKeepsSound(rules, s, ls);
    RunKeepsPlaced(rules, s, ls);
    var c :| c in ActiveAdmins(t.w.db.grants);
    PlacedAdminWorks(t, c);
  }

  /** With no removal at all, an active admin is never demoted, suspended or archived. */
  ghost predicate Firm(s: State, c: ContactId) {
    && c in ActiveAdmins(s.w.db.grants) && ActiveContact(s.w.db, c)
    && forall t :: t in s.threads ==> s.threads[t] != Archiving(c, Unbacked)
  }

  lemma StepKeepsFirm(rules: Rules, s: State, l: Label, c: ContactId)
    requires ValidSchema(s.w.db) && Firm(s, c) && Enabled(s, l) && LastAdmin.Windows(s) == {}
    ensures Firm(Next(rules, s, l), c)
  {
    if l.Step? {
      assert l.tid !in LastAdmin.Windows(s);
      LastAdmin.OtherStepsOnlyAdd(rules, s, l);
      ArchiveRace.AdvanceShape(rules, s.w, s.threads[l.tid], l.ch);
    }
  }

  lemma {:induction false} RunKeepsFirm(rules: Rules, s: State, ls: seq<Label>, c: ContactId)
    requires Start(s) && Firm(s, c) && Legal(rules, s, ls) && LastAdmin.Bounded(rules, s, ls, 0)
    ensures Firm(Final(rules, s, ls), c)
  {
    if ls == [] {
    } else {
      var before := ls[..|ls| - 1];
      RunKeepsFirm(rules, s, before, c);
      InviteConservation.RunKeepsAccounts(rules, s, before);
      StepKeepsFirm(rules, Final(rules, s, before), ls[|ls| - 1], c);
    }
  }

  lemma NoRemovalKeepsWorkingAdmin(rules: Rules, s: State, ls: seq<Label>)
    requires Start(s) && Legal(rules, s, ls) && LastAdmin.Bounded(rules, s, ls, 0)
    ensures HasWorkingAdmin(Final(rules, s, ls).w)
  {
    var c :| c in ActiveAdmins(s.w.db.grants);
    RunKeepsFirm(rules, s, ls, c);
    RunKeepsPlaced(rules, s, ls);
    PlacedAdminWorks(Final(rules, s, ls), c);
  }

  // --------------------------------------------- and the ways to lose everybody

  /** A run with at most k removals in their windows and j overlaps at a time, after
      which nobody can administer the workspace. */
  ghost predicate Loses(rules: Rules, s: State, ls: seq<Label>, k: nat, j: nat) {
    && Start(s) && Legal(rules, s, ls) && LastAdmin.Bounded(rules, s, ls, k) && ArchiveRace.Bounded(rules, s, ls, j)
    && !HasWorkingAdmin(Final(rules, s, ls).w)
  }

  ghost predicate SafeWith(k: nat, j: nat) {
    forall rules: Rules, s: State, ls: seq<Label> :: !Loses(rules, s, ls, k, j)
  }

  /** The guarded handlers of a state, and its pairs of an archiver and an inviter. */
  predicate Cast(s: State, guards: set<nat>, pairs: set<(nat, nat)>) {
    && (forall t :: t in s.threads && s.threads[t].Guarded? ==> t in guards)
    && (forall a, i :: a in s.threads && i in s.threads && s.threads[a].Archiving? && s.threads[i].Inviting? ==> (a, i) in pairs)
  }

  lemma StepKeepsCast(rules: Rules, s: State, l: Label, guards: set<nat>, pairs: set<(nat, nat)>)
    requires Enabled(s, l) && Cast(Next(rules, s, l), guards, pairs)
    ensures Cast(s, guards, pairs)
  {
    var s' := Next(rules, s, l);
    forall t | t in s.threads
      ensures t in s'.threads && (s'.threads[t].Guarded? <==> s.threads[t].Guarded?)
      ensures s'.threads[t].Archiving? == s.threads[t].Archiving? && s'.threads[t].Inviting? == s.threads[t].Inviting?
    {
    }
  }

  /** Threads never leave, so the last state bounds them all. */
  lemma {:induction false} CastBounds(rules: Rules, s: State, ls: seq<Label>, guards: set<nat>, pairs: set<(nat, nat)>)
    requires Legal(rules, s, ls) && Cast(Final(rules, s, ls), guards, pairs)
    ensures LastAdmin.Bounded(rules, s, ls, |guards|) && ArchiveRace.Bounded(rules, s, ls, |pairs|)
  {
    SubsetSize(LastAdmin.Windows(Final(rules, s, ls)), guards);
    SubsetSize(ArchiveRace.Overlaps(Final(rules, s, ls)), pairs);
    if ls == [] {
    } else {
      var before := ls[..|ls| - 1];
      StepKeepsCast(rules, Final(rules, s, before), ls[|ls| - 1], guards, pairs);
      CastBounds(rules, s, before, guards, pairs);
    }
  }

  /** Nobody works without an active contact whose grant is an unsuspended admin's. */
  lemma NobodyWorks(w: World)
    requires ValidSchema(w.db)
    requires forall c :: c in w.db.grants && ActiveContact(w.db, c) && w.db.grants[c].role == Admin
               ==> w.db.grants[c].status == Suspended
    ensures !HasWorkingAdmin(w)
  {
    if c, u :| Lifetime.WorkingAdmin(w, c, u) {
      Lifetime.WorkingAdminIsAdmin(w, c, u);
    }
  }

  /** The duel of LastAdmin, from an empty machine. */
  lemma DuelSpawns(s: State) returns (ls: seq<Label>)
    requires s == State(LastAdmin.Duel(LastAdmin.Both(Active), Loading, Loading).w, map[])
    ensures Legal(LastAdmin.OPEN_RULES, s, ls)
    ensures Final(LastAdmin.OPEN_RULES, s, ls) == LastAdmin.Duel(LastAdmin.Both(Active), Loading, Loading)
  {
    ls := [];
    Extend(LastAdmin.OPEN_RULES, s, ls, Spawn(0, Guarded(Suspend, 0, Loading)));
    ls := ls + [Spawn(0, Guarded(Suspend, 0, Loading))];
    Extend(LastAdmin.OPEN_RULES, s, ls, Spawn(1, Guarded(Suspend, 1, Loading)));
    ls := ls + [Spawn(1, Guarded(Suspend, 1, Loading))];
  }

  lemma DuelIsStaffed(w: World)
    requires w == LastAdmin.Duel(LastAdmin.Both(Active), Loading, Loading).w
    ensures Accounts.Staffed(w.db) && Accounts.LiveMembers(w.db, w.idp) && KnownUsers(w.db, w.idp)
  {
  }

  lemma DuelIsAStart()
    ensures Start(State(LastAdmin.Duel(LastAdmin.Both(Active), Loading, Loading).w, map[]))
  {
    var w := LastAdmin.Duel(LastAdmin.Both(Active), Loading, Loading).w;
    LastAdmin.DuelIsValid(LastAdmin.Both(Active), Loading, Loading);
    LastAdmin.DuelEnds();
    DuelIsStaffed(w);
  }

  lemma DuelCast(g: map<ContactId, Grant>, pc0: GuardPc, pc1: GuardPc)
    ensures Cast(LastAdmin.Duel(g, pc0, pc1), {0, 1}, {})
  {
  }

  lemma TwoGuards(rules: Rules, s: State, ls: seq<Label>)
    requires Legal(rules, s, ls) && Cast(Final(rules, s, ls), {0, 1}, {})
    ensures LastAdmin.Bounded(rules, s, ls, 2) && ArchiveRace.Bounded(rules, s, ls, 0)
  {
    CastBounds(rules, s, ls, {0, 1}, {});
  }

  lemma DuelRuns(s: State) returns (ls: seq<Label>)
    requires s == State(LastAdmin.Duel(LastAdmin.Both(Active), Loading, Loading).w, map[])
    ensures Legal(LastAdmin.OPEN_RULES, s, ls)
    ensures Final(LastAdmin.OPEN_RULES, s, ls) == LastAdmin.Duel(LastAdmin.Both(Suspended), Done, Done)
  {
    ls := DuelSpawns(s);
    DuelCast(LastAdmin.Both(Active), Loading, Loading);
    TwoGuards(LastAdmin.OPEN_RULES, s, ls);
    ls := LastAdmin.BothLoad(s, ls);
    ls := LastAdmin.BothWrite(s, ls);
  }

  lemma NobodyIsLeft()
    ensures !HasWorkingAdmin(LastAdmin.Duel(LastAdmin.Both(Suspended), Done, Done).w)
  {
    LastAdmin.DuelIsValid(LastAdmin.Both(Suspended), Done, Done);
    NobodyWorks(LastAdmin.Duel(LastAdmin.Both(Suspended), Done, Done).w);
  }

  /** Two removals in their windows. */
  lemma TwoWindowsLoseEverybody() returns (s: State, ls: seq<Label>)
    ensures Loses(LastAdmin.OPEN_RULES, s, ls, 2, 0)
  {
    DuelIsAStart();
    s := State(LastAdmin.Duel(LastAdmin.Both(Active), Loading, Loading).w, map[]);
    ls := DuelRuns(s);
    DuelCast(LastAdmin.Both(Suspended), Done, Done);
    TwoGuards(LastAdmin.OPEN_RULES, s, ls);
    NobodyIsLeft();
  }

  // ------------------------------ an archived admin passes for another one

  const INVITE: InviteRequest := InviteRequest(true, "e", Some(Admin))
  const OWNER: Contact := Contact(0, None, Some("a"), false)
  const GUEST: Contact := Contact(0, Some("e"), Some("u"), false)
  const ADMIN: Grant := Grant(Admin, Active)

  /** One company with its admin, 0, and later a guest, 9. */
  function Stage(contacts: map<ContactId, Contact>, grants: map<ContactId, Grant>, minted: bool): World {
    ArchiveRace.Scene(contacts, grants, minted).(
      idp := if minted then Directory({"msp"}, map["a" := "msp", "u" := "msp"], {"msp"}, {"a", "u"})
             else Directory({"msp"}, map["a" := "msp"], {"msp"}, {"a"}))
  }

  const BEFORE: World := Stage(map[0 := OWNER], map[0 := ADMIN], false)
  const MINTED: World := Stage(map[0 := OWNER], map[0 := ADMIN], true)
  const STORED: World := Stage(map[0 := OWNER, 9 := GUEST], map[0 := ADMIN], true)
  const ARCHIVED: World := Stage(map[0 := OWNER, 9 := GUEST.(archived := true)], map[0 := ADMIN], true)
  const GRANTED: World := ARCHIVED.(db := AddGrant(ARCHIVED.db, 9, Grant(Admin, NotSignedInYet)))
  const SEEN: World := ARCHIVED.(db := AddGrant(ARCHIVED.db, 9, ADMIN))
  const ALONE: World := SEEN.(db := AddGrant(SEEN.db, 0, Grant(Admin, Suspended)))

  lemma StageIsValid(contacts: map<ContactId, Contact>, grants: map<ContactId, Grant>, minted: bool)
    requires 0 in contacts && contacts[0] == OWNER && contacts.Keys <= {0, 9} && grants.Keys <= contacts.Keys
    requires 9 in contacts ==> contacts[9].(archived := false) == GUEST
    ensures ValidSchema(Stage(contacts, grants, minted).db)
    ensures MspId(Stage(contacts, grants, minted).db) == Some(0)
  {
    var db := Stage(contacts, grants, minted).db;
    assert IsMsp(db, 0) && forall id :: IsMsp(db, id) ==> id == 0;
    assert forall c, u :: HoldsUser(db, c, u) ==> (c == 0 && u == "a") || (c == 9 && u == "u");
    assert forall c, co, e :: HoldsEmail(db, c, co, e) ==> c == 9;
  }

  lemma Move(s: State, ls: seq<Label>, tid: nat, ch: Choice, w': World, t': Thread) returns (ls': seq<Label>)
    requires Legal(ArchiveRace.OPEN_RULES, s, ls) && tid in Final(ArchiveRace.OPEN_RULES, s, ls).threads
    requires var u := Final(ArchiveRace.OPEN_RULES, s, ls);
             FreshIds(u.w, ch) && Advance(ArchiveRace.OPEN_RULES, u.w, u.threads[tid], ch) == (w', t')
    ensures Legal(ArchiveRace.OPEN_RULES, s, ls')
    ensures Final(ArchiveRace.OPEN_RULES, s, ls') == State(w', Final(ArchiveRace.OPEN_RULES, s, ls).threads[tid := t'])
  {
    Extend(ArchiveRace.OPEN_RULES, s, ls, Step(tid, ch));
    ls' := ls + [Step(tid, ch)];
  }

  lemma Enter(s: State, ls: seq<Label>, tid: nat, t: Thread) returns (ls': seq<Label>)
    requires Legal(ArchiveRace.OPEN_RULES, s, ls) && tid !in Final(ArchiveRace.OPEN_RULES, s, ls).threads && Unstarted(t)
    ensures Legal(ArchiveRace.OPEN_RULES, s, ls')
    ensures var u := Final(ArchiveRace.OPEN_RULES, s, ls);
            Final(ArchiveRace.OPEN_RULES, s, ls') == State(u.w, u.threads[tid := t])
  {
    Extend(ArchiveRace.OPEN_RULES, s, ls, Spawn(tid, t));
    ls' := ls + [Spawn(tid, t)];
  }

  /** An archival, a first visit and a suspension that nobody disturbs. */
  lemma ArchivalRuns(s: State, before: seq<Label>, tid: nat, c: ContactId, ch: Choice) returns (ls: seq<Label>)
    requires Legal(ArchiveRace.OPEN_RULES, s, before)
    requires var u := Final(ArchiveRace.OPEN_RULES, s, before);
             tid !in u.threads && c !in u.w.db.grants && ActiveContact(u.w.db, c) && FreshIds(u.w, ch) && ch.ok
    ensures Legal(ArchiveRace.OPEN_RULES, s, ls)
    ensures var u := Final(ArchiveRace.OPEN_RULES, s, before);
            Final(ArchiveRace.OPEN_RULES, s, ls)
            == State(u.w.(db := ArchiveContactRow(u.w.db, c)), u.threads[tid := Archiving(c, Archived)])
  {
    var u := Final(ArchiveRace.OPEN_RULES, s, before);
    var t1, t2, t3 := Archiving(c, Checking), Archiving(c, Unbacked), Archiving(c, Archived);
    ls := Enter(s, before, tid, t1);
    ls := Move(s, ls, tid, ch, u.w, t2);
    ls := Move(s, ls, tid, ch, u.w.(db := ArchiveContactRow(u.w.db, c)), t3);
    assert u.threads[tid := t1][tid := t2][tid := t3] == u.threads[tid := t3];
  }

  /** A pending admin who asks for the listed procedure. */
  lemma PendingResolves(db: Tables, c: ContactId, u: UserId)
    requires ValidSchema(db) && HoldsUser(db, c, u) && c in db.grants && db.grants[c] == Grant(Admin, NotSignedInYet)
    ensures Resolve(ArchiveRace.OPEN_RULES, db, Request(LISTED, Some(u)), true) == Activating(c, Admin)
  {
    ListedIsConnectProcedure();
    ContactOfIsUnique(db, c, u);
  }

  lemma VisitRuns(s: State, before: seq<Label>, tid: nat, req: Request, c: ContactId, role: Role, ch: Choice)
    returns (ls: seq<Label>)
    requires Legal(ArchiveRace.OPEN_RULES, s, before)
    requires var u := Final(ArchiveRace.OPEN_RULES, s, before);
             && tid !in u.threads && FreshIds(u.w, ch) && ch.ok
             && Resolve(ArchiveRace.OPEN_RULES, u.w.db, req, true) == Activating(c, role)
    ensures Legal(ArchiveRace.OPEN_RULES, s, ls)
    ensures var u := Final(ArchiveRace.OPEN_RULES, s, before);
            Final(ArchiveRace.OPEN_RULES, s, ls)
            == State(u.w.(db := ActivatePending(u.w.db, c)), u.threads[tid := Requesting(req, Deciding(c, role))])
  {
    var u := Final(ArchiveRace.OPEN_RULES, s, before);
    var t1, t2, t3 := Requesting(req, Arriving), Requesting(req, Activating(c, role)), Requesting(req, Deciding(c, role));
    ls := Enter(s, before, tid, t1);
    ls := Move(s, ls, tid, ch, u.w, t2);
    ls := Move(s, ls, tid, ch, u.w.(db := ActivatePending(u.w.db, c)), t3);
    assert u.threads[tid := t1][tid := t2][tid := t3] == u.threads[tid := t3];
  }

  lemma PendingVisitRuns(s: State, before: seq<Label>, tid: nat, c: ContactId, user: UserId, ch: Choice) returns (ls: seq<Label>)
    requires Legal(ArchiveRace.OPEN_RULES, s, before)
    requires var u := Final(ArchiveRace.OPEN_RULES, s, before);
             && tid !in u.threads && FreshIds(u.w, ch) && ch.ok && ValidSchema(u.w.db) && HoldsUser(u.w.db, c, user)
             && c in u.w.db.grants && u.w.db.grants[c] == Grant(Admin, NotSignedInYet)
    ensures Legal(ArchiveRace.OPEN_RULES, s, ls)
    ensures var u, u' := Final(ArchiveRace.OPEN_RULES, s, before), Final(ArchiveRace.OPEN_RULES, s, ls);
            && u'.w == u.w.(db := ActivatePending(u.w.db, c))
            && u'.threads == u.threads[tid := Requesting(Request(LISTED, Some(user)), Deciding(c, Admin))]
  {
    PendingResolves(Final(ArchiveRace.OPEN_RULES, s, before).w.db, c, user);
    ls := VisitRuns(s, before, tid, Request(LISTED, Some(user)), c, Admin, ch);
  }

  lemma SuspensionRuns(s: State, before: seq<Label>, tid: nat, c: ContactId, ch: Choice) returns (ls: seq<Label>)
    requires Legal(ArchiveRace.OPEN_RULES, s, before)
    requires var u := Final(ArchiveRace.OPEN_RULES, s, before);
             && tid !in u.threads && FreshIds(u.w, ch) && ch.ok && ActiveContact(u.w.db, c)
             && c in u.w.db.grants && u.w.db.grants[c] == ADMIN && CountActiveAdmins(u.w.db.grants) > 1
    ensures Legal(ArchiveRace.OPEN_RULES, s, ls)
    ensures var u, u' := Final(ArchiveRace.OPEN_RULES, s, before), Final(ArchiveRace.OPEN_RULES, s, ls);
            && u'.w == u.w.(db := SetStatus(u.w.db, c, Suspended))
            && u'.threads.Keys == u.threads.Keys + {tid} && u'.threads[tid].Guarded?
            && forall o :: o in u.threads ==> u'.threads[o] == u.threads[o]
  {
    var w := Final(ArchiveRace.OPEN_RULES, s, before).w;
    ls := Enter(s, before, tid, Guarded(Suspend, c, Loading));
    ls := Move(s, ls, tid, ch, w, Guarded(Suspend, c, ContactLoaded));
    ls := Move(s, ls, tid, ch, w, Guarded(Suspend, c, GrantLoaded(ADMIN)));
    ls := Move(s, ls, tid, ch, w, Guarded(Suspend, c, Cleared));
    ls := Move(s, ls, tid, ch, w.(db := SetStatus(w.db, c, Suspended)), Guarded(Suspend, c, Done));
  }

  /** What the statements of the invite do, up to its stored contact. */
  lemma InviteStatements()
    ensures InviteStep(BEFORE, INVITE, Validating, ArchiveRace.MINT) == (BEFORE, CompanyKnown(0, "msp"))
    ensures InviteStep(BEFORE, INVITE, CompanyKnown(0, "msp"), ArchiveRace.MINT) == (BEFORE, EmailFree(0, "msp"))
    ensures InviteStep(BEFORE, INVITE, EmailFree(0, "msp"), ArchiveRace.MINT) == (MINTED, Minted(0, "u"))
    ensures InviteStep(MINTED, INVITE, Minted(0, "u"), ArchiveRace.STORE) == (STORED, Stored(9, "u"))
  {
    StageIsValid(map[0 := OWNER], map[0 := ADMIN], false);
    assert forall c, co, e :: !HoldsEmail(BEFORE.db, c, co, e);
    assert forall c, u :: HoldsUser(MINTED.db, c, u) ==> u == "a";
    assert AddUser(BEFORE.idp, "u", "msp") == MINTED.idp && {} + {"u"} == MINTED.log.invitedUsers;
    assert AddContact(MINTED.db, 9, GUEST) == STORED.db;
  }

  lemma GuestIsStored(s: State) returns (ls: seq<Label>)
    requires s == State(BEFORE, map[])
    ensures Legal(ArchiveRace.OPEN_RULES, s, ls)
    ensures Final(ArchiveRace.OPEN_RULES, s, ls) == State(STORED, map[0 := Inviting(INVITE, Stored(9, "u"))])
  {
    InviteStatements();
    ls := Enter(s, [], 0, Inviting(INVITE, Validating));
    ls := Move(s, ls, 0, ArchiveRace.MINT, BEFORE, Inviting(INVITE, CompanyKnown(0, "msp")));
    ls := Move(s, ls, 0, ArchiveRace.MINT, BEFORE, Inviting(INVITE, EmailFree(0, "msp")));
    ls := Move(s, ls, 0, ArchiveRace.MINT, MINTED, Inviting(INVITE, Minted(0, "u")));
    ls := Move(s, ls, 0, ArchiveRace.STORE, STORED, Inviting(INVITE, Stored(9, "u")));
  }

  lemma StoredFacts()
    ensures 9 !in STORED.db.grants && ActiveContact(STORED.db, 9) && STORED.db.contacts.Keys == {0, 9}
    ensures STORED.(db := ArchiveContactRow(STORED.db, 9)) == ARCHIVED
    ensures InviteStep(ARCHIVED, INVITE, Stored(9, "u"), ArchiveRace.GO) == (GRANTED, Committed(9, "u"))
    ensures FreshIds(ARCHIVED, ArchiveRace.GO)
  {
    assert ArchiveContactRow(STORED.db, 9) == ARCHIVED.db;
  }

  /** Archived between the two inserts of its invite. */
  lemma GuestIsGranted(s: State, before: seq<Label>) returns (ls: seq<Label>)
    requires Legal(ArchiveRace.OPEN_RULES, s, before)
    requires Final(ArchiveRace.OPEN_RULES, s, before) == State(STORED, map[0 := Inviting(INVITE, Stored(9, "u"))])
    ensures Legal(ArchiveRace.OPEN_RULES, s, ls)
    ensures var u := Final(ArchiveRace.OPEN_RULES, s, ls);
            u.w == GRANTED && u.threads.Keys == {0, 1} && Cast(u, {3}, {(1, 0)})
  {
    StoredFacts();
    ls := ArchivalRuns(s, before, 1, 9, ArchiveRace.GO);
    ls := Move(s, ls, 0, ArchiveRace.GO, GRANTED, Inviting(INVITE, Committed(9, "u")));
  }

  lemma GrantedFacts()
    ensures ValidSchema(GRANTED.db) && HoldsUser(GRANTED.db, 9, "u") && GRANTED.db.contacts.Keys == {0, 9}
    ensures 9 in GRANTED.db.grants && GRANTED.db.grants[9] == Grant(Admin, NotSignedInYet)
    ensures GRANTED.(db := ActivatePending(GRANTED.db, 9)) == SEEN
  {
    StageIsValid(GRANTED.db.contacts, GRANTED.db.grants, true);
  }

  lemma SeenFacts()
    ensures ActiveContact(SEEN.db, 0) && SEEN.db.contacts.Keys == {0, 9} && 0 in SEEN.db.grants && SEEN.db.grants[0] == ADMIN
    ensures CountActiveAdmins(SEEN.db.grants) > 1
    ensures SEEN.(db := SetStatus(SEEN.db, 0, Suspended)) == ALONE
  {
    assert ActiveAdmins(SEEN.db.grants) == {0, 9};
  }

  /** The archived guest signs in and counts as an active admin. */
  lemma GuestIsSeen(s: State, before: seq<Label>) returns (ls: seq<Label>)
    requires Legal(ArchiveRace.OPEN_RULES, s, before)
    requires var u := Final(ArchiveRace.OPEN_RULES, s, before);
             u.w == GRANTED && u.threads.Keys == {0, 1} && Cast(u, {3}, {(1, 0)})
    ensures Legal(ArchiveRace.OPEN_RULES, s, ls)
    ensures var u := Final(ArchiveRace.OPEN_RULES, s, ls);
            u.w == SEEN && u.threads.Keys == {0, 1, 2} && Cast(u, {3}, {(1, 0)})
  {
    GrantedFacts();
    ls := PendingVisitRuns(s, before, 2, 9, "u", ArchiveRace.GO);
  }

  /** So the owner may go. */
  lemma OwnerIsSuspended(s: State, before: seq<Label>) returns (ls: seq<Label>)
    requires Legal(ArchiveRace.OPEN_RULES, s, before)
    requires var u := Final(ArchiveRace.OPEN_RULES, s, before);
             u.w == SEEN && u.threads.Keys == {0, 1, 2} && Cast(u, {3}, {(1, 0)})
    ensures Legal(ArchiveRace.OPEN_RULES, s, ls)
    ensures var u := Final(ArchiveRace.OPEN_RULES, s, ls); u.w == ALONE && Cast(u, {3}, {(1, 0)})
  {
    SeenFacts();
    ls := SuspensionRuns(s, before, 3, 0, ArchiveRace.GO);
  }

  lemma BeforeIsAStart()
    ensures Start(State(BEFORE, map[]))
  {
    StageIsValid(map[0 := OWNER], map[0 := ADMIN], false);
    assert 0 in ActiveAdmins(BEFORE.db.grants);
  }

  lemma NobodyWorksAlone()
    ensures !HasWorkingAdmin(ALONE)
  {
    StageIsValid(ALONE.db.contacts, ALONE.db.grants, true);
    NobodyWorks(ALONE);
  }

  lemma OneOfEach(rules: Rules, s: State, ls: seq<Label>)
    requires Legal(rules, s, ls) && Cast(Final(rules, s, ls), {3}, {(1, 0)})
    ensures LastAdmin.Bounded(rules, s, ls, 1) && ArchiveRace.Bounded(rules, s, ls, 1)
  {
    CastBounds(rules, s, ls, {3}, {(1, 0)});
  }

  /** One removal at a time, and one overlap. */
  lemma OverlapLosesEverybody() returns (s: State, ls: seq<Label>)
    ensures Loses(ArchiveRace.OPEN_RULES, s, ls, 1, 1)
  {
    BeforeIsAStart();
    s := State(BEFORE, map[]);
    ls := GuestIsStored(s);
    ls := GuestIsGranted(s, ls);
    ls := GuestIsSeen(s, ls);
    ls := OwnerIsSuspended(s, ls);
    OneOfEach(ArchiveRace.OPEN_RULES, s, ls);
    NobodyWorksAlone();
  }

  lemma MoreAllowed(rules: Rules, s: State, ls: seq<Label>, k: nat, j: nat, k': nat, j': nat)
    requires Loses(rules, s, ls, k, j) && k <= k' && j <= j'
    ensures Loses(rules, s, ls, k', j')
  {
    LastAdmin.MoreWindowsAllowed(rules, s, ls, k, k');
    ArchiveRace.MoreOverlapsAllowed(rules, s, ls, j, j');
  }

  /** Exactly when somebody can always administer the workspace: no removals, or one at
      a time and no overlap. */
  lemma SafeIff(k: nat, j: nat)
    ensures SafeWith(k, j) <==> k == 0 || (k == 1 && j == 0)
  {
    if k == 0 || (k == 1 && j == 0) {
      forall rules: Rules, s: State, ls: seq<Label> ensures !Loses(rules, s, ls, k, j) {
        if Loses(rules, s, ls, k, j) {
          if k == 0 { NoRemovalKeepsWorkingAdmin(rules, s, ls); } else { OneWindowKeepsWorkingAdmin(rules, s, ls); }
        }
      }
    } else if k >= 2 {
      var s, ls := TwoWindowsLoseEverybody();
      MoreAllowed(LastAdmin.OPEN_RULES, s, ls, 2, 0, k, j);
    } else {
      var s, ls := OverlapLosesEverybody();
      MoreAllowed(ArchiveRace.OPEN_RULES, s, ls, 1, 1, k, j);
    }
  }
}
