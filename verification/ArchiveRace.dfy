/** Archived contacts and sign-in when statements interleave.  Wrap never reads the
    archive mark; that is sound as long as ArchiveContact, between its check and its
    update, does not meet an invite of the same contact between its two inserts. */
module ArchiveRace {
  import opened Schema
  import opened Team
  import opened Authz
  import opened TeamMachine

  /** An archived contact that holds a grant. */
  ghost predicate ArchivedMember(db: Tables, c: ContactId) {
    c in db.grants && c in db.contacts && db.contacts[c].archived
  }

  /** Archiver `a` has found contact c without a grant, inviter `i` is about to give it one. */
  predicate Overlap(s: State, a: nat, i: nat) {
    && a in s.threads && s.threads[a].Archiving? && s.threads[a].apc == Unbacked
    && i in s.threads && s.threads[i].Inviting? && s.threads[i].ipc.Stored?
    && s.threads[i].ipc.contact == s.threads[a].target
  }

  function Overlaps(s: State): set<(nat, nat)> {
    set a, i | a in s.threads && i in s.threads && Overlap(s, a, i) :: (a, i)
  }

  /** At most k overlaps in every state of the run. */
  ghost predicate Bounded(rules: Rules, s: State, ls: seq<Label>, k: nat)
    requires Legal(rules, s, ls)
  {
    && |Overlaps(Final(rules, s, ls))| <= k
    && (ls != [] ==> Bounded(rules, s, ls[..|ls| - 1], k))
  }

  /** The contact that a request has resolved to and not been refused for yet. */
  function Resolved(pc: RequestPc): Option<ContactId> {
    match pc
    case Activating(c, _) => Some(c)
    case Deciding(c, _) => Some(c)
    case Answered(Admitted(c, _)) => Some(c)
    case _ => None
  }

  predicate ThreadSound(db: Tables, t: Thread) {
    match t
    case Inviting(_, Stored(c, _)) => ActiveContact(db, c)
    case Archiving(c, Unbacked) => c !in db.grants
    case Requesting(_, pc) => Resolved(pc).Some? ==> Resolved(pc).value in db.grants
    case _ => true
  }

  ghost predicate Sound(s: State) {
    && ValidSchema(s.w.db)
    && (forall c :: c in s.w.db.grants ==> ActiveContact(s.w.db, c))
    && (forall t :: t in s.threads ==> ThreadSound(s.w.db, s.threads[t]))
  }

  /** A database without archived members, before the first request. */
  ghost predicate Start(s: State) {
    ValidSchema(s.w.db) && s.threads == map[] && forall c :: c in s.w.db.grants ==> ActiveContact(s.w.db, c)
  }

  lemma NoOverlap(s: State)
    requires |Overlaps(s)| == 0
    ensures forall a: nat, i: nat :: !Overlap(s, a, i)
  {
    forall a: nat, i: nat ensures !Overlap(s, a, i) {
      assert (a, i) !in Overlaps(s);
    }
  }

  /** What a step of thread t can do to the tables: only an archiver past its check
      changes a contact, and only an invite with a stored contact adds a grant. */
  predicate Shape(t: Thread, db: Tables, db': Tables) {
    && (forall c :: c in db.contacts ==>
          c in db'.contacts && (db'.contacts[c] == db.contacts[c] || t == Archiving(c, Unbacked)))
    && (forall c :: c in db.grants ==> c in db'.grants)
    && (forall c :: c in db'.grants && c !in db.grants ==> t.Inviting? && t.ipc.Stored? && t.ipc.contact == c)
  }

  lemma AdvanceShape(rules: Rules, w: World, t: Thread, ch: Choice)
    requires FreshIds(w, ch)
    ensures Shape(t, w.db, Advance(rules, w, t, ch).0.db)
  {
    match t
    case Guarded(op, c, pc) => GuardStepFrame(w.db, op, c, pc, ch.ok);
    case _ =>
  }

  /** The members stay active. */
  lemma MembersSound(t: Thread, db: Tables, db': Tables)
    requires Shape(t, db, db') && ThreadSound(db, t) && forall c :: c in db.grants ==> ActiveContact(db, c)
    ensures forall c :: c in db'.grants ==> ActiveContact(db', c)
  {
  }

  /** The moving thread stays sound. */
  lemma SelfSound(rules: Rules, w: World, t: Thread, ch: Choice)
    requires ThreadSound(w.db, t) && FreshIds(w, ch)
    ensures var (w', t') := Advance(rules, w, t, ch); ThreadSound(w'.db, t')
  {
    AdvanceShape(rules, w, t, ch);
  }

  /** And so does any other thread it does not overlap with. */
  lemma OthersSound(s: State, tid: nat, other: nat, db': Tables)
    requires Sound(s) && tid in s.threads && other in s.threads && Shape(s.threads[tid], s.w.db, db')
    requires !Overlap(s, tid, other) && !Overlap(s, other, tid)
    ensures ThreadSound(db', s.threads[other])
  {
    assert ThreadSound(s.w.db, s.threads[other]);
  }

  lemma StepKeepsSound(rules: Rules, s: State, l: Label)
    requires Sound(s) && Enabled(s, l) && |Overlaps(s)| == 0
    ensures Sound(Next(rules, s, l))
  {
    StepKeepsSchema(rules, s, l);
    if l.Step? {
      var s', t := Next(rules, s, l), s.threads[l.tid];
      NoOverlap(s);
      AdvanceShape(rules, s.w, t, l.ch);
      MembersSound(t, s.w.db, s'.w.db);
      SelfSound(rules, s.w, t, l.ch);
      forall o | o in s'.threads ensures ThreadSound(s'.w.db, s'.threads[o]) {
        if o != l.tid { OthersSound(s, l.tid, o, s'.w.db); }
      }
    }
  }

  lemma {:induction false} RunKeepsSound(rules: Rules, s: State, ls: seq<Label>)
    requires Start(s) && Legal(rules, s, ls) && Bounded(rules, s, ls, 0)
    ensures Sound(Final(rules, s, ls))
  {
    if ls == [] {
    } else {
      var before := ls[..|ls| - 1];
      RunKeepsSound(rules, s, before);
      StepKeepsSound(rules, Final(rules, s, before), ls[|ls| - 1]);
    }
  }

  /** The contact that an admitted request acts for. */
  function Caller(t: Thread): Option<ContactId> {
    if t.Requesting? && t.rpc.Answered? && t.rpc.decision.Admitted? then Some(t.rpc.decision.caller) else None
  }

  /** Without an overlap no archived contact holds a grant, and every request that has
      been admitted, however its statements were interleaved, belongs to an active one. */
  lemma NoArchivedCaller(rules: Rules, s: State, ls: seq<Label>)
    requires Start(s) && Legal(rules, s, ls) && Bounded(rules, s, ls, 0)
    ensures var t := Final(rules, s, ls);
            && (forall c: ContactId :: !ArchivedMember(t.w.db, c))
            && (forall tid :: tid in t.threads && Caller(t.threads[tid]).Some? ==>
                  ActiveContact(t.w.db, Caller(t.threads[tid]).value))
  {
    RunKeepsSound(rules, s, ls);
    var t := Final(rules, s, ls);
    forall tid | tid in t.threads && Caller(t.threads[tid]).Some? ensures ActiveContact(t.w.db, Caller(t.threads[tid]).value) {
      assert ThreadSound(t.w.db, t.threads[tid]);
    }
  }

  // ------------------------------------------- and one overlap is too many

  /** A run with at most k overlaps at a time that ends with an archived member. */
  ghost predicate Loses(rules: Rules, s: State, ls: seq<Label>, k: nat) {
    && Start(s) && Legal(rules, s, ls) && Bounded(rules, s, ls, k)
    && exists c: ContactId :: ArchivedMember(Final(rules, s, ls).w.db, c)
  }

  ghost predicate SafeWith(k: nat) {
    forall rules: Rules, s: State, ls: seq<Label> :: !Loses(rules, s, ls, k)
  }

  const OPEN_RULES: Rules := Rules({}, map[LISTED := Authenticated])
  const INVITE: InviteRequest := InviteRequest(true, "e", Some(Technician))
  const MSP: Company := Company("msp", true, false, None, "")
  const INVITED: Contact := Contact(0, Some("e"), Some("u"), false)

  /** The world of the race: one company, and later one contact with one grant. */
  function Scene(contacts: map<ContactId, Contact>, grants: map<ContactId, Grant>, minted: bool): World {
    World(Workspace(Ready, None, Some("msp"), None, None, None, None, None, None),
          Tables(map[0 := MSP], contacts, grants),
          if minted then Directory({"msp"}, map["u" := "msp"], {"msp"}, {"u"}) else Directory({"msp"}, map[], {"msp"}, {}),
          Ledger(if minted then {"u"} else {}, multiset{}, {}, {}, {}, {}, 0, 0))
  }

  /** Inviter 0 alone, and inviter 0 beside archiver 1 of the invited contact. */
  function Solo(w: World, pc: InvitePc): State {
    State(w, map[0 := Inviting(INVITE, pc)])
  }

  function Duo(w: World, pc: InvitePc, apc: ArchivePc): State {
    State(w, map[0 := Inviting(INVITE, pc), 1 := Archiving(9, apc)])
  }

  const BEFORE: World := Scene(map[], map[], false)
  const MINTED: World := Scene(map[], map[], true)
  const STORED: World := Scene(map[9 := INVITED], map[], true)
  const ARCHIVED: World := Scene(map[9 := INVITED.(archived := true)], map[], true)
  const LOST: World := Scene(map[9 := INVITED.(archived := true)], map[9 := Grant(Technician, NotSignedInYet)], true)

  const MINT: Choice := Choice(true, "", "u", "", "", 9)
  const STORE: Choice := Choice(true, "", "v", "", "", 9)
  const GO: Choice := Choice(true, "", "v", "", "", 10)

  lemma SceneIsValid(contacts: map<ContactId, Contact>, grants: map<ContactId, Grant>, minted: bool)
    requires contacts.Keys <= {9} && grants.Keys <= contacts.Keys && (9 in contacts ==> contacts[9].(archived := false) == INVITED)
    ensures ValidSchema(Scene(contacts, grants, minted).db)
    ensures MspId(Scene(contacts, grants, minted).db) == Some(0)
  {
    var db := Scene(contacts, grants, minted).db;
    assert IsMsp(db, 0) && forall id :: IsMsp(db, id) ==> id == 0;
    assert forall c, u :: HoldsUser(db, c, u) ==> c == 9;
    assert forall c, co, e :: HoldsEmail(db, c, co, e) ==> c == 9;
  }

  /** The label leads from one state of the race to another. */
  ghost predicate Hop(from: State, l: Label, to: State) {
    Enabled(from, l) && Next(OPEN_RULES, from, l) == to
  }

  lemma SoloHop(w: World, pc: InvitePc, ch: Choice, w': World, pc': InvitePc)
    requires FreshIds(w, ch) && InviteStep(w, INVITE, pc, ch) == (w', pc')
    ensures Hop(Solo(w, pc), Step(0, ch), Solo(w', pc'))
  {
    assert Solo(w, pc).threads[0 := Inviting(INVITE, pc')] == Solo(w', pc').threads;
  }

  /** The statements of the invite that only read. */
  lemma InviteReads()
    ensures InviteStep(BEFORE, INVITE, Validating, MINT) == (BEFORE, CompanyKnown(0, "msp"))
    ensures InviteStep(BEFORE, INVITE, CompanyKnown(0, "msp"), MINT) == (BEFORE, EmailFree(0, "msp"))
  {
    SceneIsValid(map[], map[], false);
    assert forall c: ContactId, co: CompanyId, e: string :: !HoldsEmail(BEFORE.db, c, co, e);
  }

  /** The minted user and the stored contact. */
  lemma InviteWrites()
    ensures InviteStep(BEFORE, INVITE, EmailFree(0, "msp"), MINT) == (MINTED, Minted(0, "u"))
    ensures InviteStep(MINTED, INVITE, Minted(0, "u"), STORE) == (STORED, Stored(9, "u"))
  {
    assert AddUser(BEFORE.idp, "u", "msp") == MINTED.idp && {} + {"u"} == MINTED.log.invitedUsers;
    assert AddContact(MINTED.db, 9, INVITED) == STORED.db && ContactFits(MINTED.db, INVITED);
  }

  /** The invite up to its stored contact. */
  lemma InviteHops()
    ensures Hop(State(BEFORE, map[]), Spawn(0, Inviting(INVITE, Validating)), Solo(BEFORE, Validating))
    ensures Hop(Solo(BEFORE, Validating), Step(0, MINT), Solo(BEFORE, CompanyKnown(0, "msp")))
    ensures Hop(Solo(BEFORE, CompanyKnown(0, "msp")), Step(0, MINT), Solo(BEFORE, EmailFree(0, "msp")))
    ensures Hop(Solo(BEFORE, EmailFree(0, "msp")), Step(0, MINT), Solo(MINTED, Minted(0, "u")))
    ensures Hop(Solo(MINTED, Minted(0, "u")), Step(0, STORE), Solo(STORED, Stored(9, "u")))
  {
    InviteReads();
    InviteWrites();
    SoloHop(BEFORE, Validating, MINT, BEFORE, CompanyKnown(0, "msp"));
    SoloHop(BEFORE, CompanyKnown(0, "msp"), MINT, BEFORE, EmailFree(0, "msp"));
    SoloHop(BEFORE, EmailFree(0, "msp"), MINT, MINTED, Minted(0, "u"));
    SoloHop(MINTED, Minted(0, "u"), STORE, STORED, Stored(9, "u"));
  }

  /** The archiver passes its check and writes, and only then comes the grant. */
  lemma RaceHops()
    ensures Hop(Solo(STORED, Stored(9, "u")), Spawn(1, Archiving(9, Checking)), Duo(STORED, Stored(9, "u"), Checking))
    ensures Hop(Duo(STORED, Stored(9, "u"), Checking), Step(1, GO), Duo(STORED, Stored(9, "u"), Unbacked))
    ensures Hop(Duo(STORED, Stored(9, "u"), Unbacked), Step(1, GO), Duo(ARCHIVED, Stored(9, "u"), Archived))
    ensures Hop(Duo(ARCHIVED, Stored(9, "u"), Archived), Step(0, GO), Duo(LOST, Committed(9, "u"), Archived))
  {
    assert ArchiveContactRow(STORED.db, 9) == ARCHIVED.db;
    assert AddGrant(ARCHIVED.db, 9, Grant(Technician, NotSignedInYet)) == LOST.db;
    forall w: World, pc: InvitePc, apc: ArchivePc, apc': ArchivePc
      ensures Duo(w, pc, apc).threads[1 := Archiving(9, apc')] == Duo(w, pc, apc').threads {}
    forall w: World, pc: InvitePc, apc: ArchivePc, pc': InvitePc
      ensures Duo(w, pc, apc).threads[0 := Inviting(INVITE, pc')] == Duo(w, pc', apc).threads {}
    assert Solo(STORED, Stored(9, "u")).threads[1 := Archiving(9, Checking)] == Duo(STORED, Stored(9, "u"), Checking).threads;
  }

  /** Extend a run by one hop, to a state with at most the threads 0 and 1. */
  lemma Push(s: State, ls: seq<Label>, l: Label, to: State) returns (ls': seq<Label>)
    requires Legal(OPEN_RULES, s, ls) && Bounded(OPEN_RULES, s, ls, 1) && Hop(Final(OPEN_RULES, s, ls), l, to)
    requires to.threads.Keys <= {0, 1} && (1 in to.threads ==> to.threads[1].Archiving?)
    ensures Legal(OPEN_RULES, s, ls') && Bounded(OPEN_RULES, s, ls', 1) && Final(OPEN_RULES, s, ls') == to
  {
    ls' := ls + [l];
    Extend(OPEN_RULES, s, ls, l);
    assert ls'[..|ls'| - 1] == ls;
    assert Overlaps(to) <= {(1, 0)} by {
      forall a: nat, i: nat | Overlap(to, a, i) ensures a == 1 && i == 0 {}
    }
    SubsetSize(Overlaps(to), {(1, 0)});
  }

  lemma UpToStored(s: State) returns (ls: seq<Label>)
    requires s == State(BEFORE, map[])
    ensures Legal(OPEN_RULES, s, ls) && Bounded(OPEN_RULES, s, ls, 1)
    ensures Final(OPEN_RULES, s, ls) == Solo(STORED, Stored(9, "u"))
  {
    InviteHops();
    assert Overlaps(s) == {};
    ls := Push(s, [], Spawn(0, Inviting(INVITE, Validating)), Solo(BEFORE, Validating));
    ls := Push(s, ls, Step(0, MINT), Solo(BEFORE, CompanyKnown(0, "msp")));
    ls := Push(s, ls, Step(0, MINT), Solo(BEFORE, EmailFree(0, "msp")));
    ls := Push(s, ls, Step(0, MINT), Solo(MINTED, Minted(0, "u")));
    ls := Push(s, ls, Step(0, STORE), Solo(STORED, Stored(9, "u")));
  }

  lemma UpToLost(s: State, before: seq<Label>) returns (ls: seq<Label>)
    requires Legal(OPEN_RULES, s, before) && Bounded(OPEN_RULES, s, before, 1)
    requires Final(OPEN_RULES, s, before) == Solo(STORED, Stored(9, "u"))
    ensures Legal(OPEN_RULES, s, ls) && Bounded(OPEN_RULES, s, ls, 1)
    ensures Final(OPEN_RULES, s, ls) == Duo(LOST, Committed(9, "u"), Archived)
  {
    RaceHops();
    var stored := Stored(9, "u");
    ls := Push(s, before, Spawn(1, Archiving(9, Checking)), Duo(STORED, stored, Checking));
    ls := Push(s, ls, Step(1, GO), Duo(STORED, stored, Unbacked));
    ls := Push(s, ls, Step(1, GO), Duo(ARCHIVED, stored, Archived));
    ls := Push(s, ls, Step(0, GO), Duo(LOST, Committed(9, "u"), Archived));
  }

  /** The lost contact signs in. */
  lemma LostIsAdmitted()
    ensures ArchivedMember(LOST.db, 9)
    ensures RunRequest(OPEN_RULES, LOST.db, Request(LISTED, Some("u")), true, true).1 == Admitted(9, Technician)
  {
    SceneIsValid(LOST.db.contacts, LOST.db.grants, true);
    ListedIsConnectProcedure();
    AdmissionIff(OPEN_RULES, LOST.db, Request(LISTED, Some("u")), true, 9, Technician);
  }

  /** From an empty machine: an archived contact with a grant, whom Wrap then admits. */
  lemma ArchiveCanRaceAnInvite() returns (s: State, ls: seq<Label>)
    ensures Loses(OPEN_RULES, s, ls, 1)
    ensures var db := Final(OPEN_RULES, s, ls).w.db;
            && ArchivedMember(db, 9)
            && RunRequest(OPEN_RULES, db, Request(LISTED, Some("u")), true, true).1 == Admitted(9, Technician)
  {
    s := State(BEFORE, map[]);
    SceneIsValid(map[], map[], false);
    ls := UpToStored(s);
    ls := UpToLost(s, ls);
    LostIsAdmitted();
  }

  lemma {:induction false} MoreOverlapsAllowed(rules: Rules, s: State, ls: seq<Label>, k: nat, k': nat)
    requires Legal(rules, s, ls) && Bounded(rules, s, ls, k) && k <= k'
    ensures Bounded(rules, s, ls, k')
  {
    if ls == [] {
    } else {
      MoreOverlapsAllowed(rules, s, ls[..|ls| - 1], k, k');
    }
  }

  /** Exactly when no run ends with an archived member: the two handlers must not
      overlap on a contact at all. */
  lemma SafeIffNoOverlap(k: nat)
    ensures SafeWith(k) <==> k == 0
  {
    if k == 0 {
      forall rules: Rules, s: State, ls: seq<Label> ensures !Loses(rules, s, ls, k) {
        if Loses(rules, s, ls, k) {
          NoArchivedCaller(rules, s, ls);
          assert forall c: ContactId :: !ArchivedMember(Final(rules, s, ls).w.db, c);
        }
      }
    } else {
      var s, ls := ArchiveCanRaceAnInvite();
      MoreOverlapsAllowed(OPEN_RULES, s, ls, 1, k);
      assert Loses(OPEN_RULES, s, ls, k);
    }
  }
}
