/** Every ZITADEL user that an invite mints is accounted for, over any number of
    invites with any failures, side by side with everything else. */
module InviteConservation {
  import opened Schema
  import opened Team
  import opened Authz
  import opened TeamMachine

  /** The user an invite has minted, once it has. */
  function MintedBy(t: Thread): Option<UserId> {
    if !t.Inviting? then None
    else
      match t.ipc
      case Minted(_, u) => Some(u)
      case Stored(_, u) => Some(u)
      case Undoing(u) => Some(u)
      case Committed(_, u) => Some(u)
      case _ => None
  }

  predicate Mints(s: State, tid: nat, u: UserId) {
    tid in s.threads && MintedBy(s.threads[tid]) == Some(u)
  }

  predicate MemberWith(db: Tables, c: ContactId, u: UserId) {
    c in db.grants && HoldsUser(db, c, u)
  }

  /** The user belongs to a contact that has a grant. */
  ghost predicate IsMember(db: Tables, u: UserId) {
    exists c :: MemberWith(db, c, u)
  }

  /** What a thread that has minted u guarantees about u. */
  ghost predicate ThreadHolds(s: State, tid: nat, u: UserId)
    requires tid in s.threads && s.threads[tid].Inviting?
  {
    var pc := s.threads[tid].ipc;
    && u in s.w.log.invitedUsers && u in s.w.idp.users
    && s.w.log.removeUserCalls[u] == 0 && u !in s.w.log.failedUserRemovals
    && (pc.Committed? ==> MemberWith(s.w.db, pc.contact, u))
    && (!pc.Committed? ==> !IsMember(s.w.db, u))
    && (pc.Stored? ==> HoldsUser(s.w.db, pc.contact, u) && pc.contact !in s.w.db.grants)
  }

  /** What happened to an invited user whose invite is over and did not commit. */
  ghost predicate Unmade(s: State, u: UserId) {
    && !IsMember(s.w.db, u)
    && s.w.log.removeUserCalls[u] == 1
    && (u in s.w.idp.users <==> u in s.w.log.failedUserRemovals)
  }

  ghost predicate Held(s: State, u: UserId) {
    exists tid :: Mints(s, tid, u)
  }

  ghost predicate Accounted(s: State) {
    && ValidSchema(s.w.db) && KnownUsers(s.w.db, s.w.idp)
    && (forall u :: u in s.w.log.invitedUsers ==> u in s.w.idp.everUsers)
    && (forall u :: u in s.w.log.removeUserCalls || u in s.w.log.failedUserRemovals ==> u in s.w.log.invitedUsers)
    && (forall a, b, u :: Mints(s, a, u) && Mints(s, b, u) ==> a == b)
    && (forall tid, u :: Mints(s, tid, u) ==> ThreadHolds(s, tid, u))
    && (forall u :: u in s.w.log.invitedUsers && !Held(s, u) ==> Unmade(s, u))
  }

  /** A database and a directory before the first invite. */
  ghost predicate Start(s: State) {
    && ValidSchema(s.w.db) && KnownUsers(s.w.db, s.w.idp) && s.threads == map[]
    && s.w.log.invitedUsers == {} && s.w.log.removeUserCalls == multiset{} && s.w.log.failedUserRemovals == {}
  }

  /** A step that mints, stores, grants and removes nothing, and ends no invite that
      has minted. */
  lemma QuietStep(s: State, s': State, tid: nat)
    requires Accounted(s) && ValidSchema(s'.w.db) && tid in s'.threads
    requires s'.w.idp == s.w.idp && s'.w.log == s.w.log
    requires s'.w.db.grants.Keys == s.w.db.grants.Keys
    requires forall c, u :: HoldsUser(s'.w.db, c, u) <==> HoldsUser(s.w.db, c, u)
    requires s'.threads == s.threads[tid := s'.threads[tid]]
    requires tid in s.threads ==> MintedBy(s'.threads[tid]) == MintedBy(s.threads[tid])
    requires tid !in s.threads ==> MintedBy(s'.threads[tid]) == None
    requires MintedBy(s'.threads[tid]).Some? ==>
               s'.threads[tid].ipc == s.threads[tid].ipc || (s'.threads[tid].ipc.Undoing? && !s.threads[tid].ipc.Committed?)
    ensures Accounted(s')
  {
    assert forall c, u :: MemberWith(s'.w.db, c, u) <==> MemberWith(s.w.db, c, u);
    assert forall u :: IsMember(s'.w.db, u) <==> IsMember(s.w.db, u);
    assert forall t, u :: Mints(s', t, u) <==> Mints(s, t, u);
    assert forall u :: Held(s', u) <==> Held(s, u);
    forall t, u | Mints(s', t, u) ensures ThreadHolds(s', t, u) {
      assert ThreadHolds(s, t, u);
    }
    forall u | u in s'.w.log.invitedUsers && !Held(s', u) ensures Unmade(s', u) {
      assert Unmade(s, u);
    }
  }

  lemma MintStep(s: State, tid: nat, req: InviteRequest, m: CompanyId, o: OrgId, ch: Choice)
    requires Accounted(s) && tid in s.threads && s.threads[tid] == Inviting(req, EmailFree(m, o))
    requires FreshIds(s.w, ch) && ch.ok
    ensures var (w', pc') := InviteStep(s.w, req, EmailFree(m, o), ch);
            Accounted(State(w', s.threads[tid := Inviting(req, pc')]))
  {
    var (w', pc') := InviteStep(s.w, req, EmailFree(m, o), ch);
    var s' := State(w', s.threads[tid := Inviting(req, pc')]);
    assert !IsMember(s.w.db, ch.user);
    assert forall t, u :: Mints(s', t, u) <==> (Mints(s, t, u) || (t == tid && u == ch.user));
    assert Mints(s', tid, ch.user);
    forall t, u | Mints(s', t, u) ensures ThreadHolds(s', t, u) {
      assert t != tid ==> ThreadHolds(s, t, u);
    }
    forall u | u in w'.log.invitedUsers && !Held(s', u) ensures Unmade(s', u) {
      assert u != ch.user;
      forall t ensures !Mints(s, t, u) {
        assert !Mints(s', t, u);
      }
      assert Unmade(s, u);
    }
  }

  /** A new contact without a grant is nobody's membership yet. */
  lemma StoreFrame(db: Tables, id: ContactId, row: Contact, u: UserId)
    requires ValidSchema(db) && id !in db.contacts && row.user == Some(u)
    ensures var db' := AddContact(db, id, row);
            && (forall c, v :: HoldsUser(db', c, v) <==> (HoldsUser(db, c, v) || (c == id && v == u)))
            && (forall v :: IsMember(db', v) <==> IsMember(db, v))
  {
    var db' := AddContact(db, id, row);
    assert id !in db.grants;
    assert forall c, v :: MemberWith(db', c, v) <==> MemberWith(db, c, v);
  }

  /** A step of thread `tid` that mints nothing and ends nothing: what every other
      user's record needs. */
  lemma MemberFrame(s: State, s': State, u: UserId)
    requires Accounted(s) && s'.w.idp == s.w.idp && s'.w.log == s.w.log && Held(s, u)
    requires forall t, v :: Mints(s', t, v) <==> Mints(s, t, v)
    requires forall v :: v != u ==> (IsMember(s'.w.db, v) <==> IsMember(s.w.db, v))
    ensures forall v :: v in s'.w.log.invitedUsers && !Held(s', v) ==> Unmade(s', v)
  {
    assert forall v :: Held(s', v) <==> Held(s, v);
    forall v | v in s'.w.log.invitedUsers && !Held(s', v) ensures Unmade(s', v) {
      assert Unmade(s, v);
    }
  }

  /** The thread moves on to its stored contact, and the others keep what they have. */
  lemma StoredThreads(s: State, s': State, tid: nat, req: InviteRequest, c: ContactId, u: UserId)
    requires Accounted(s) && Mints(s, tid, u) && s.threads[tid].ipc.Minted?
    requires s'.threads == s.threads[tid := Inviting(req, Stored(c, u))]
    requires s'.w.idp == s.w.idp && s'.w.log == s.w.log && s'.w.db.grants == s.w.db.grants && c !in s.w.db.grants
    requires forall d, v :: HoldsUser(s'.w.db, d, v) <==> (HoldsUser(s.w.db, d, v) || (d == c && v == u))
    requires forall v :: IsMember(s'.w.db, v) <==> IsMember(s.w.db, v)
    ensures forall t, v :: Mints(s', t, v) <==> Mints(s, t, v)
    ensures forall t, v :: Mints(s', t, v) ==> ThreadHolds(s', t, v)
  {
    forall t, v | Mints(s', t, v) ensures ThreadHolds(s', t, v) {
      assert Mints(s, t, v) && ThreadHolds(s, t, v);
    }
  }

  lemma StoreStep(s: State, tid: nat, req: InviteRequest, m: CompanyId, u: UserId, ch: Choice)
    requires Accounted(s) && tid in s.threads && s.threads[tid] == Inviting(req, Minted(m, u))
    requires FreshIds(s.w, ch) && ch.ok && ContactFits(s.w.db, Contact(m, Some(req.email), Some(u), false))
    ensures var (w', pc') := InviteStep(s.w, req, Minted(m, u), ch);
            Accounted(State(w', s.threads[tid := Inviting(req, pc')]))
  {
    var row := Contact(m, Some(req.email), Some(u), false);
    var s' := State(s.w.(db := AddContact(s.w.db, ch.id, row)), s.threads[tid := Inviting(req, Stored(ch.id, u))]);
    assert Mints(s, tid, u);
    AddContactKeepsSchema(s.w.db, ch.id, row);
    StoreFrame(s.w.db, ch.id, row, u);
    StoredThreads(s, s', tid, req, ch.id, u);
    MemberFrame(s, s', u);
    assert Accounted(s');
  }

  /** The thread's user becomes a member, and the others keep what they have. */
  lemma CommittedThreads(s: State, s': State, tid: nat, req: InviteRequest, c: ContactId, u: UserId)
    requires Accounted(s) && Mints(s, tid, u) && s.threads[tid].ipc == Stored(c, u)
    requires s'.threads == s.threads[tid := Inviting(req, Committed(c, u))]
    requires s'.w.idp == s.w.idp && s'.w.log == s.w.log && s'.w.db.grants.Keys == s.w.db.grants.Keys + {c}
    requires s'.w.db.contacts == s.w.db.contacts
    ensures forall t, v :: Mints(s', t, v) <==> Mints(s, t, v)
    ensures forall v :: v != u ==> (IsMember(s'.w.db, v) <==> IsMember(s.w.db, v))
    ensures forall t, v :: Mints(s', t, v) ==> ThreadHolds(s', t, v)
  {
    assert ThreadHolds(s, tid, u);
    assert forall d, v :: HoldsUser(s'.w.db, d, v) <==> HoldsUser(s.w.db, d, v);
    assert forall d, v :: MemberWith(s'.w.db, d, v) <==> (MemberWith(s.w.db, d, v) || (d == c && v == u));
    forall t, v | Mints(s', t, v) ensures ThreadHolds(s', t, v) {
      assert Mints(s, t, v) && ThreadHolds(s, t, v);
      assert t != tid ==> v != u;
    }
  }

  lemma GrantsKeepKnown(db: Tables, d: Directory, grants: map<ContactId, Grant>)
    requires KnownUsers(db, d)
    ensures KnownUsers(db.(grants := grants), d)
  {
    assert forall c, u :: HoldsUser(db.(grants := grants), c, u) ==> HoldsUser(db, c, u);
  }

  lemma CommitStep(s: State, tid: nat, req: InviteRequest, c: ContactId, u: UserId, ch: Choice)
    requires Accounted(s) && tid in s.threads && s.threads[tid] == Inviting(req, Stored(c, u))
    requires ch.ok && req.role.Some?
    ensures var (w', pc') := InviteStep(s.w, req, Stored(c, u), ch);
            Accounted(State(w', s.threads[tid := Inviting(req, pc')]))
  {
    var db' := AddGrant(s.w.db, c, Grant(req.role.value, NotSignedInYet));
    var s' := State(s.w.(db := db'), s.threads[tid := Inviting(req, Committed(c, u))]);
    assert Mints(s, tid, u) && ThreadHolds(s, tid, u);
    GrantsKeepSchema(s.w.db, db'.grants);
    CommittedThreads(s, s', tid, req, c, u);
    MemberFrame(s, s', u);
    GrantsKeepKnown(s.w.db, s.w.idp, db'.grants);
    assert Accounted(s');
  }

  /** Undoing one user leaves the threads and the record of every other user alone. */
  lemma UndoFrame(s: State, s': State, tid: nat, u: UserId)
    requires Accounted(s) && Mints(s, tid, u) && s'.w.db == s.w.db
    requires s'.threads.Keys == s.threads.Keys && MintedBy(s'.threads[tid]) == None
    requires forall t :: t in s.threads && t != tid ==> s'.threads[t] == s.threads[t]
    requires s'.w.log.invitedUsers == s.w.log.invitedUsers
    requires forall v :: v != u ==>
               && (v in s'.w.idp.users <==> v in s.w.idp.users)
               && s'.w.log.removeUserCalls[v] == s.w.log.removeUserCalls[v]
               && (v in s'.w.log.failedUserRemovals <==> v in s.w.log.failedUserRemovals)
    ensures forall t, v :: Mints(s', t, v) <==> Mints(s, t, v) && t != tid
    ensures forall t, v :: Mints(s', t, v) ==> ThreadHolds(s', t, v)
    ensures forall v :: v in s'.w.log.invitedUsers && !Held(s', v) && v != u ==> Unmade(s', v)
  {
    forall t, v | Mints(s', t, v) ensures ThreadHolds(s', t, v) {
      assert Mints(s, t, v) && t != tid;
      assert ThreadHolds(s, t, v) && v != u;
    }
    forall v | v in s'.w.log.invitedUsers && !Held(s', v) && v != u ensures Unmade(s', v) {
      forall t ensures !Mints(s, t, v) {
        assert !Mints(s', t, v);
      }
      assert Unmade(s, v);
    }
  }

  lemma UndoStep(s: State, tid: nat, req: InviteRequest, u: UserId, ch: Choice)
    requires Accounted(s) && tid in s.threads && s.threads[tid] == Inviting(req, Undoing(u))
    ensures var (w', pc') := InviteStep(s.w, req, Undoing(u), ch);
            Accounted(State(w', s.threads[tid := Inviting(req, pc')]))
  {
    var (w', pc') := InviteStep(s.w, req, Undoing(u), ch);
    var s' := State(w', s.threads[tid := Inviting(req, pc')]);
    assert Mints(s, tid, u) && ThreadHolds(s, tid, u);
    UndoFrame(s, s', tid, u);
    assert Unmade(s', u);
  }

  /** Changing statuses, roles and archive marks leaves the accounts alone. */
  lemma QuietTables(s: State, tid: nat, db': Tables, t': Thread)
    requires Accounted(s) && ValidSchema(db') && !t'.Inviting? && (tid in s.threads ==> !s.threads[tid].Inviting?)
    requires db'.grants.Keys == s.w.db.grants.Keys
    requires forall c, u :: HoldsUser(db', c, u) <==> HoldsUser(s.w.db, c, u)
    ensures Accounted(State(s.w.(db := db'), s.threads[tid := t']))
  {
    QuietStep(s, State(s.w.(db := db'), s.threads[tid := t']), tid);
  }

  lemma OtherThreadsFrame(rules: Rules, w: World, t: Thread, ch: Choice)
    requires !t.Inviting?
    ensures var (w', t') := Advance(rules, w, t, ch);
            && !t'.Inviting? && w' == w.(db := w'.db)
            && w'.db.grants.Keys == w.db.grants.Keys
            && forall c, u :: HoldsUser(w'.db, c, u) <==> HoldsUser(w.db, c, u)
  {
  }

  lemma InviteStepKeepsAccounts(rules: Rules, s: State, l: Label)
    requires Accounted(s) && Enabled(s, l) && l.Step? && s.threads[l.tid].Inviting?
    ensures Accounted(Next(rules, s, l))
  {
    var req, pc := s.threads[l.tid].invite, s.threads[l.tid].ipc;
    var (w', pc') := InviteStep(s.w, req, pc, l.ch);
    var s' := State(w', s.threads[l.tid := Inviting(req, pc')]);
    assert Next(rules, s, l) == s';
    if w' == s.w {
      if pc.Stored? { assert Mints(s, l.tid, pc.user); }
      QuietStep(s, s', l.tid);
    } else {
      match pc
      case EmailFree(m, o) => MintStep(s, l.tid, req, m, o, l.ch);
      case Minted(m, u) => StoreStep(s, l.tid, req, m, u, l.ch);
      case Stored(c, u) => CommitStep(s, l.tid, req, c, u, l.ch);
      case Undoing(u) => UndoStep(s, l.tid, req, u, l.ch);
    }
  }

  lemma StepKeepsAccounts(rules: Rules, s: State, l: Label)
    requires Accounted(s) && Enabled(s, l)
    ensures Accounted(Next(rules, s, l))
  {
    if l.Spawn? {
      QuietStep(s, Next(rules, s, l), l.tid);
    } else if s.threads[l.tid].Inviting? {
      InviteStepKeepsAccounts(rules, s, l);
    } else {
      var (w', t') := Advance(rules, s.w, s.threads[l.tid], l.ch);
      StepKeepsSchema(rules, s, l);
      OtherThreadsFrame(rules, s.w, s.threads[l.tid], l.ch);
      QuietTables(s, l.tid, w'.db, t');
    }
  }

  lemma {:induction false} RunKeepsAccounts(rules: Rules, s: State, ls: seq<Label>)
    requires Start(s) && Legal(rules, s, ls)
    ensures Accounted(Final(rules, s, ls))
  {
    if ls == [] {
    } else {
      var before := ls[..|ls| - 1];
      RunKeepsAccounts(rules, s, before);
      StepKeepsAccounts(rules, Final(rules, s, before), ls[|ls| - 1]);
    }
  }

  // ------------------------------------------------------- the theorem

  /** The invites that produced both a contact and a grant. */
  function CommittedInvites(s: State): set<nat> {
    set tid | tid in s.threads && s.threads[tid].Inviting? && s.threads[tid].ipc.Committed?
  }

  /** The users of invites that have minted one and are not over yet. */
  function UnfinishedUsers(s: State): set<UserId> {
    set tid | tid in s.threads && MintedBy(s.threads[tid]).Some? && !s.threads[tid].ipc.Committed? :: MintedBy(s.threads[tid]).value
  }

  function CommittedUsers(s: State): set<UserId> {
    set tid | tid in CommittedInvites(s) :: MintedBy(s.threads[tid]).value
  }

  function LiveInvited(s: State): set<UserId> {
    s.w.log.invitedUsers * s.w.idp.users.Keys
  }

  lemma {:induction false} ImageSize(s: State, tids: set<nat>)
    requires forall t :: t in tids ==> t in s.threads && MintedBy(s.threads[t]).Some?
    requires forall a, b, u :: Mints(s, a, u) && Mints(s, b, u) ==> a == b
    ensures |set t | t in tids :: MintedBy(s.threads[t]).value| == |tids|
  {
    if tids == {} {
    } else {
      var x :| x in tids;
      ImageSize(s, tids - {x});
      var all := set t | t in tids :: MintedBy(s.threads[t]).value;
      var rest := set t | t in tids - {x} :: MintedBy(s.threads[t]).value;
      var u := MintedBy(s.threads[x]).value;
      assert Mints(s, x, u);
      forall t | t in tids - {x} ensures MintedBy(s.threads[t]).value != u {
        assert Mints(s, t, MintedBy(s.threads[t]).value);
      }
      assert all == rest + {u};
    }
  }

  lemma HeldSplits(s: State, u: UserId)
    requires Accounted(s)
    ensures Held(s, u) <==> u in CommittedUsers(s) || u in UnfinishedUsers(s)
    ensures !(u in CommittedUsers(s) && u in UnfinishedUsers(s))
    ensures Held(s, u) ==> u in LiveInvited(s) && u !in s.w.log.failedUserRemovals && s.w.log.removeUserCalls[u] == 0
  {
    if Held(s, u) {
      var t :| Mints(s, t, u);
      assert ThreadHolds(s, t, u);
      if s.threads[t].ipc.Committed? { assert t in CommittedInvites(s); }
    }
    if u in CommittedUsers(s) {
      var a :| a in CommittedInvites(s) && MintedBy(s.threads[a]).value == u;
      assert Mints(s, a, u);
      if u in UnfinishedUsers(s) {
        var b :| b in s.threads && MintedBy(s.threads[b]) == Some(u) && !s.threads[b].ipc.Committed?;
        assert Mints(s, b, u);
      }
    } else if u in UnfinishedUsers(s) {
      var b :| b in s.threads && MintedBy(s.threads[b]) == Some(u) && !s.threads[b].ipc.Committed?;
      assert Mints(s, b, u);
    }
  }

  lemma LiveSplits(s: State)
    requires Accounted(s)
    ensures LiveInvited(s) == CommittedUsers(s) + s.w.log.failedUserRemovals + UnfinishedUsers(s)
    ensures CommittedUsers(s) !! s.w.log.failedUserRemovals !! UnfinishedUsers(s)
  {
    forall u ensures u in LiveInvited(s) <==> u in CommittedUsers(s) + s.w.log.failedUserRemovals + UnfinishedUsers(s) {
      HeldSplits(s, u);
      if u in s.w.log.invitedUsers && !Held(s, u) { assert Unmade(s, u); }
    }
    forall u ensures !(u in CommittedUsers(s) && u in UnfinishedUsers(s))
      ensures u in s.w.log.failedUserRemovals ==> u !in CommittedUsers(s) && u !in UnfinishedUsers(s)
    {
      HeldSplits(s, u);
    }
  }

  lemma CommittedUsersAreMembers(s: State)
    requires Accounted(s)
    ensures forall u :: u in s.w.log.invitedUsers ==> (IsMember(s.w.db, u) <==> u in CommittedUsers(s))
  {
    forall u | u in s.w.log.invitedUsers ensures IsMember(s.w.db, u) <==> u in CommittedUsers(s) {
      if Held(s, u) {
        var t :| Mints(s, t, u);
        assert ThreadHolds(s, t, u);
        if s.threads[t].ipc.Committed? {
          assert t in CommittedInvites(s);
        }
        forall b | b in CommittedInvites(s) && MintedBy(s.threads[b]).value == u ensures b == t {
          assert Mints(s, b, u);
        }
      } else {
        assert Unmade(s, u);
        forall b | b in CommittedInvites(s) ensures MintedBy(s.threads[b]).value != u {
          assert Mints(s, b, MintedBy(s.threads[b]).value);
        }
      }
    }
  }

  /** After any run from the start, exactly: the live users that invites minted are
      those of the committed invites, those whose removal failed, and those of
      invites still under way, with no overlap; the committed ones are the users of
      contacts that hold a grant, one per invite; and RemoveUser was called once for
      every user whose invite ended uncommitted and never for any other. */
  lemma InvitesConserveUsers(rules: Rules, s0: State, ls: seq<Label>)
    requires Start(s0) && Legal(rules, s0, ls)
    ensures var s := Final(rules, s0, ls);
            var failed := s.w.log.failedUserRemovals;
            && LiveInvited(s) == CommittedUsers(s) + failed + UnfinishedUsers(s)
            && CommittedUsers(s) !! failed !! UnfinishedUsers(s)
            && |CommittedUsers(s)| == |CommittedInvites(s)|
            && (forall u :: u in s.w.log.invitedUsers ==> (IsMember(s.w.db, u) <==> u in CommittedUsers(s)))
            && (forall u :: s.w.log.removeUserCalls[u] ==
                  if u in s.w.log.invitedUsers && u !in CommittedUsers(s) && u !in UnfinishedUsers(s) then 1 else 0)
  {
    RunKeepsAccounts(rules, s0, ls);
    var s := Final(rules, s0, ls);
    CommittedUsersAreMembers(s);
    ImageSize(s, CommittedInvites(s));
    LiveSplits(s);
    forall u ensures s.w.log.removeUserCalls[u] ==
        if u in s.w.log.invitedUsers && u !in CommittedUsers(s) && u !in UnfinishedUsers(s) then 1 else 0
    {
      HeldSplits(s, u);
      if u in s.w.log.invitedUsers && !Held(s, u) { assert Unmade(s, u); }
    }
  }

  /** Once every invite is over, the count the invites leave behind. */
  lemma InvitesConserveCounts(rules: Rules, s0: State, ls: seq<Label>)
    requires Start(s0) && Legal(rules, s0, ls)
    requires forall tid :: tid in Final(rules, s0, ls).threads && Final(rules, s0, ls).threads[tid].Inviting?
               ==> InviteEnded(Final(rules, s0, ls).threads[tid].ipc)
    ensures var s := Final(rules, s0, ls);
            |LiveInvited(s)| == |CommittedInvites(s)| + |s.w.log.failedUserRemovals|
  {
    InvitesConserveUsers(rules, s0, ls);
    var s := Final(rules, s0, ls);
    assert UnfinishedUsers(s) == {};
    assert LiveInvited(s) == CommittedUsers(s) + s.w.log.failedUserRemovals;
  }
}
