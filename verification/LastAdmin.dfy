/** The last-admin guarantee when statements interleave.  A removal's window is the
    time between loading the grant and writing it. */
module LastAdmin {
  import opened Schema
  import opened Team
  import opened Authz
  import opened TeamMachine

  predicate InWindow(t: Thread) {
    t.Guarded? && Removes(t.op) && (t.gpc.GrantLoaded? || t.gpc.Cleared?)
  }

  function Windows(s: State): set<nat> {
    set tid | tid in s.threads && InWindow(s.threads[tid])
  }

  ghost predicate OtherAdmin(grants: map<ContactId, Grant>, c: ContactId) {
    exists a :: a in ActiveAdmins(grants) && a != c
  }

  /** Past its check, or entitled to skip it, a removal knows of another admin. */
  ghost predicate Covered(s: State, tid: nat)
    requires tid in s.threads
  {
    var t := s.threads[tid];
    InWindow(t) && (t.gpc.GrantLoaded? ==> !NeedsGuard(t.op, t.gpc.loaded))
    ==> OtherAdmin(s.w.db.grants, t.c)
  }

  ghost predicate AdminsKept(s: State) {
    && ActiveAdmins(s.w.db.grants) != {}
    && forall tid :: tid in s.threads ==> Covered(s, tid)
  }

  /** At most k removals are inside their windows in every state of the run. */
  ghost predicate Bounded(rules: Rules, s: State, ls: seq<Label>, k: nat)
    requires Legal(rules, s, ls)
  {
    && |Windows(Final(rules, s, ls))| <= k
    && (ls != [] ==> Bounded(rules, s, ls[..|ls| - 1], k))
  }

  lemma OnlyWindow(s: State, a: nat, b: nat)
    requires |Windows(s)| <= 1 && a in Windows(s) && b in Windows(s)
    ensures a == b
  {
    if a != b {
      SubsetSize({a, b}, Windows(s));
    }
  }

  /** A step that is not a removal's write only adds active admins. */
  lemma OtherStepsOnlyAdd(rules: Rules, s: State, l: Label)
    requires ValidSchema(s.w.db) && Enabled(s, l)
    requires l.Step? ==> !(InWindow(s.threads[l.tid]) && s.threads[l.tid].gpc.Cleared?)
    ensures ActiveAdmins(s.w.db.grants) <= ActiveAdmins(Next(rules, s, l).w.db.grants)
  {
    if l.Step? {
      var t := s.threads[l.tid];
      if t.Guarded? && t.gpc.Cleared? {
        PromotionsOnlyAdd(s.w.db, t.op, t.c);
      }
    }
  }

  /** Loading, checking or skipping the check leaves the thread covered. */
  lemma StepCoversItself(rules: Rules, s: State, l: Label)
    requires AdminsKept(s) && Enabled(s, l) && l.Step?
    ensures Covered(Next(rules, s, l), l.tid)
  {
    var t := s.threads[l.tid];
    assert Covered(s, l.tid);
    if t.Guarded? && Removes(t.op) {
      var grants := s.w.db.grants;
      match t.gpc
      case ContactLoaded =>
        if t.c in grants && !NeedsGuard(t.op, grants[t.c]) {
          assert t.c !in ActiveAdmins(grants);
          var a :| a in ActiveAdmins(grants);
          assert OtherAdmin(grants, t.c);
        }
      case GrantLoaded(g) =>
        if CountActiveAdmins(grants) > 1 {
          AnotherAdmin(grants, t.c);
        }
      case _ =>
    }
  }

  lemma StepKeepsAdmins(rules: Rules, s: State, l: Label)
    requires ValidSchema(s.w.db) && AdminsKept(s) && Enabled(s, l) && |Windows(s)| <= 1
    ensures AdminsKept(Next(rules, s, l))
  {
    var s' := Next(rules, s, l);
    if l.Step? && InWindow(s.threads[l.tid]) && s.threads[l.tid].gpc.Cleared? {
      var t := s.threads[l.tid];
      assert Covered(s, l.tid);
      var a :| a in ActiveAdmins(s.w.db.grants) && a != t.c;
      WriteSparesOthers(s.w.db, t.op, t.c);
      assert a in ActiveAdmins(s'.w.db.grants);
      forall tid | tid in s'.threads ensures Covered(s', tid) {
        if tid != l.tid && InWindow(s.threads[tid]) {
          OnlyWindow(s, tid, l.tid);
        }
      }
    } else {
      OtherStepsOnlyAdd(rules, s, l);
      forall tid | tid in s'.threads ensures Covered(s', tid) {
        if l.Step? && tid == l.tid {
          StepCoversItself(rules, s, l);
        } else if tid in s.threads {
          assert Covered(s, tid);
        }
      }
    }
  }

  lemma {:induction false} RunKeepsAdmins(rules: Rules, s: State, ls: seq<Label>)
    requires ValidSchema(s.w.db) && AdminsKept(s)
    requires Legal(rules, s, ls) && Bounded(rules, s, ls, 1)
    ensures ValidSchema(Final(rules, s, ls).w.db) && AdminsKept(Final(rules, s, ls))
  {
    if ls == [] {
    } else {
      var before := ls[..|ls| - 1];
      RunKeepsAdmins(rules, s, before);
      StepKeepsAdmins(rules, Final(rules, s, before), ls[|ls| - 1]);
      StepKeepsSchema(rules, Final(rules, s, before), ls[|ls| - 1]);
    }
  }

  /** From any database with an active admin, whatever promotions, reactivations,
      invites, archivals and sign-ins run beside it, and however stale the loaded
      grant has become: one removal at a time cannot take the last active admin. */
  lemma LastAdminStays(rules: Rules, s: State, ls: seq<Label>)
    requires ValidSchema(s.w.db) && ActiveAdmins(s.w.db.grants) != {} && Windows(s) == {}
    requires Legal(rules, s, ls) && Bounded(rules, s, ls, 1)
    ensures CountActiveAdmins(Final(rules, s, ls).w.db.grants) >= 1
  {
    forall tid | tid in s.threads ensures Covered(s, tid) {
      assert tid !in Windows(s);
    }
    RunKeepsAdmins(rules, s, ls);
  }

  // ---------------------------------- and two windows are already too many

  /** A run with at most k open windows that ends without an active admin. */
  ghost predicate Loses(rules: Rules, s: State, ls: seq<Label>, k: nat) {
    && ValidSchema(s.w.db) && ActiveAdmins(s.w.db.grants) != {} && Windows(s) == {}
    && Legal(rules, s, ls) && Bounded(rules, s, ls, k)
    && ActiveAdmins(Final(rules, s, ls).w.db.grants) == {}
  }

  ghost predicate SafeWith(k: nat) {
    forall rules: Rules, s: State, ls: seq<Label> :: !Loses(rules, s, ls, k)
  }

  const OPEN_RULES: Rules := Rules({}, map[])
  const GO: Choice := Choice(true, "o", "u", "", "", 9)

  /** Two admins, 0 and 1, each being suspended by a thread of the same number. */
  function Duel(grants: map<ContactId, Grant>, pc0: GuardPc, pc1: GuardPc): State {
    var db := Tables(map[0 := Company("msp", true, false, None, "")],
                     map[0 := Contact(0, None, Some("a"), false), 1 := Contact(0, None, Some("b"), false)],
                     grants);
    State(World(Workspace(Ready, None, Some("msp"), None, None, None, None, None, None), db,
                Directory({"msp"}, map["a" := "msp", "b" := "msp"], {"msp"}, {"a", "b"}),
                Ledger({}, multiset{}, {}, {}, {}, {}, 0, 0)),
          map[0 := Guarded(Suspend, 0, pc0), 1 := Guarded(Suspend, 1, pc1)])
  }

  function Both(s: Status): map<ContactId, Grant> {
    map[0 := Grant(Admin, s), 1 := Grant(Admin, s)]
  }

  /** `Step(tid, GO)` leads from one duel to another. */
  ghost predicate Hop(tid: nat, from: State, to: State) {
    Enabled(from, Step(tid, GO)) && Next(OPEN_RULES, from, Step(tid, GO)) == to
  }

  lemma DuelHop(tid: nat, g: map<ContactId, Grant>, pc0: GuardPc, pc1: GuardPc, g': map<ContactId, Grant>, pc': GuardPc)
    requires tid <= 1
    requires var db := Duel(g, pc0, pc1).w.db;
             GuardStep(db, Suspend, tid, if tid == 0 then pc0 else pc1, true) == (db.(grants := g'), pc')
    ensures Hop(tid, Duel(g, pc0, pc1), Duel(g', if tid == 0 then pc' else pc0, if tid == 1 then pc' else pc1))
  {
  }

  /** What the statements of the two suspensions do, before anybody has written. */
  lemma DuelStatements(tid: nat, pc0: GuardPc, pc1: GuardPc)
    requires tid <= 1
    ensures var g, db := Both(Active), Duel(Both(Active), pc0, pc1).w.db;
            var loaded := GrantLoaded(Grant(Admin, Active));
            && GuardStep(db, Suspend, tid, Loading, true) == (db.(grants := g), ContactLoaded)
            && GuardStep(db, Suspend, tid, ContactLoaded, true) == (db.(grants := g), loaded)
            && GuardStep(db, Suspend, tid, loaded, true) == (db.(grants := g), Cleared)
            && GuardStep(db, Suspend, tid, Cleared, true) == (db.(grants := g[tid := Grant(Admin, Suspended)]), Done)
  {
    assert ActiveAdmins(Both(Active)) == {0, 1};
  }

  /** Extend a run by one hop. */
  lemma Push(s: State, ls: seq<Label>, tid: nat, to: State) returns (ls': seq<Label>)
    requires Legal(OPEN_RULES, s, ls) && Bounded(OPEN_RULES, s, ls, 2)
    requires Hop(tid, Final(OPEN_RULES, s, ls), to) && to.threads.Keys <= {0, 1}
    ensures Legal(OPEN_RULES, s, ls') && Bounded(OPEN_RULES, s, ls', 2)
    ensures Final(OPEN_RULES, s, ls') == to
  {
    ls' := ls + [Step(tid, GO)];
    Extend(OPEN_RULES, s, ls, Step(tid, GO));
    assert ls'[..|ls'| - 1] == ls;
    SubsetSize(Windows(to), {0, 1});
  }

  /** From the start of the duel to both suspensions having loaded an active admin. */
  lemma BothLoad(s: State, before: seq<Label>) returns (ls: seq<Label>)
    requires Legal(OPEN_RULES, s, before) && Bounded(OPEN_RULES, s, before, 2)
    requires Final(OPEN_RULES, s, before) == Duel(Both(Active), Loading, Loading)
    ensures Legal(OPEN_RULES, s, ls) && Bounded(OPEN_RULES, s, ls, 2)
    ensures var loaded := GrantLoaded(Grant(Admin, Active));
            Final(OPEN_RULES, s, ls) == Duel(Both(Active), loaded, loaded)
  {
    var g, loaded := Both(Active), GrantLoaded(Grant(Admin, Active));
    DuelStatements(0, Loading, Loading);
    DuelStatements(1, loaded, Loading);
    DuelHop(0, g, Loading, Loading, g, ContactLoaded);
    DuelHop(0, g, ContactLoaded, Loading, g, loaded);
    DuelHop(1, g, loaded, Loading, g, ContactLoaded);
    DuelHop(1, g, loaded, ContactLoaded, g, loaded);
    ls := Push(s, before, 0, Duel(g, ContactLoaded, Loading));
    ls := Push(s, ls, 0, Duel(g, loaded, Loading));
    ls := Push(s, ls, 1, Duel(g, loaded, ContactLoaded));
    ls := Push(s, ls, 1, Duel(g, loaded, loaded));
  }

  /** Both checks pass on two admins, and then both writes land. */
  lemma BothWrite(s: State, before: seq<Label>) returns (ls: seq<Label>)
    requires Legal(OPEN_RULES, s, before) && Bounded(OPEN_RULES, s, before, 2)
    requires var loaded := GrantLoaded(Grant(Admin, Active));
             Final(OPEN_RULES, s, before) == Duel(Both(Active), loaded, loaded)
    ensures Legal(OPEN_RULES, s, ls) && Bounded(OPEN_RULES, s, ls, 2)
    ensures Final(OPEN_RULES, s, ls) == Duel(Both(Suspended), Done, Done)
  {
    var g, loaded := Both(Active), GrantLoaded(Grant(Admin, Active));
    var g1 := g[0 := Grant(Admin, Suspended)];
    assert g1[1 := Grant(Admin, Suspended)] == Both(Suspended);
    DuelStatements(0, loaded, loaded);
    DuelStatements(1, Cleared, loaded);
    DuelHop(0, g, loaded, loaded, g, Cleared);
    DuelHop(1, g, Cleared, loaded, g, Cleared);
    DuelHop(0, g, Cleared, Cleared, g1, Done);
    DuelHop(1, g1, Done, Cleared, Both(Suspended), Done);
    ls := Push(s, before, 0, Duel(g, Cleared, loaded));
    ls := Push(s, ls, 1, Duel(g, Cleared, Cleared));
    ls := Push(s, ls, 0, Duel(g1, Done, Cleared));
    ls := Push(s, ls, 1, Duel(Both(Suspended), Done, Done));
  }

  lemma DuelIsValid(g: map<ContactId, Grant>, pc0: GuardPc, pc1: GuardPc)
    requires g.Keys <= {0, 1}
    ensures ValidSchema(Duel(g, pc0, pc1).w.db)
  {
    var db := Duel(g, pc0, pc1).w.db;
    assert forall c, u :: HoldsUser(db, c, u) ==> (c == 0 && u == "a") || (c == 1 && u == "b");
    assert forall c, co, e :: !HoldsEmail(db, c, co, e);
    assert forall id :: IsMsp(db, id) ==> id == 0;
  }

  lemma DuelEnds()
    ensures ActiveAdmins(Both(Active)) != {} && ActiveAdmins(Both(Suspended)) == {}
    ensures Windows(Duel(Both(Active), Loading, Loading)) == {}
  {
    assert 0 in ActiveAdmins(Both(Active));
  }

  /** Two suspensions that both count two admins before either writes. */
  lemma TwoWindowsLoseTheLastAdmin() returns (s: State, ls: seq<Label>)
    ensures Loses(OPEN_RULES, s, ls, 2)
  {
    s := Duel(Both(Active), Loading, Loading);
    DuelIsValid(Both(Active), Loading, Loading);
    DuelEnds();
    ls := BothLoad(s, []);
    ls := BothWrite(s, ls);
  }

  lemma {:induction false} MoreWindowsAllowed(rules: Rules, s: State, ls: seq<Label>, k: nat, k': nat)
    requires Legal(rules, s, ls) && Bounded(rules, s, ls, k) && k <= k'
    ensures Bounded(rules, s, ls, k')
  {
    if ls == [] {
    } else {
      MoreWindowsAllowed(rules, s, ls[..|ls| - 1], k, k');
    }
  }

  /** Exactly when the guard is enough: at most one removal may be in its window. */
  lemma SafeIffOneWindow(k: nat)
    ensures SafeWith(k) <==> k <= 1
  {
    if k <= 1 {
      forall rules: Rules, s: State, ls: seq<Label> ensures !Loses(rules, s, ls, k) {
        if Loses(rules, s, ls, k) {
          MoreWindowsAllowed(rules, s, ls, k, 1);
          LastAdminStays(rules, s, ls);
        }
      }
    } else {
      var s, ls := TwoWindowsLoseTheLastAdmin();
      MoreWindowsAllowed(OPEN_RULES, s, ls, 2, k);
      assert Loses(OPEN_RULES, s, ls, k);
    }
  }
}
