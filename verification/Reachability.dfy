/** What can still happen: when an installation can still succeed, and how many
    install requests may overlap before a ready workspace is at risk. */
module Reachability {
  import opened Schema
  import opened Contract
  import opened Install
  import opened Lifecycle
  import opened Accounts
  import opened Phases
  import opened Lifetime
  import Team

  // ------------------------------------------------------- fresh ids

  lemma {:induction false} FreshString(used: set<string>) returns (x: string)
    ensures x != "" && x !in used
    ensures forall y :: y in used ==> |y| < |x|
  {
    if used == {} {
      x := "x";
    } else {
      var y :| y in used;
      var x' := FreshString(used - {y});
      x := x' + y;
      assert |x| > |y|;
    }
  }

  lemma {:induction false} FreshNumber(used: set<nat>) returns (x: nat)
    ensures forall y :: y in used ==> y < x
  {
    if used == {} {
      x := 0;
    } else {
      var y :| y in used;
      var x' := FreshNumber(used - {y});
      x := x' + y + 1;
      forall z | z in used ensures z < x { assert z == y || z in used - {y}; }
    }
  }

  /** Ids that nobody has used yet. */
  lemma FreshChoice(w: World) returns (ch: Choice)
    ensures ch.ok && FreshIds(w, ch)
  {
    var org := FreshString(w.idp.everOrgs);
    var user := FreshString(w.idp.everUsers);
    var id := FreshNumber(w.db.contacts.Keys + w.db.companies.Keys);
    ch := Choice(true, org, user, "p", "c", id);
  }

  // ----------------------------------------------------- building runs

  predicate NoRestart(ls: seq<Label>) {
    forall i :: 0 <= i < |ls| ==> !ls[i].Restart?
  }

  lemma Push(atomic_: bool, s: State, ls: seq<Label>, k: nat, l: Label) returns (ls': seq<Label>)
    requires Legal(atomic_, s, ls) && AtMost(atomic_, s, ls, k) && Enabled(Final(atomic_, s, ls), l)
    requires |Busy(Next(atomic_, Final(atomic_, s, ls), l).proc)| <= k
    ensures Legal(atomic_, s, ls') && AtMost(atomic_, s, ls', k)
    ensures Final(atomic_, s, ls') == Next(atomic_, Final(atomic_, s, ls), l)
    ensures NoRestart(ls) && !l.Restart? ==> NoRestart(ls')
  {
    Extend(atomic_, s, ls, l);
    ls' := ls + [l];
    assert ls'[..|ls'| - 1] == ls;
  }

  /** The state with thread `tid` at `pc` of the saga over the world `w`. */
  function At(p: Process, tid: nat, w: World, pc: RunPc): State
    requires p.Up? && tid in p.threads
  {
    State(w, p.(threads := p.threads[tid := p.threads[tid].(pc := Running(pc))]))
  }

  /** One step of the saga that succeeds, or fails. */
  lemma PushRun(atomic_: bool, s: State, ls: seq<Label>, k: nat, p: Process, tid: nat, w: World, pc: RunPc, ok: bool)
    returns (ls': seq<Label>, ch: Choice)
    requires Legal(atomic_, s, ls) && AtMost(atomic_, s, ls, k) && p.Up? && tid in p.threads
    requires Final(atomic_, s, ls) == At(p, tid, w, pc) && !pc.Finished? && !pc.OnReady?
    ensures ch.ok == ok && FreshIds(w, ch) && Legal(atomic_, s, ls') && AtMost(atomic_, s, ls', k)
    ensures var (w', pc') := RunStep(p.cfg, w, p.threads[tid].request.email, pc, ch);
            Final(atomic_, s, ls') == At(p, tid, w', pc')
    ensures NoRestart(ls) ==> NoRestart(ls')
  {
    ch := FreshChoice(w);
    ch := ch.(ok := ok);
    var (w', pc') := RunStep(p.cfg, w, p.threads[tid].request.email, pc, ch);
    var u := At(p, tid, w, pc).proc;
    assert u.threads[tid := u.threads[tid].(pc := Running(pc'))] == At(p, tid, w', pc').proc.threads;
    assert Next(atomic_, At(p, tid, w, pc), Advance(tid, ch)) == At(p, tid, w', pc');
    assert Busy(At(p, tid, w', pc').proc) == Busy(u);
    ls' := Push(atomic_, s, ls, k, Advance(tid, ch));
  }

  /** A Run that has not failed yet, and has nothing in its way. */
  ghost predicate Promising(w: World, cfg: Config, pc: RunPc) {
    && Base(w) && RunOk(w, cfg, pc) && RunRank(pc) >= 3
    && (!BeyondCompany(pc) ==> !HasMsp(w.db))
  }

  /** No insert of the saga can be refused. */
  predicate Clear(db: Tables, pc: RunPc) {
    match pc
    case MakeContact(_, m) => m in db.companies && db.contacts == map[]
    case MakeGrant(_, c) => c in db.contacts && db.grants == map[]
    case _ => BeyondCompany(pc) || db.companies == map[]
  }

  lemma PromisingIsClear(w: World, cfg: Config, pc: RunPc)
    requires Promising(w, cfg, pc)
    ensures Clear(w.db, pc)
  {
    if !BeyondCompany(pc) { RowsOfMspOnly(w.db); }
  }

  lemma ClearSucceeds(cfg: Config, w: World, email: string, pc: RunPc, ch: Choice)
    requires Clear(w.db, pc) && RunRank(pc) > 3 && ch.ok
    ensures var (w', pc') := RunStep(cfg, w, email, pc, ch);
            RunRank(pc') == RunRank(pc) - 1 && (!BeyondCompany(pc') ==> !HasMsp(w'.db))
  {
  }

  /** A successful step keeps it so. */
  lemma PromiseKept(cfg: Config, w: World, email: string, pc: RunPc, ch: Choice)
    requires Promising(w, cfg, pc) && !pc.OnReady? && ch.ok && FreshIds(w, ch)
    ensures var (w', pc') := RunStep(cfg, w, email, pc, ch); Promising(w', cfg, pc') && RunRank(pc') == RunRank(pc) - 1
  {
    RunStepOk(cfg, w, email, pc, ch);
    PromisingIsClear(w, cfg, pc);
    ClearSucceeds(cfg, w, email, pc, ch);
  }

  /** The saga succeeds step by step until as many steps are left as we like, and at
      least OnReady. */
  lemma {:induction false} RunUntil(atomic_: bool, s: State, ls: seq<Label>, k: nat, p: Process, tid: nat,
                                    w: World, pc: RunPc, left: nat)
    returns (ls': seq<Label>, w': World, pc': RunPc)
    requires Legal(atomic_, s, ls) && AtMost(atomic_, s, ls, k) && p.Up? && tid in p.threads
    requires Final(atomic_, s, ls) == At(p, tid, w, pc) && Promising(w, p.cfg, pc) && 3 <= left <= RunRank(pc)
    ensures Legal(atomic_, s, ls') && AtMost(atomic_, s, ls', k)
    ensures Final(atomic_, s, ls') == At(p, tid, w', pc') && Promising(w', p.cfg, pc') && RunRank(pc') == left
    ensures NoRestart(ls) ==> NoRestart(ls')
    decreases RunRank(pc)
  {
    ls', w', pc' := ls, w, pc;
    if RunRank(pc) > left {
      var ch;
      ls', ch := PushRun(atomic_, s, ls, k, p, tid, w, pc, true);
      var email := p.threads[tid].request.email;
      PromiseKept(p.cfg, w, email, pc, ch);
      var (w1, pc1) := RunStep(p.cfg, w, email, pc, ch);
      ls', w', pc' := RunUntil(atomic_, s, ls', k, p, tid, w1, pc1, left);
    }
  }

  /** Nothing is in the way of a Run that is about to start. */
  ghost predicate Open(w: World) {
    Base(w) && Fallow(w, {}) && Causes(w) == 0 && !HasMsp(w.db)
  }

  lemma OpenBetween(atomic_: bool, s: State)
    requires Inv(atomic_, s) && !RunInProgress(s.proc) && Eligible(s.w.ws.state) && !HasMsp(s.w.db)
    ensures Open(s.w)
  {
  }

  lemma InitIsOpen()
    ensures Open(INIT.w)
  {
  }

  lemma StartPromises(w: World, cfg: Config)
    requires Open(w)
    ensures Promising(w.(ws := MarkProvisioning(w.ws)), cfg, CreateOrg)
  {
  }

  /** A slot holder starts its Run, and all goes well until `left` steps are left. */
  lemma HolderGets(atomic_: bool, s: State, ls: seq<Label>, k: nat, tid: nat, left: nat)
    returns (ls': seq<Label>, p: Process, w: World, pc: RunPc)
    requires Legal(atomic_, s, ls) && AtMost(atomic_, s, ls, k) && 3 <= left <= RunRank(CreateOrg)
    requires var u := Final(atomic_, s, ls);
             u.proc.Up? && tid in u.proc.threads && u.proc.threads[tid].pc == Holding && Open(u.w)
    ensures Legal(atomic_, s, ls') && AtMost(atomic_, s, ls', k)
    ensures p.Up? && p == Final(atomic_, s, ls).proc.(marks := p.marks)
    ensures Final(atomic_, s, ls') == At(p, tid, w, pc) && Promising(w, p.cfg, pc) && RunRank(pc) == left
    ensures NoRestart(ls) ==> NoRestart(ls')
  {
    var u := Final(atomic_, s, ls);
    var ch := FreshChoice(u.w);
    p := u.proc.(marks := u.proc.marks + 1);
    w := u.w.(ws := MarkProvisioning(u.w.ws));
    StartPromises(u.w, p.cfg);
    assert Next(atomic_, u, Advance(tid, ch)) == At(p, tid, w, CreateOrg);
    assert Busy(At(p, tid, w, CreateOrg).proc) == Busy(u.proc);
    ls' := Push(atomic_, s, ls, k, Advance(tid, ch));
    ls', w, pc := RunUntil(atomic_, s, ls', k, p, tid, w, CreateOrg, left);
  }

  lemma DonePromises(w: World, cfg: Config, pc: RunPc)
    requires Promising(w, cfg, pc) && RunRank(pc) == 3
    ensures pc.OnReady? && w.ws.state == Ready
  {
  }

  // ---------------------------------------------- getting hold of the slot

  const SOME_CONFIG: Config := Config("issuer", "admin", "client", [])
  const GOOD_REQUEST: InstallRequest := InstallRequest(true, true, "admin@msp")

  /** The slot is free and no request is on its way to it: a new one gets it. */
  lemma FreshHolder(atomic_: bool, s: State, ls: seq<Label>) returns (ls': seq<Label>, tid: nat)
    requires Legal(atomic_, s, ls) && AtMost(atomic_, s, ls, 1)
    requires var u := Final(atomic_, s, ls);
             u.proc.Up? && Busy(u.proc) == {} && !u.proc.inflight && Eligible(u.w.ws.state)
    ensures Legal(atomic_, s, ls') && AtMost(atomic_, s, ls', 1)
    ensures var u' := Final(atomic_, s, ls');
            u'.proc.Up? && u'.w == Final(atomic_, s, ls).w && tid in u'.proc.threads && u'.proc.threads[tid].pc == Holding
    ensures NoRestart(ls) ==> NoRestart(ls')
  {
    var u := Final(atomic_, s, ls);
    tid := FreshNumber(u.proc.threads.Keys);
    var ch := FreshChoice(u.w);
    assert Busy(Next(atomic_, u, Arrive(tid, GOOD_REQUEST)).proc) == {};
    ls' := Push(atomic_, s, ls, 1, Arrive(tid, GOOD_REQUEST));
    var u1 := Final(atomic_, s, ls');
    assert Busy(Next(atomic_, u1, Advance(tid, ch)).proc) == {tid};
    ls' := Push(atomic_, s, ls', 1, Advance(tid, ch));
    if !atomic_ {
      var u2 := Final(atomic_, s, ls');
      assert Busy(Next(atomic_, u2, Advance(tid, ch)).proc) == {tid};
      ls' := Push(atomic_, s, ls', 1, Advance(tid, ch));
    }
  }

  /** Whoever is on the way to the slot, or still holds it, gets out of the way or
      becomes the holder; so the slot always comes back. */
  lemma SomeHolder(atomic_: bool, s: State, ls: seq<Label>) returns (ls': seq<Label>, tid: nat)
    requires Legal(atomic_, s, ls) && AtMost(atomic_, s, ls, 1)
    requires var u := Final(atomic_, s, ls);
             u.proc.Up? && SlotOk(u.proc) && Alone(u.proc) && !RunInProgress(u.proc) && Eligible(u.w.ws.state)
    ensures Legal(atomic_, s, ls') && AtMost(atomic_, s, ls', 1)
    ensures var u' := Final(atomic_, s, ls');
            u'.proc.Up? && u'.w == Final(atomic_, s, ls).w && tid in u'.proc.threads && u'.proc.threads[tid].pc == Holding
    ensures NoRestart(ls) ==> NoRestart(ls')
  {
    var u := Final(atomic_, s, ls);
    if Busy(u.proc) == {} {
      assert forall a :: Owner(u.proc, a) ==> a in Busy(u.proc);
      ls', tid := FreshHolder(atomic_, s, ls);
    } else {
      tid :| tid in Busy(u.proc);
      OthersAreIdle(u.proc, tid);
      var ch := FreshChoice(u.w);
      var pc := u.proc.threads[tid].pc;
      assert !pc.Running? by { assert !RunningThread(u.proc, tid); }
      if pc.Holding? {
        ls' := ls;
      } else if pc.EligibleSeen? {
        assert forall a :: Owner(u.proc, a) ==> a in Busy(u.proc);
        assert !u.proc.inflight;
        assert Busy(Next(atomic_, u, Advance(tid, ch)).proc) == {tid};
        ls' := Push(atomic_, s, ls, 1, Advance(tid, ch));
      } else {
        assert Busy(Next(atomic_, u, Advance(tid, ch)).proc) == {};
        ls' := Push(atomic_, s, ls, 1, Advance(tid, ch));
        ls', tid := FreshHolder(atomic_, s, ls');
      }
    }
  }

  lemma AloneIsOne(p: Process)
    requires Alone(p)
    ensures |Busy(p)| <= 1
  {
    if Busy(p) != {} {
      var a :| a in Busy(p);
      assert Busy(p) == {a};
    }
  }

  // ------------------------------------------------- leaving a failed Run

  lemma RunIsAlone(atomic_: bool, s: State, ls: seq<Label>)
    requires Inv(atomic_, s) && Legal(atomic_, s, ls) && AtMost(atomic_, s, ls, 1)
    ensures Alone(Final(atomic_, s, ls).proc)
  {
    RunKeepsInv(atomic_, s, ls);
    PacedIsAlone(atomic_, s, ls);
  }

  /** The Run is over, and its thread leaves it. */
  lemma LeaveRun(atomic_: bool, s: State, ls: seq<Label>, p: Process, tid: nat, w: World) returns (ls': seq<Label>)
    requires Legal(atomic_, s, ls) && AtMost(atomic_, s, ls, 1) && p.Up? && tid in p.threads
    requires Final(atomic_, s, ls) == At(p, tid, w, Finished(false)) && Alone(Final(atomic_, s, ls).proc)
    ensures Legal(atomic_, s, ls') && AtMost(atomic_, s, ls', 1)
    ensures var u := Final(atomic_, s, ls'); u.w == w && u.proc.Up? && !RunInProgress(u.proc)
    ensures NoRestart(ls) ==> NoRestart(ls')
  {
    var u := At(p, tid, w, Finished(false));
    var ch := FreshChoice(w);
    var v := Next(atomic_, u, Advance(tid, ch));
    assert Busy(v.proc) == Busy(u.proc);
    ls' := Push(atomic_, s, ls, 1, Advance(tid, ch));
    OthersAreIdle(u.proc, tid);
    assert forall a :: RunningThread(v.proc, a) ==> RunningThread(u.proc, a) && a != tid;
  }

  /** The compensation and the mark succeed, from wherever the Run is with them. */
  lemma {:induction false} Compensate(atomic_: bool, s: State, ls: seq<Label>, p: Process, tid: nat, w: World, pc: RunPc)
    returns (ls': seq<Label>, w': World)
    requires Legal(atomic_, s, ls) && AtMost(atomic_, s, ls, 1) && p.Up? && tid in p.threads
    requires Final(atomic_, s, ls) == At(p, tid, w, pc) && (pc.Undo? || pc.MarkFailed?)
    ensures Legal(atomic_, s, ls') && AtMost(atomic_, s, ls', 1)
    ensures Final(atomic_, s, ls') == At(p, tid, w', Finished(false)) && w'.ws.state == Failed
    ensures w'.db == w.db && w'.ws.orgId == w.ws.orgId
    ensures w'.idp == if pc.Undo? then DropOrg(w.idp, pc.created) else w.idp
    ensures NoRestart(ls) ==> NoRestart(ls')
    decreases RunRank(pc)
  {
    var ch;
    ls', ch := PushRun(atomic_, s, ls, 1, p, tid, w, pc, true);
    var (w1, pc1) := RunStep(p.cfg, w, p.threads[tid].request.email, pc, ch);
    if pc.Undo? {
      ls', w' := Compensate(atomic_, s, ls', p, tid, w1, pc1);
    } else {
      w' := w1;
    }
  }

  // ---------------------------------------------- an install that succeeds

  /** From a state in between, in the same process. */
  lemma InstallFrom(atomic_: bool, s: State, ls: seq<Label>) returns (ls': seq<Label>)
    requires Inv(atomic_, s) && Legal(atomic_, s, ls) && AtMost(atomic_, s, ls, 1)
    requires var u := Final(atomic_, s, ls);
             u.proc.Up? && !RunInProgress(u.proc) && Eligible(u.w.ws.state) && !HasMsp(u.w.db)
    ensures Legal(atomic_, s, ls') && AtMost(atomic_, s, ls', 1) && Final(atomic_, s, ls').w.ws.state == Ready
    ensures NoRestart(ls) ==> NoRestart(ls')
  {
    RunKeepsInv(atomic_, s, ls);
    PacedIsAlone(atomic_, s, ls);
    OpenBetween(atomic_, Final(atomic_, s, ls));
    var tid, p, w, pc;
    ls', tid := SomeHolder(atomic_, s, ls);
    ls', p, w, pc := HolderGets(atomic_, s, ls', 1, tid, 3);
    DonePromises(w, p.cfg, pc);
  }

  lemma RunnerAt(p: Process, tid: nat, w: World)
    requires RunningThread(p, tid)
    ensures State(w, p) == At(p, tid, w, p.threads[tid].pc.run)
  {
    assert p.threads[tid := p.threads[tid].(pc := Running(p.threads[tid].pc.run))] == p.threads;
  }

  lemma OnlyRunner(s: State, tid: nat)
    requires Alone(s.proc) && RunningThread(s.proc, tid)
    ensures forall a :: RunningThread(s.proc, a) ==> a == tid
    ensures !Wedged(s) && s.w.ws.state != Ready && !BeyondCompany(s.proc.threads[tid].pc.run) ==> !HasMsp(s.w.db)
    ensures !Stuck(s) && s.w.ws.state == Provisioning ==> !s.proc.threads[tid].pc.run.Finished?
  {
    forall a | RunningThread(s.proc, a) ensures a == tid {
      assert a in Busy(s.proc) && tid in Busy(s.proc);
    }
  }

  /** A Run on its way gets there; one that is failing makes way for another. */
  lemma RunInstalls(atomic_: bool, s: State, tid: nat) returns (ls: seq<Label>)
    requires Inv(atomic_, s) && Alone(s.proc) && RunningThread(s.proc, tid)
    requires !Wedged(s) && !Stuck(s) && s.w.ws.state != Ready
    ensures Legal(atomic_, s, ls) && AtMost(atomic_, s, ls, 1) && NoRestart(ls)
    ensures Final(atomic_, s, ls).w.ws.state == Ready
  {
    var pc := s.proc.threads[tid].pc.run;
    var w := s.w;
    AloneIsOne(s.proc);
    RunnerAt(s.proc, tid, w);
    OnlyRunner(s, tid);
    assert RunOk(w, s.proc.cfg, pc);
    ls := [];
    if RunRank(pc) >= 3 {
      ls, w, pc := RunUntil(atomic_, s, ls, 1, s.proc, tid, w, pc, 3);
      DonePromises(w, s.proc.cfg, pc);
    } else {
      if !pc.Finished? { ls, w := Compensate(atomic_, s, ls, s.proc, tid, w, pc); }
      RunIsAlone(atomic_, s, ls);
      ls := LeaveRun(atomic_, s, ls, s.proc, tid, w);
      ls := InstallFrom(atomic_, s, ls);
    }
  }

  /** From every state that is not ready, wedged or stuck, in the running process, without
      a restart and with one request at a time. */
  lemma CleanInstallSucceeds(atomic_: bool, s: State) returns (ls: seq<Label>)
    requires Inv(atomic_, s) && Alone(s.proc) && s.proc.Up? && s.w.ws.state != Ready && !Wedged(s) && !Stuck(s)
    ensures Legal(atomic_, s, ls) && AtMost(atomic_, s, ls, 1) && NoRestart(ls)
    ensures Final(atomic_, s, ls).w.ws.state == Ready
  {
    AloneIsOne(s.proc);
    if tid :| RunningThread(s.proc, tid) {
      ls := RunInstalls(atomic_, s, tid);
    } else {
      ls := InstallFrom(atomic_, s, []);
    }
  }

  /** There is a run from `s` to a ready workspace. */
  ghost predicate CanBecomeReady(atomic_: bool, s: State) {
    exists ls: seq<Label> :: Legal(atomic_, s, ls) && Paced(atomic_, s, ls) && Final(atomic_, s, ls).w.ws.state == Ready
  }

  /** With no process running, one is started first. */
  lemma FirstHolder(atomic_: bool, s: State) returns (ls: seq<Label>, tid: nat)
    requires s.proc.Down? && Eligible(s.w.ws.state)
    ensures Legal(atomic_, s, ls) && AtMost(atomic_, s, ls, 1)
    ensures var u := Final(atomic_, s, ls);
            u.proc.Up? && u.w == s.w && tid in u.proc.threads && u.proc.threads[tid].pc == Holding
  {
    ls := Push(atomic_, s, [], 1, Restart(SOME_CONFIG, true, true));
    ls, tid := FreshHolder(atomic_, s, ls);
  }

  lemma StartedInstallSucceeds(atomic_: bool, s: State)
    requires Inv(atomic_, s) && s.proc.Down? && Eligible(s.w.ws.state) && !HasMsp(s.w.db)
    ensures CanBecomeReady(atomic_, s)
  {
    OpenBetween(atomic_, s);
    var p, w, pc;
    var ls, tid := FirstHolder(atomic_, s);
    ls, p, w, pc := HolderGets(atomic_, s, ls, 1, tid, 3);
    DonePromises(w, p.cfg, pc);
    assert Paced(atomic_, s, ls);
  }

  /** Exactly when an installation can still succeed, at any moment: the workspace is not
      stuck in provisioning, and no MSP row is left over from another attempt. */
  lemma InstallableIff(atomic_: bool, s: State)
    requires Inv(atomic_, s) && Alone(s.proc)
    ensures CanBecomeReady(atomic_, s) <==> !Wedged(s) && !Stuck(s)
  {
    if Wedged(s) || Stuck(s) {
      forall ls: seq<Label> | Legal(atomic_, s, ls) && Paced(atomic_, s, ls) ensures Final(atomic_, s, ls).w.ws.state != Ready {
        NeverReady(atomic_, s, ls);
      }
    } else if s.w.ws.state == Ready {
      AloneIsOne(s.proc);
      assert Legal(atomic_, s, []) && Paced(atomic_, s, []) && Final(atomic_, s, []).w.ws.state == Ready;
    } else if s.proc.Up? {
      var ls := CleanInstallSucceeds(atomic_, s);
      assert Paced(atomic_, s, ls);
    } else {
      StartedInstallSucceeds(atomic_, s);
    }
  }

  lemma ContactPromises(w: World, cfg: Config, pc: RunPc)
    requires Promising(w, cfg, pc) && RunRank(pc) == 6
    ensures pc.MakeContact? && HasMsp(w.db) && w.ws.orgId == Some(pc.ids.org)
  {
    assert IsMsp(w.db, pc.company);
  }

  lemma ContactFails(atomic_: bool, s: State, ls: seq<Label>, p: Process, tid: nat, w: World, pc: RunPc)
    returns (ls': seq<Label>)
    requires Legal(atomic_, s, ls) && AtMost(atomic_, s, ls, 1) && p.Up? && tid in p.threads && pc.MakeContact?
    requires Final(atomic_, s, ls) == At(p, tid, w, pc)
    ensures Legal(atomic_, s, ls') && AtMost(atomic_, s, ls', 1)
    ensures Final(atomic_, s, ls') == At(p, tid, w, Undo(pc.ids.org, "materialize_team"))
  {
    var ch;
    ls', ch := PushRun(atomic_, s, ls, 1, p, tid, w, pc, false);
  }

  /** A first installation whose contact insert fails, up to its compensation. */
  lemma FirstInstallFails(atomic_: bool)
    returns (ls: seq<Label>, p: Process, tid: nat, w: World, ids: Ids)
    ensures Legal(atomic_, INIT, ls) && AtMost(atomic_, INIT, ls, 1) && p.Up? && tid in p.threads
    ensures Final(atomic_, INIT, ls) == At(p, tid, w, Undo(ids.org, "materialize_team"))
    ensures HasMsp(w.db) && w.ws.orgId == Some(ids.org)
  {
    var pc;
    InitIsOpen();
    ls, tid := FirstHolder(atomic_, INIT);
    ls, p, w, pc := HolderGets(atomic_, INIT, ls, 1, tid, 6);
    ContactPromises(w, p.cfg, pc);
    ids := pc.ids;
    ls := ContactFails(atomic_, INIT, ls, p, tid, w, pc);
  }

  lemma LeftoverIsForGood(atomic_: bool, ls: seq<Label>)
    requires Legal(atomic_, INIT, ls) && Paced(atomic_, INIT, ls)
    requires var s := Final(atomic_, INIT, ls); s.w.ws.state == Failed && HasMsp(s.w.db) && !RunInProgress(s.proc)
    ensures !CanBecomeReady(atomic_, Final(atomic_, INIT, ls))
  {
    RunIsInv(atomic_, ls);
    PacedIsAlone(atomic_, INIT, ls);
    InstallableIff(atomic_, Final(atomic_, INIT, ls));
  }

  /** Where an MSP row is left behind: the compensation succeeds, yet the row names an
      organisation that is gone, and no later installation can succeed. */
  lemma FailedInstallWedges(atomic_: bool) returns (ls: seq<Label>)
    ensures Legal(atomic_, INIT, ls) && AtMost(atomic_, INIT, ls, 1)
    ensures var s := Final(atomic_, INIT, ls);
            && s.w.ws.state == Failed && HasMsp(s.w.db) && !RunInProgress(s.proc)
            && s.w.ws.orgId.Some? && s.w.ws.orgId.value !in s.w.idp.orgs
            && !CanBecomeReady(atomic_, s)
  {
    var p, tid, w, ids;
    InitOk(atomic_);
    ls, p, tid, w, ids := FirstInstallFails(atomic_);
    ls, w := Compensate(atomic_, INIT, ls, p, tid, w, Undo(ids.org, "materialize_team"));
    RunIsAlone(atomic_, INIT, ls);
    ls := LeaveRun(atomic_, INIT, ls, p, tid, w);
    assert ids.org !in w.idp.orgs;
    LeftoverIsForGood(atomic_, ls);
  }

  // ------------------------------------------ overlapping install requests

  /** A run, with at most k requests past their eligibility read at any time, that
      leaves ready with its last step. */
  ghost predicate LeavesReady(atomic_: bool, ls: seq<Label>, l: Label, k: nat) {
    && Legal(atomic_, INIT, ls) && AtMost(atomic_, INIT, ls, k) && Final(atomic_, INIT, ls).w.ws.state == Ready
    && Enabled(Final(atomic_, INIT, ls), l)
    && Next(atomic_, Final(atomic_, INIT, ls), l).w.ws.state != Ready
  }

  ghost predicate ReadyIsAbsorbing(atomic_: bool, k: nat) {
    forall ls: seq<Label>, l: Label :: !LeavesReady(atomic_, ls, l, k)
  }

  lemma PushPair(ls: seq<Label>, l: Label) returns (ls': seq<Label>)
    requires Legal(false, INIT, ls) && AtMost(false, INIT, ls, 2) && Enabled(Final(false, INIT, ls), l)
    requires var p := Next(false, Final(false, INIT, ls), l).proc; p.Up? && p.threads.Keys <= {0, 1}
    ensures Legal(false, INIT, ls') && AtMost(false, INIT, ls', 2)
    ensures Final(false, INIT, ls') == Next(false, Final(false, INIT, ls), l)
  {
    Team.SubsetSize(Busy(Next(false, Final(false, INIT, ls), l).proc), {0, 1});
    ls' := Push(false, INIT, ls, 2, l);
  }

  /** A new process with two requests. */
  function Pair(inflight: bool, pc0: InstallPc, pc1: InstallPc): State {
    State(INIT.w, Up(SOME_CONFIG, inflight, None, 0, map[0 := Thread(GOOD_REQUEST, pc0), 1 := Thread(GOOD_REQUEST, pc1)]))
  }

  lemma PairSteps(ch: Choice)
    requires ch.ok
    ensures AdvanceThread(false, Pair(false, Requested, Requested), 0, ch) == Pair(false, EligibleSeen, Requested)
    ensures AdvanceThread(false, Pair(false, EligibleSeen, Requested), 1, ch) == Pair(false, EligibleSeen, EligibleSeen)
    ensures AdvanceThread(false, Pair(false, EligibleSeen, EligibleSeen), 0, ch) == Pair(true, Holding, EligibleSeen)
  {
    forall inflight: bool, pc0: InstallPc, pc1: InstallPc, pc: InstallPc
      ensures Pair(inflight, pc0, pc1).proc.threads[0 := Thread(GOOD_REQUEST, pc)] == Pair(inflight, pc, pc1).proc.threads
      ensures Pair(inflight, pc0, pc1).proc.threads[1 := Thread(GOOD_REQUEST, pc)] == Pair(inflight, pc0, pc).proc.threads
    {
    }
  }

  lemma TwoArrive() returns (ls: seq<Label>)
    ensures Legal(false, INIT, ls) && AtMost(false, INIT, ls, 2)
    ensures Final(false, INIT, ls) == Pair(false, Requested, Requested)
  {
    ls := PushPair([], Restart(SOME_CONFIG, true, true));
    ls := PushPair(ls, Arrive(0, GOOD_REQUEST));
    ls := PushPair(ls, Arrive(1, GOOD_REQUEST));
  }

  /** Both read an eligible row; one of them then holds the slot. */
  lemma TwoSeeEligible() returns (ls: seq<Label>)
    ensures Legal(false, INIT, ls) && AtMost(false, INIT, ls, 2)
    ensures Final(false, INIT, ls) == Pair(true, Holding, EligibleSeen)
  {
    var ch := FreshChoice(INIT.w);
    PairSteps(ch);
    ls := TwoArrive();
    ls := PushPair(ls, Advance(0, ch));
    ls := PushPair(ls, Advance(1, ch));
    ls := PushPair(ls, Advance(0, ch));
  }

  /** Thread 0 finishes and gives the slot back; thread 1, whose read is stale by
      now, takes it. */
  lemma HandOver(ls: seq<Label>, p: Process, w: World, ids: Ids) returns (ls': seq<Label>)
    requires Legal(false, INIT, ls) && AtMost(false, INIT, ls, 2)
    requires p.Up? && p.threads.Keys == {0, 1} && p.threads[1].pc == EligibleSeen
    requires Final(false, INIT, ls) == At(p, 0, w, OnReady(ids))
    ensures Legal(false, INIT, ls') && AtMost(false, INIT, ls', 2)
    ensures var u := Final(false, INIT, ls');
            u.w == w && u.proc.Up? && 1 in u.proc.threads && u.proc.threads[1].pc == Holding
  {
    var ch := FreshChoice(w);
    ls' := PushPair(ls, Advance(0, ch));
    ls' := PushPair(ls', Advance(0, ch));
    ls' := PushPair(ls', Advance(0, ch));
    assert !Final(false, INIT, ls').proc.inflight;
    ls' := PushPair(ls', Advance(1, ch));
  }

  /** As written, two overlapping requests are enough. */
  lemma AsWrittenLeavesReady() returns (ls: seq<Label>, l: Label)
    ensures LeavesReady(false, ls, l, 2)
  {
    var p, w, pc;
    InitIsOpen();
    ls := TwoSeeEligible();
    ls, p, w, pc := HolderGets(false, INIT, ls, 2, 0, 3);
    DonePromises(w, p.cfg, pc);
    ls := HandOver(ls, p, w, pc.ids);
    var ch := FreshChoice(w);
    l := Advance(1, ch);
  }

  lemma {:induction false} AtMostMore(atomic_: bool, s: State, ls: seq<Label>, k: nat, k': nat)
    requires Legal(atomic_, s, ls) && AtMost(atomic_, s, ls, k) && k <= k'
    ensures AtMost(atomic_, s, ls, k')
  {
    if ls == [] {
    } else {
      AtMostMore(atomic_, s, ls[..|ls| - 1], k, k');
    }
  }

  /** Ready is absorbing exactly when the eligibility read and the slot are one step, or
      at most one install request at a time is past its read. */
  lemma ReadyIsAbsorbingIff(atomic_: bool, k: nat)
    ensures ReadyIsAbsorbing(atomic_, k) <==> atomic_ || k <= 1
  {
    if atomic_ || k <= 1 {
      forall ls: seq<Label>, l: Label ensures !LeavesReady(atomic_, ls, l, k) {
        if LeavesReady(atomic_, ls, l, k) {
          if k <= 1 { AtMostMore(atomic_, INIT, ls, k, 1); }
          RunIsInv(atomic_, ls);
          InstallTransitions(atomic_, Final(atomic_, INIT, ls), l);
        }
      }
    } else {
      var ls, l := AsWrittenLeavesReady();
      AtMostMore(false, INIT, ls, 2, k);
      assert LeavesReady(false, ls, l, k);
    }
  }
}
