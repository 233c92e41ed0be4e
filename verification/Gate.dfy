/** The authentication gate of internal/authgate/gate.go: an atomic verifier
    pointer and a chain cached under a mutex, interleaved one load, lock or
    assignment at a time. */
module Gate {
  import opened Schema
  import opened Authz

  datatype Verifier = Verifier(issuer: string, audience: string)

  /** The compiled middleware; it is determined by the verifier it was built from. */
  datatype Chain = Chain(built: Verifier)

  /** What happens to a request: it passes unauthenticated, is turned away, or is
      served through a chain (None would be a nil handler). */
  datatype Outcome = PassThrough | TurnedAway | Through(chain: Option<Chain>)

  /** A verifier pointer: its identity and what it points to, which never changes. */
  datatype Pointer = Pointer(id: nat, target: Verifier)

  datatype Pc =
    | Arrived
    | Loaded(vp: Option<Pointer>)
    | Locked(p: Pointer)
    | Built(p: Pointer)          // cached assigned, cachedVP not yet
    | Fresh(p: Pointer)          // the comparison or both assignments are done
    | Taken(p: Pointer, chain: Option<Chain>)
    | Ended(loaded: Option<Pointer>, outcome: Outcome)

  datatype Thread =
    | Asking(path: string, pc: Pc)
    | Activating(issuer: string, audience: string, stored: Option<Pointer>)

  datatype State = State(verifier: Option<Pointer>, used: set<nat>,
                         lock: Option<nat>, cachedVP: Option<Pointer>, cached: Option<Chain>,
                         threads: map<nat, Thread>)

  /** `discovered` says whether NewJWTVerifier succeeds, `id` is the new pointer's. */
  datatype Label =
    | Spawn(tid: nat, thread: Thread)
    | Step(tid: nat, discovered: bool, id: nat)

  predicate Unstarted(t: Thread) {
    match t
    case Asking(_, pc) => pc == Arrived
    case Activating(_, _, stored) => stored.None?
  }

  /** With no verifier: private Connect procedures are turned away. */
  function Unguarded(isPublic: set<string>, path: string): Outcome {
    if IsConnectProcedure(path) && path !in isPublic then TurnedAway else PassThrough
  }

  /** Only a request waiting for the mutex can be blocked. */
  predicate Blocked(s: State, t: Thread) {
    t.Asking? && t.pc.Loaded? && t.pc.vp.Some? && s.lock.Some?
  }

  predicate Enabled(s: State, l: Label) {
    match l
    case Spawn(tid, t) => tid !in s.threads && Unstarted(t)
    case Step(tid, _, id) => tid in s.threads && id !in s.used && !Blocked(s, s.threads[tid])
  }

  /** One step of a request: shared state after it, and its new program counter. */
  function Serve(isPublic: set<string>, s: State, tid: nat, path: string, pc: Pc): (State, Pc) {
    match pc
    case Arrived => (s, Loaded(s.verifier))
    case Loaded(vp) =>
      if vp.None? then (s, Ended(None, Unguarded(isPublic, path)))
      else (s.(lock := Some(tid)), Locked(vp.value))
    case Locked(p) =>
      if s.cachedVP != Some(p) then (s.(cached := Some(Chain(p.target))), Built(p)) else (s, Fresh(p))
    case Built(p) => (s.(cachedVP := Some(p)), Fresh(p))
    case Fresh(p) => (s, Taken(p, s.cached))
    case Taken(p, chain) => (s.(lock := None), Ended(Some(p), Through(chain)))
    case Ended(_, _) => (s, pc)
  }

  /** Activate: refused on an empty argument or when discovery fails; otherwise a
      new verifier is stored. */
  function Store(s: State, tid: nat, t: Thread, discovered: bool, id: nat): State
    requires t.Activating?
  {
    if t.stored.Some? || t.issuer == "" || t.audience == "" || !discovered then s
    else
      var p := Pointer(id, Verifier(t.issuer, t.audience));
      s.(verifier := Some(p), used := s.used + {id}, threads := s.threads[tid := t.(stored := Some(p))])
  }

  function Next(isPublic: set<string>, s: State, l: Label): State
    requires Enabled(s, l)
  {
    match l
    case Spawn(tid, t) => s.(threads := s.threads[tid := t])
    case Step(tid, discovered, id) =>
      match s.threads[tid]
      case Asking(path, pc) =>
        var (s', pc') := Serve(isPublic, s, tid, path, pc);
        s'.(threads := s.threads[tid := Asking(path, pc')])
      case Activating(_, _, _) => Store(s, tid, s.threads[tid], discovered, id)
  }

  ghost predicate Legal(isPublic: set<string>, s: State, ls: seq<Label>)
    decreases |ls|, 0
  {
    ls == [] ||
    (Legal(isPublic, s, ls[..|ls| - 1]) && Enabled(Final(isPublic, s, ls[..|ls| - 1]), ls[|ls| - 1]))
  }

  ghost function Final(isPublic: set<string>, s: State, ls: seq<Label>): State
    requires Legal(isPublic, s, ls)
    decreases |ls|, 1
  {
    if ls == [] then s else Next(isPublic, Final(isPublic, s, ls[..|ls| - 1]), ls[|ls| - 1])
  }

  const START: State := State(None, {}, None, None, None, map[])

  // ------------------------------------------------------ the invariant

  predicate HoldsLock(t: Thread) {
    t.Asking? && (t.pc.Locked? || t.pc.Built? || t.pc.Fresh? || t.pc.Taken?)
  }

  /** The cache agrees with itself. */
  predicate Agrees(s: State) {
    s.cachedVP.Some? ==> s.cached == Some(Chain(s.cachedVP.value.target))
  }

  predicate ThreadOk(s: State, t: Thread) {
    t.Asking? ==>
      match t.pc
      case Locked(_) => Agrees(s)
      case Built(p) => s.cached == Some(Chain(p.target))
      case Fresh(p) => s.cachedVP == Some(p) && Agrees(s)
      case Taken(p, chain) => Agrees(s) && chain == Some(Chain(p.target))
      case Ended(p, outcome) =>
        if p.Some? then outcome == Through(Some(Chain(p.value.target))) else !outcome.Through?
      case _ => true
  }

  ghost predicate Coherent(s: State) {
    && (forall tid :: tid in s.threads && HoldsLock(s.threads[tid]) ==> s.lock == Some(tid))
    && (s.lock.Some? ==> s.lock.value in s.threads && HoldsLock(s.threads[s.lock.value]))
    && (s.lock.None? ==> Agrees(s))
    && (forall tid :: tid in s.threads ==> ThreadOk(s, s.threads[tid]))
  }

  lemma StepKeepsCoherent(isPublic: set<string>, s: State, l: Label)
    requires Coherent(s) && Enabled(s, l)
    ensures Coherent(Next(isPublic, s, l))
  {
  }

  lemma {:induction false} RunKeepsCoherent(isPublic: set<string>, s: State, ls: seq<Label>)
    requires Coherent(s) && Legal(isPublic, s, ls)
    ensures Coherent(Final(isPublic, s, ls))
  {
    if ls == [] {
    } else {
      RunKeepsCoherent(isPublic, s, ls[..|ls| - 1]);
      StepKeepsCoherent(isPublic, Final(isPublic, s, ls[..|ls| - 1]), ls[|ls| - 1]);
    }
  }

  // ------------------------------------------------------- the theorems

  /** What a request would get if the chain were rebuilt for it from the verifier
      it loaded, with no cache and no mutex. */
  function Rebuilding(isPublic: set<string>, loaded: Option<Pointer>, path: string): Outcome {
    if loaded.None? then Unguarded(isPublic, path) else Through(Some(Chain(loaded.value.target)))
  }

  /** Thread `tid` asks for `path` and has loaded `vp`. */
  predicate HasLoaded(s: State, tid: nat, vp: Option<Pointer>) {
    && tid in s.threads && s.threads[tid].Asking?
    && match s.threads[tid].pc
       case Arrived => false
       case Loaded(v) => v == vp
       case Locked(p) => vp == Some(p)
       case Built(p) => vp == Some(p)
       case Fresh(p) => vp == Some(p)
       case Taken(p, _) => vp == Some(p)
       case Ended(v, _) => v == vp
  }

  lemma {:induction false} LoadedIsKept(isPublic: set<string>, s: State, ls: seq<Label>, tid: nat, vp: Option<Pointer>)
    requires Legal(isPublic, s, ls) && HasLoaded(s, tid, vp)
    ensures HasLoaded(Final(isPublic, s, ls), tid, vp)
    ensures Final(isPublic, s, ls).threads[tid].path == s.threads[tid].path
  {
    if ls == [] {
    } else {
      LoadedIsKept(isPublic, s, ls[..|ls| - 1], tid, vp);
    }
  }

  /** How every request has ended: guarded procedures are turned away or go through the
      chain of the verifier their request loaded, and nothing else is turned away. */
  ghost predicate RightEnds(isPublic: set<string>, s: State) {
    forall tid :: tid in s.threads && s.threads[tid].Asking? && s.threads[tid].pc.Ended? ==>
      var path, loaded, outcome := s.threads[tid].path, s.threads[tid].pc.loaded, s.threads[tid].pc.outcome;
      var guarded := IsConnectProcedure(path) && path !in isPublic;
      && (outcome == PassThrough <==> loaded.None? && !guarded)
      && (outcome == TurnedAway <==> loaded.None? && guarded)
      && (loaded.Some? ==> outcome == Through(Some(Chain(loaded.value.target))))
  }

  /** A request that passed unauthenticated or was turned away did what its path
      demands of an inactive gate. */
  ghost predicate Denials(isPublic: set<string>, s: State) {
    forall tid :: tid in s.threads && s.threads[tid].Asking? && s.threads[tid].pc.Ended? && s.threads[tid].pc.loaded.None?
      ==> s.threads[tid].pc.outcome == Unguarded(isPublic, s.threads[tid].path)
  }

  lemma {:induction false} RunKeepsDenials(isPublic: set<string>, s: State, ls: seq<Label>)
    requires Denials(isPublic, s) && Legal(isPublic, s, ls)
    ensures Denials(isPublic, Final(isPublic, s, ls))
  {
    if ls == [] {
    } else {
      RunKeepsDenials(isPublic, s, ls[..|ls| - 1]);
    }
  }

  /** At any moment of any run, before and after activations: no request for a guarded
      procedure has passed unauthenticated, and no other request has been turned away. */
  lemma GuardedNeverPasses(isPublic: set<string>, ls: seq<Label>)
    requires Legal(isPublic, START, ls)
    ensures RightEnds(isPublic, Final(isPublic, START, ls))
  {
    RunKeepsCoherent(isPublic, START, ls);
    RunKeepsDenials(isPublic, START, ls);
    var s := Final(isPublic, START, ls);
    forall tid | tid in s.threads && s.threads[tid].Asking? && s.threads[tid].pc.Ended?
      ensures s.threads[tid].pc.loaded.None? ==> s.threads[tid].pc.outcome == Unguarded(isPublic, s.threads[tid].path)
    {
      assert ThreadOk(s, s.threads[tid]);
    }
  }

  /** The cache is invisible: from the moment a request loads the pointer, whatever
      interleaving of other requests and activations follows, including older
      requests overwriting the cache, it can only end as rebuilding would end it. */
  lemma CacheRefinesRebuilding(isPublic: set<string>, before: seq<Label>, load: Label, after: seq<Label>)
    requires Legal(isPublic, START, before) && load.Step? && Enabled(Final(isPublic, START, before), load)
    requires var s := Final(isPublic, START, before);
             && s.threads[load.tid].Asking? && s.threads[load.tid].pc == Arrived
             && Legal(isPublic, Next(isPublic, s, load), after)
    ensures load.tid in Final(isPublic, Next(isPublic, Final(isPublic, START, before), load), after).threads
    ensures var s := Final(isPublic, START, before);
            var t := Final(isPublic, Next(isPublic, s, load), after).threads[load.tid];
            && t.Asking? && t.path == s.threads[load.tid].path
            && (t.pc.Ended? ==> t.pc.outcome == Rebuilding(isPublic, s.verifier, t.path))
  {
    RunKeepsCoherent(isPublic, START, before);
    RunKeepsDenials(isPublic, START, before);
    var s := Final(isPublic, START, before);
    var s1 := Next(isPublic, s, load);
    StepKeepsCoherent(isPublic, s, load);
    RunKeepsCoherent(isPublic, s1, after);
    RunKeepsDenials(isPublic, s1, after);
    LoadedIsKept(isPublic, s1, after, load.tid, s.verifier);
    var t := Final(isPublic, s1, after);
    assert ThreadOk(t, t.threads[load.tid]);
  }

  /** An activation that has stored its verifier, made of its own two arguments. */
  predicate HasStored(t: Thread, p: Pointer) {
    && t.Activating? && t.stored == Some(p)
    && p.target == Verifier(t.issuer, t.audience) && t.issuer != "" && t.audience != ""
  }

  ghost predicate FromActivation(s: State, p: Pointer) {
    exists tid :: tid in s.threads && HasStored(s.threads[tid], p)
  }

  /** The pointers in circulation. */
  ghost predicate AllFromActivations(s: State) {
    && (s.verifier.Some? ==> FromActivation(s, s.verifier.value))
    && forall tid, p: Pointer :: HasLoaded(s, tid, Some(p)) ==> FromActivation(s, p)
  }

  lemma ActivationsStay(isPublic: set<string>, s: State, l: Label, p: Pointer)
    requires Enabled(s, l) && FromActivation(s, p)
    ensures FromActivation(Next(isPublic, s, l), p)
  {
    var tid :| tid in s.threads && HasStored(s.threads[tid], p);
    assert tid in Next(isPublic, s, l).threads && HasStored(Next(isPublic, s, l).threads[tid], p);
  }

  lemma StepKeepsOrigin(isPublic: set<string>, s: State, l: Label)
    requires AllFromActivations(s) && Enabled(s, l)
    ensures AllFromActivations(Next(isPublic, s, l))
  {
    var s' := Next(isPublic, s, l);
    forall tid, p: Pointer | HasLoaded(s', tid, Some(p)) ensures FromActivation(s', p) {
      assert HasLoaded(s, tid, Some(p)) || s.verifier == Some(p);
      ActivationsStay(isPublic, s, l, p);
    }
    if s'.verifier.Some? {
      if s'.verifier == s.verifier {
        ActivationsStay(isPublic, s, l, s.verifier.value);
      } else {
        assert HasStored(s'.threads[l.tid], s'.verifier.value);
      }
    }
  }

  lemma {:induction false} RunKeepsOrigin(isPublic: set<string>, ls: seq<Label>)
    requires Legal(isPublic, START, ls)
    ensures AllFromActivations(Final(isPublic, START, ls))
  {
    if ls == [] {
    } else {
      RunKeepsOrigin(isPublic, ls[..|ls| - 1]);
      StepKeepsOrigin(isPublic, Final(isPublic, START, ls[..|ls| - 1]), ls[|ls| - 1]);
    }
  }

  /** In every run: the verifier in force and every chain a request was served through were
      built for exactly the issuer and audience of some activation, neither of them empty. */
  lemma ChainsComeFromActivations(isPublic: set<string>, ls: seq<Label>)
    requires Legal(isPublic, START, ls)
    ensures var s := Final(isPublic, START, ls);
            && (s.verifier.Some? ==> FromActivation(s, s.verifier.value))
            && forall tid :: tid in s.threads && s.threads[tid].Asking? && s.threads[tid].pc.Ended?
                             && s.threads[tid].pc.outcome.Through? ==>
                 exists p :: FromActivation(s, p) && s.threads[tid].pc.outcome == Through(Some(Chain(p.target)))
  {
    RunKeepsOrigin(isPublic, ls);
    GuardedNeverPasses(isPublic, ls);
    var s := Final(isPublic, START, ls);
    forall tid | tid in s.threads && s.threads[tid].Asking? && s.threads[tid].pc.Ended? && s.threads[tid].pc.outcome.Through?
      ensures exists p :: FromActivation(s, p) && s.threads[tid].pc.outcome == Through(Some(Chain(p.target)))
    {
      var loaded := s.threads[tid].pc.loaded;
      if loaded.Some? { assert HasLoaded(s, tid, loaded); }
    }
  }

  lemma {:induction false} VerifierSurvives(isPublic: set<string>, before: seq<Label>, mid: seq<Label>)
    requires Legal(isPublic, START, before + mid)
    requires Legal(isPublic, START, before) && Final(isPublic, START, before).verifier.Some?
    ensures Final(isPublic, START, before + mid).verifier.Some?
  {
    if mid == [] {
      assert before + mid == before;
    } else {
      assert (before + mid)[..|before + mid| - 1] == before + mid[..|mid| - 1];
      VerifierSurvives(isPublic, before, mid[..|mid| - 1]);
    }
  }

  /** Once an Activate has succeeded, a request that loads the pointer afterwards
      is never passed through. */
  lemma NoPassThroughOnceActive(isPublic: set<string>, before: seq<Label>, mid: seq<Label>, load: Label, after: seq<Label>)
    requires Legal(isPublic, START, before + mid) && load.Step? && Enabled(Final(isPublic, START, before + mid), load)
    requires Legal(isPublic, START, before) && Final(isPublic, START, before).verifier.Some?
    requires var s := Final(isPublic, START, before + mid);
             && s.threads[load.tid].Asking? && s.threads[load.tid].pc == Arrived
             && Legal(isPublic, Next(isPublic, s, load), after)
    ensures var t := Final(isPublic, Next(isPublic, Final(isPublic, START, before + mid), load), after);
            && load.tid in t.threads && t.threads[load.tid].Asking?
            && (t.threads[load.tid].pc.Ended? ==> t.threads[load.tid].pc.outcome.Through?)
  {
    VerifierSurvives(isPublic, before, mid);
    CacheRefinesRebuilding(isPublic, before + mid, load, after);
  }

  /** The latest activation wins: with both arguments and a working discovery it takes force
      at once, and a request that loads the pointer next is served by its chain, whatever
      happens afterwards. */
  lemma ActivationTakesForce(isPublic: set<string>, before: seq<Label>, act: Label, load: Label, after: seq<Label>)
    requires Legal(isPublic, START, before) && act.Step? && Enabled(Final(isPublic, START, before), act) && act.discovered
    requires var t := Final(isPublic, START, before).threads[act.tid];
             t.Activating? && t.stored.None? && t.issuer != "" && t.audience != ""
    requires var s := Next(isPublic, Final(isPublic, START, before), act);
             && load.Step? && Enabled(s, load) && s.threads[load.tid].Asking? && s.threads[load.tid].pc == Arrived
             && Legal(isPublic, Next(isPublic, s, load), after)
    ensures var s := Final(isPublic, START, before);
            var t := Final(isPublic, Next(isPublic, Next(isPublic, s, act), load), after);
            && load.tid in t.threads && t.threads[load.tid].Asking?
            && (t.threads[load.tid].pc.Ended? ==>
                  t.threads[load.tid].pc.outcome
                  == Through(Some(Chain(Verifier(s.threads[act.tid].issuer, s.threads[act.tid].audience)))))
  {
    var ls := before + [act];
    assert ls[..|ls| - 1] == before;
    CacheRefinesRebuilding(isPublic, ls, load, after);
  }

  // -------------------------------------------------- the gate as an object

  class VerifierCell {
    const target: Verifier
    constructor (v: Verifier)
      ensures target == v
    {
      target := v;
    }
  }

  /** Gate with the cache that Middleware's closure owns. */
  class AuthGate {
    const isPublic: set<string>
    var verifier: VerifierCell?
    var cachedVP: VerifierCell?
    var cached: Option<Chain>

    predicate Valid()
      reads this
    {
      cachedVP != null ==> cached == Some(Chain(cachedVP.target))
    }

    /** The verifier in force, None while the gate is inactive. */
    function Current(): Option<Verifier>
      reads this
    {
      if verifier == null then None else Some(verifier.target)
    }

    constructor (isPublic: set<string>)
      ensures Valid() && Current() == None && this.isPublic == isPublic
    {
      this.isPublic := isPublic;
      verifier, cachedVP, cached := null, null, None;
    }

    /** One request, start to finish. */
    method Middleware(path: string) returns (outcome: Outcome)
      requires Valid()
      modifies this`cachedVP, this`cached
      ensures Valid()
      ensures outcome == TurnedAway <==> Current() == None && IsConnectProcedure(path) && path !in isPublic
      ensures outcome == PassThrough <==> Current() == None && !(IsConnectProcedure(path) && path !in isPublic)
      ensures Current().Some? ==> outcome == Through(Some(Chain(Current().value)))
    {
      var vp := verifier;
      if vp == null {
        if IsConnectProcedure(path) && path !in isPublic {
          return TurnedAway;
        }
        return PassThrough;
      }
      if vp != cachedVP {
        cached := Some(Chain(vp.target));
        cachedVP := vp;
      }
      return Through(cached);
    }

    method Activate(issuer: string, audience: string, discovered: bool) returns (ok: bool)
      requires Valid()
      modifies this`verifier
      ensures Valid()
      ensures ok <==> issuer != "" && audience != "" && discovered
      ensures Current() == if ok then Some(Verifier(issuer, audience)) else old(Current())
    {
      if issuer == "" || audience == "" {
        return false;
      }
      if !discovered {
        return false;
      }
      verifier := new VerifierCell(Verifier(issuer, audience));
      return true;
    }
  }
}
