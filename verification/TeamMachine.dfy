/** Any number of team handlers, archive handlers and authorised requests, running
    side by side: one step of the machine is one statement of one of them. */
module TeamMachine {
  import opened Schema
  import opened Team
  import opened Authz

  datatype Thread =
    | Guarded(op: GuardOp, c: ContactId, gpc: GuardPc)
    | Inviting(invite: InviteRequest, ipc: InvitePc)
    | Archiving(target: ContactId, apc: ArchivePc)
    | Requesting(request: Request, rpc: RequestPc)

  datatype State = State(w: World, threads: map<nat, Thread>)

  datatype Label =
    | Spawn(tid: nat, thread: Thread)
    | Step(tid: nat, ch: Choice)

  predicate Unstarted(t: Thread) {
    match t
    case Guarded(_, _, pc) => pc == Loading
    case Inviting(_, pc) => pc == Validating
    case Archiving(_, pc) => pc == Checking
    case Requesting(_, pc) => pc == Arriving
  }

  /** Ids handed out by the database and by ZITADEL are new. */
  predicate FreshIds(w: World, ch: Choice) {
    && ch.id !in w.db.contacts
    && ch.user != "" && ch.user !in w.idp.everUsers
  }

  ghost function Advance(rules: Rules, w: World, t: Thread, ch: Choice): (World, Thread) {
    match t
    case Guarded(op, c, pc) =>
      var (db', pc') := GuardStep(w.db, op, c, pc, ch.ok);
      (w.(db := db'), Guarded(op, c, pc'))
    case Inviting(req, pc) =>
      var (w', pc') := InviteStep(w, req, pc, ch);
      (w', Inviting(req, pc'))
    case Archiving(c, pc) =>
      var (db', pc') := ArchiveStep(w.db, c, pc, ch.ok);
      (w.(db := db'), Archiving(c, pc'))
    case Requesting(req, pc) =>
      var (db', pc') := RequestStep(rules, w.db, req, pc, ch.ok);
      (w.(db := db'), Requesting(req, pc'))
  }

  ghost predicate Enabled(s: State, l: Label) {
    match l
    case Spawn(tid, t) => tid !in s.threads && Unstarted(t)
    case Step(tid, ch) => tid in s.threads && FreshIds(s.w, ch)
  }

  ghost function Next(rules: Rules, s: State, l: Label): State
    requires Enabled(s, l)
  {
    match l
    case Spawn(tid, t) => s.(threads := s.threads[tid := t])
    case Step(tid, ch) =>
      var (w', t') := Advance(rules, s.w, s.threads[tid], ch);
      State(w', s.threads[tid := t'])
  }

  /** `ls` is a run from `s`; the state it ends in is Final. */
  ghost predicate Legal(rules: Rules, s: State, ls: seq<Label>)
    decreases |ls|, 0
  {
    ls == [] ||
    (Legal(rules, s, ls[..|ls| - 1]) && Enabled(Final(rules, s, ls[..|ls| - 1]), ls[|ls| - 1]))
  }

  ghost function Final(rules: Rules, s: State, ls: seq<Label>): State
    requires Legal(rules, s, ls)
    decreases |ls|, 1
  {
    if ls == [] then s else Next(rules, Final(rules, s, ls[..|ls| - 1]), ls[|ls| - 1])
  }

  lemma Extend(rules: Rules, s: State, ls: seq<Label>, l: Label)
    requires Legal(rules, s, ls) && Enabled(Final(rules, s, ls), l)
    ensures Legal(rules, s, ls + [l])
    ensures Final(rules, s, ls + [l]) == Next(rules, Final(rules, s, ls), l)
  {
  }

  // ------------------------------------------- what every step keeps

  lemma InviteKeepsSchema(w: World, req: InviteRequest, pc: InvitePc, ch: Choice)
    requires ValidSchema(w.db) && FreshIds(w, ch)
    ensures ValidSchema(InviteStep(w, req, pc, ch).0.db)
  {
    match pc
    case Minted(m, u) =>
      var row := Contact(m, Some(req.email), Some(u), false);
      if ContactFits(w.db, row) {
        AddContactKeepsSchema(w.db, ch.id, row);
      }
    case Stored(_, _) => GrantsKeepSchema(w.db, InviteStep(w, req, pc, ch).0.db.grants);
    case _ =>
  }

  lemma RequestKeepsSchema(rules: Rules, db: Tables, req: Request, pc: RequestPc, ok: bool)
    requires ValidSchema(db)
    ensures ValidSchema(RequestStep(rules, db, req, pc, ok).0)
  {
    GrantsKeepSchema(db, RequestStep(rules, db, req, pc, ok).0.grants);
  }

  lemma StepKeepsSchema(rules: Rules, s: State, l: Label)
    requires ValidSchema(s.w.db) && Enabled(s, l)
    ensures ValidSchema(Next(rules, s, l).w.db)
  {
    if l.Step? {
      var t := s.threads[l.tid];
      match t
      case Guarded(op, c, pc) =>
        GuardStepFrame(s.w.db, op, c, pc, l.ch.ok);
        GrantsKeepSchema(s.w.db, Next(rules, s, l).w.db.grants);
      case Inviting(req, pc) => InviteKeepsSchema(s.w, req, pc, l.ch);
      case Archiving(c, pc) => ArchiveKeepsSchema(s.w.db, c);
      case Requesting(req, pc) => RequestKeepsSchema(rules, s.w.db, req, pc, l.ch.ok);
    }
  }

  /** Contacts never disappear or change identity, and grants never disappear. */
  lemma StepKeepsRows(rules: Rules, s: State, l: Label, c: ContactId)
    requires Enabled(s, l)
    ensures var db, db' := s.w.db, Next(rules, s, l).w.db;
            && (c in db.contacts ==> c in db'.contacts && db'.contacts[c].user == db.contacts[c].user)
            && (c in db.grants ==> c in db'.grants)
  {
  }
  // ---------------------------------------------- what answers mean

  /** The identity belongs to a contact with a grant. */
  predicate IsMemberFor(db: Tables, c: ContactId, user: Option<UserId>) {
    c in db.contacts && db.contacts[c].user == user && c in db.grants
  }

  /** How far a request has got, in terms of its path, its identity and the policy: only
      unguarded paths bypass, only members get past the resolve, and only the roles that
      the policy asks for are admitted. */
  predicate Earned(rules: Rules, db: Tables, req: Request, pc: RequestPc) {
    var guarded := IsConnectProcedure(req.path) && req.path !in rules.isPublic;
    match pc
    case Arriving => true
    case Activating(c, _) => guarded && req.user.Some? && IsMemberFor(db, c, req.user)
    case Deciding(c, _) => guarded && req.user.Some? && IsMemberFor(db, c, req.user)
    case Answered(d) =>
      && (d == Bypassed <==> !guarded)
      && (d == Unauthenticated <==> guarded && req.user.None?)
      && (d == PolicyUndefined ==> req.path !in rules.policy)
      && (d == AdminRequired ==> req.path in rules.policy && rules.policy[req.path] == AdminOnly)
      && (d.Admitted? ==> IsMemberFor(db, d.caller, req.user) && req.path in rules.policy
                          && (rules.policy[req.path] == AdminOnly ==> d.role == Admin))
  }

  ghost predicate AllEarned(rules: Rules, s: State) {
    forall tid :: tid in s.threads && s.threads[tid].Requesting? ==>
      Earned(rules, s.w.db, s.threads[tid].request, s.threads[tid].rpc)
  }

  lemma RequestEarns(rules: Rules, db: Tables, req: Request, pc: RequestPc, ok: bool)
    requires Earned(rules, db, req, pc)
    ensures var (db', pc') := RequestStep(rules, db, req, pc, ok); Earned(rules, db', req, pc')
  {
  }

  lemma EarnedIsKept(rules: Rules, s: State, l: Label, tid: nat)
    requires Enabled(s, l) && tid in s.threads && s.threads[tid].Requesting?
    requires Earned(rules, s.w.db, s.threads[tid].request, s.threads[tid].rpc)
    ensures Earned(rules, Next(rules, s, l).w.db, s.threads[tid].request, s.threads[tid].rpc)
  {
    forall c ensures IsMemberFor(s.w.db, c, s.threads[tid].request.user)
                 ==> IsMemberFor(Next(rules, s, l).w.db, c, s.threads[tid].request.user) {
      StepKeepsRows(rules, s, l, c);
    }
  }

  lemma StepKeepsEarned(rules: Rules, s: State, l: Label)
    requires AllEarned(rules, s) && Enabled(s, l)
    ensures AllEarned(rules, Next(rules, s, l))
  {
    var s' := Next(rules, s, l);
    forall tid | tid in s'.threads && s'.threads[tid].Requesting?
      ensures Earned(rules, s'.w.db, s'.threads[tid].request, s'.threads[tid].rpc)
    {
      if l.Step? && tid == l.tid {
        RequestEarns(rules, s.w.db, s.threads[tid].request, s.threads[tid].rpc, l.ch.ok);
      } else if tid in s.threads {
        EarnedIsKept(rules, s, l, tid);
      }
    }
  }

  /** Over every interleaving: no request without an identity, and none on a guarded path
      without a member's grant, ever reaches a handler, and none reaches one that the
      policy reserves for another role. */
  lemma {:induction false} AnswersAreEarned(rules: Rules, s: State, ls: seq<Label>)
    requires s.threads == map[] && Legal(rules, s, ls)
    ensures AllEarned(rules, Final(rules, s, ls))
  {
    if ls == [] {
    } else {
      AnswersAreEarned(rules, s, ls[..|ls| - 1]);
      StepKeepsEarned(rules, Final(rules, s, ls[..|ls| - 1]), ls[|ls| - 1]);
    }
  }
}
