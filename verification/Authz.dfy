/** The per-request authorisation path of internal/authz/middleware.go: the
    decision order of Wrap, one database statement at a time. */
module Authz {
  import opened Schema

  datatype Level = Authenticated | AdminOnly

  /** The public procedures and the policy map, both arbitrary. */
  datatype Rules = Rules(isPublic: set<string>, policy: map<string, Level>)

  /** `user` is the identity that the gate attached to the request, if any. */
  datatype Request = Request(path: string, user: Option<UserId>)

  datatype Decision =
    | Bypassed
    | Unauthenticated
    | InternalError
    | NotProvisioned
    | NoGrant
    | AccountSuspended
    | PolicyUndefined
    | AdminRequired
    | Admitted(caller: ContactId, role: Role)

  datatype RequestPc =
    | Arriving
    | Activating(contact: ContactId, role: Role)
    | Deciding(contact: ContactId, role: Role)
    | Answered(decision: Decision)

  // ------------------------------------------------------------- the path

  /** strings.IndexByte(s, '/'), or |s| when there is none. */
  function SlashAt(s: string): (i: nat)
    ensures i <= |s| && '/' !in s[..i] && (i < |s| ==> s[i] == '/')
  {
    if s == "" then 0 else if s[0] == '/' then 0 else 1 + SlashAt(s[1..])
  }

  predicate IsConnectProcedure(path: string) {
    && |path| >= 2 && path[0] == '/'
    && var rest := path[1..];
       var i := SlashAt(rest);
       i < |rest| && '.' in rest[..i]
  }

  /** A Connect procedure is "/<segment with a dot>/<anything>", and nothing else is. */
  lemma ConnectProcedureShape(path: string)
    ensures IsConnectProcedure(path) <==>
            exists seg: string, method_: string :: path == "/" + seg + "/" + method_ && '/' !in seg && '.' in seg
  {
    if IsConnectProcedure(path) {
      var rest := path[1..];
      var i := SlashAt(rest);
      assert path == "/" + rest[..i] + "/" + rest[i + 1..];
    }
    forall seg: string, method_: string | path == "/" + seg + "/" + method_ && '/' !in seg && '.' in seg
      ensures IsConnectProcedure(path)
    {
      var rest := path[1..];
      assert rest == seg + "/" + method_;
      var i := SlashAt(rest);
      assert rest[|seg|] == '/';
      assert forall k :: 0 <= k < |seg| ==> rest[k] == seg[k];
      assert forall k :: 0 <= k < i ==> rest[k] == rest[..i][k];
      assert i == |seg|;
      assert rest[..i] == seg;
    }
  }

  /** One path that is. */
  const LISTED: string := "/a.B/C"

  lemma ListedIsConnectProcedure()
    ensures IsConnectProcedure(LISTED)
  {
    assert LISTED == "/" + "a.B" + "/" + "C";
    ConnectProcedureShape(LISTED);
  }

  // ----------------------------------------------------------- the request

  /** The request reaches the handler behind Wrap. */
  predicate LetThrough(d: Decision) {
    d.Bypassed? || d.Admitted?
  }

  predicate Exempt(rules: Rules, path: string) {
    !IsConnectProcedure(path) || path in rules.isPublic
  }

  function Enforce(rules: Rules, path: string, c: ContactId, role: Role): Decision {
    if path !in rules.policy then PolicyUndefined
    else if rules.policy[path] == AdminOnly && role != Admin then AdminRequired
    else Admitted(c, role)
  }

  /** Everything up to and including the resolve query. */
  ghost function Resolve(rules: Rules, db: Tables, req: Request, ok: bool): RequestPc {
    if Exempt(rules, req.path) then Answered(Bypassed)
    else if req.user.None? then Answered(Unauthenticated)
    else if !ok then Answered(InternalError)
    else
      match ContactOf(db, req.user.value)
      case None => Answered(NotProvisioned)
      case Some(c) =>
        if c !in db.grants then Answered(NoGrant)
        else
          match db.grants[c].status
          case Suspended => Answered(AccountSuspended)
          case NotSignedInYet => Activating(c, db.grants[c].role)
          case Active => Deciding(c, db.grants[c].role)
  }

  ghost function RequestStep(rules: Rules, db: Tables, req: Request, pc: RequestPc, ok: bool): (Tables, RequestPc) {
    match pc
    case Arriving => (db, Resolve(rules, db, req, ok))
    case Activating(c, role) => (if ok then ActivatePending(db, c) else db, Deciding(c, role))
    case Deciding(c, role) => (db, Answered(Enforce(rules, req.path, c, role)))
    case Answered(_) => (db, pc)
  }

  /** Wrap, uninterrupted. */
  ghost function RunRequest(rules: Rules, db: Tables, req: Request, resolveOk: bool, activateOk: bool): (Tables, Decision) {
    match Resolve(rules, db, req, resolveOk)
    case Answered(d) => (db, d)
    case Activating(c, role) =>
      (if activateOk then ActivatePending(db, c) else db, Enforce(rules, req.path, c, role))
    case Deciding(c, role) => (db, Enforce(rules, req.path, c, role))
    case Arriving => (db, InternalError)
  }

  /** RunRequest is three steps of the request taken in a row. */
  lemma RunRequestIsItsSteps(rules: Rules, db: Tables, req: Request, resolveOk: bool, activateOk: bool)
    ensures var (db1, pc1) := RequestStep(rules, db, req, Arriving, resolveOk);
            var (db2, pc2) := RequestStep(rules, db1, req, pc1, activateOk);
            var (db3, pc3) := RequestStep(rules, db2, req, pc2, true);
            RunRequest(rules, db, req, resolveOk, activateOk) == (db3, pc3.decision)
  {
  }

  /** The answer to contact c, once the path is guarded and the caller resolved. */
  predicate RightForContact(rules: Rules, db: Tables, path: string, c: ContactId, d: Decision) {
    && (d == NoGrant <==> c !in db.grants)
    && (c in db.grants ==>
          var g := db.grants[c];
          && (d == AccountSuspended <==> g.status == Suspended)
          && (g.status != Suspended ==>
                && (d == PolicyUndefined <==> path !in rules.policy)
                && (d == AdminRequired <==> path in rules.policy && rules.policy[path] == AdminOnly && g.role == Technician)
                && (d == Admitted(c, g.role) <==>
                      path in rules.policy && (rules.policy[path] == AdminOnly ==> g.role == Admin))))
  }

  /** What an answer means, in terms of the path, the tables and the policy alone: each
      answer if and only if its condition, in the order of the middleware. */
  predicate RightAnswer(rules: Rules, db: Tables, req: Request, resolveOk: bool, d: Decision) {
    var guarded := IsConnectProcedure(req.path) && req.path !in rules.isPublic;
    var resolved := guarded && req.user.Some? && resolveOk;
    && (d == Bypassed <==> !guarded)
    && (d == Unauthenticated <==> guarded && req.user.None?)
    && (d == InternalError <==> guarded && req.user.Some? && !resolveOk)
    && (d == NotProvisioned <==> resolved && forall c :: c in db.contacts ==> db.contacts[c].user != req.user)
    && (resolved ==> forall c :: c in db.contacts && db.contacts[c].user == req.user ==>
          RightForContact(rules, db, req.path, c, d))
  }

  /** What a request leaves behind: the grant of a member who had never signed in is
      active, whatever the policy says then, and nothing else has changed. */
  predicate RightWrite(rules: Rules, db: Tables, req: Request, resolveOk: bool, activateOk: bool, db': Tables) {
    var activates := IsConnectProcedure(req.path) && req.path !in rules.isPublic && req.user.Some? && resolveOk && activateOk;
    && (!activates ==> db' == db)
    && ((forall c :: c in db.contacts ==> db.contacts[c].user != req.user) ==> db' == db)
    && (activates ==> forall c :: c in db.contacts && db.contacts[c].user == req.user ==>
          db' == if c in db.grants && db.grants[c].status == NotSignedInYet
                 then db.(grants := db.grants[c := Grant(db.grants[c].role, Active)]) else db)
  }

  lemma ResolvesToHolder(db: Tables, u: UserId)
    requires ValidSchema(db)
    ensures forall c :: c in db.contacts && db.contacts[c].user == Some(u) ==> ContactOf(db, u) == Some(c)
  {
    forall c | c in db.contacts && db.contacts[c].user == Some(u) ensures ContactOf(db, u) == Some(c) {
      ContactOfIsUnique(db, c, u);
    }
  }

  lemma HolderIsAnswered(rules: Rules, db: Tables, req: Request, activateOk: bool, c: ContactId)
    requires !Exempt(rules, req.path) && req.user.Some? && ContactOf(db, req.user.value) == Some(c)
    ensures var (db', d) := RunRequest(rules, db, req, true, activateOk);
            && RightForContact(rules, db, req.path, c, d)
            && (d.NoGrant? || d.AccountSuspended? || d.PolicyUndefined? || d.AdminRequired? || d.Admitted?)
            && db' == if activateOk && c in db.grants && db.grants[c].status == NotSignedInYet
                      then db.(grants := db.grants[c := Grant(db.grants[c].role, Active)]) else db
  {
  }

  /** Wrap answers and writes just so. */
  lemma RequestAnswers(rules: Rules, db: Tables, req: Request, resolveOk: bool, activateOk: bool)
    requires ValidSchema(db)
    ensures RightAnswer(rules, db, req, resolveOk, RunRequest(rules, db, req, resolveOk, activateOk).1)
    ensures RightWrite(rules, db, req, resolveOk, activateOk, RunRequest(rules, db, req, resolveOk, activateOk).0)
  {
    if !Exempt(rules, req.path) && req.user.Some? && resolveOk {
      ResolvesToHolder(db, req.user.value);
      if ContactOf(db, req.user.value).Some? {
        HolderIsAnswered(rules, db, req, activateOk, ContactOf(db, req.user.value).value);
      }
    }
  }

  /** Exactly who gets through to a procedure that is not exempt: the holder of an
      identity whose contact has a grant that is not suspended, on a procedure the
      policy lists, as an admin where the policy says so. */
  lemma AdmissionIff(rules: Rules, db: Tables, req: Request, activateOk: bool, c: ContactId, role: Role)
    requires ValidSchema(db)
    ensures RunRequest(rules, db, req, true, activateOk).1 == Admitted(c, role) <==>
            && !Exempt(rules, req.path)
            && req.user.Some? && HoldsUser(db, c, req.user.value)
            && c in db.grants && db.grants[c].role == role && db.grants[c].status != Suspended
            && req.path in rules.policy
            && (rules.policy[req.path] == AdminOnly ==> role == Admin)
  {
    if req.user.Some? && HoldsUser(db, c, req.user.value) {
      ContactOfIsUnique(db, c, req.user.value);
    }
  }
}
