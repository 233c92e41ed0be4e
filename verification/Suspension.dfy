/** A suspension lasts until somebody reactivates the member: no sign-in already
    under way, and no other handler, can undo it. */
module Suspension {
  import opened Schema
  import opened Team
  import opened Authz
  import opened TeamMachine

  ghost predicate IsSuspended(s: State, c: ContactId) {
    c in s.w.db.grants && s.w.db.grants[c].status == Suspended
  }

  /** The label is ReactivateMember's write on this contact. */
  predicate Reactivates(s: State, l: Label, c: ContactId) {
    l.Step? && l.tid in s.threads && s.threads[l.tid] == Guarded(Reactivate, c, Cleared) && l.ch.ok
  }

  ghost predicate NoReactivation(rules: Rules, s: State, ls: seq<Label>, c: ContactId)
    requires Legal(rules, s, ls)
  {
    ls != [] ==>
      var before := ls[..|ls| - 1];
      NoReactivation(rules, s, before, c) && !Reactivates(Final(rules, s, before), ls[|ls| - 1], c)
  }

  lemma StepKeepsSuspended(rules: Rules, s: State, l: Label, c: ContactId)
    requires IsSuspended(s, c) && Enabled(s, l) && !Reactivates(s, l, c)
    ensures IsSuspended(Next(rules, s, l), c)
  {
  }

  lemma {:induction false} RunKeepsSuspended(rules: Rules, s: State, ls: seq<Label>, c: ContactId, u: UserId)
    requires ValidSchema(s.w.db) && IsSuspended(s, c) && HoldsUser(s.w.db, c, u)
    requires Legal(rules, s, ls) && NoReactivation(rules, s, ls, c)
    ensures var t := Final(rules, s, ls);
            ValidSchema(t.w.db) && IsSuspended(t, c) && HoldsUser(t.w.db, c, u)
  {
    if ls == [] {
    } else {
      var before := ls[..|ls| - 1];
      RunKeepsSuspended(rules, s, before, c, u);
      var t := Final(rules, s, before);
      StepKeepsSuspended(rules, t, ls[|ls| - 1], c);
      StepKeepsSchema(rules, t, ls[|ls| - 1]);
      StepKeepsRows(rules, t, ls[|ls| - 1], c);
    }
  }

  lemma ResolvedRefusal(rules: Rules, t: State, c: ContactId, u: UserId, tid: nat, rq: Request, ch: Choice)
    requires ValidSchema(t.w.db) && IsSuspended(t, c) && HoldsUser(t.w.db, c, u)
    requires tid in t.threads && t.threads[tid] == Requesting(rq, Arriving) && Enabled(t, Step(tid, ch))
    requires rq.user == Some(u) && !Exempt(rules, rq.path)
    ensures Next(rules, t, Step(tid, ch)).threads[tid]
            == Requesting(rq, Answered(if ch.ok then AccountSuspended else InternalError))
  {
  }

  /** From SuspendMember's write on: until ReactivateMember writes, the member stays
      suspended, and each request of theirs that is resolved meanwhile is refused. */
  lemma SuspensionHolds(rules: Rules, s: State, suspender: nat, ch: Choice, ls: seq<Label>, c: ContactId, u: UserId)
    requires ValidSchema(s.w.db) && c in s.w.db.grants && HoldsUser(s.w.db, c, u)
    requires suspender in s.threads && s.threads[suspender] == Guarded(Suspend, c, Cleared)
    requires ch.ok && Enabled(s, Step(suspender, ch))
    requires var s1 := Next(rules, s, Step(suspender, ch));
             Legal(rules, s1, ls) && NoReactivation(rules, s1, ls, c)
    ensures var t := Final(rules, Next(rules, s, Step(suspender, ch)), ls);
            && IsSuspended(t, c)
            && forall tid, rq, ch' ::
                 && tid in t.threads && t.threads[tid] == Requesting(rq, Arriving)
                 && Enabled(t, Step(tid, ch'))
                 && rq.user == Some(u) && !Exempt(rules, rq.path)
                 ==> Next(rules, t, Step(tid, ch')).threads[tid]
                     == Requesting(rq, Answered(if ch'.ok then AccountSuspended else InternalError))
  {
    var s1 := Next(rules, s, Step(suspender, ch));
    StepKeepsSchema(rules, s, Step(suspender, ch));
    StepKeepsRows(rules, s, Step(suspender, ch), c);
    RunKeepsSuspended(rules, s1, ls, c, u);
    var t := Final(rules, s1, ls);
    forall tid, rq, ch' |
      && tid in t.threads && t.threads[tid] == Requesting(rq, Arriving)
      && Enabled(t, Step(tid, ch'))
      && rq.user == Some(u) && !Exempt(rules, rq.path)
      ensures Next(rules, t, Step(tid, ch')).threads[tid]
              == Requesting(rq, Answered(if ch'.ok then AccountSuspended else InternalError))
    {
      ResolvedRefusal(rules, t, c, u, tid, rq, ch');
    }
  }
}
