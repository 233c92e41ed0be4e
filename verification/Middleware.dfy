/** The authorisation middleware as an object: Wrap and shouldTouch. */
module Middleware {
  import opened Schema
  import opened Authz
  import opened Throttle
  import opened Backend

  /** One more visit adds a touch exactly when it is due, and otherwise changes nothing. */
  lemma OneVisit(period: int, visits: seq<Visit>, v: Visit)
    ensures var due := Due(LastSeen(period, visits), period, v);
            && LastSeen(period, visits + [v]) == Touch(LastSeen(period, visits), period, v)
            && |Touches(period, visits + [v], v.contact)| == |Touches(period, visits, v.contact)| + (if due then 1 else 0)
            && (!due ==> Touches(period, visits + [v], v.contact) == Touches(period, visits, v.contact))
  {
    assert (visits + [v])[..|visits|] == visits;
  }

  class AuthzMiddleware {
    const store: Store
    const rules: Rules
    const period: int              // LastSeenThrottle
    var lastSeen: map<ContactId, int>
    ghost var visits: seq<Visit>   // every call of ShouldTouch so far

    ghost predicate Valid()
      reads this
    {
      lastSeen == LastSeen(period, visits)
    }

    constructor (store: Store, rules: Rules, period: int)
      ensures Valid() && visits == []
      ensures this.store == store && this.rules == rules && this.period == period
    {
      this.store, this.rules, this.period := store, rules, period;
      lastSeen, visits := map[], [];
    }

    /** The throttle; its memory is that of the whole history of visits. */
    method ShouldTouch(c: ContactId, checkedAt: int, storedAt: int) returns (touch: bool)
      requires Valid()
      modifies this`lastSeen, this`visits
      ensures Valid() && visits == old(visits) + [Visit(c, checkedAt, storedAt)]
      ensures touch <==> c !in old(lastSeen) || checkedAt - old(lastSeen)[c] >= period
      ensures lastSeen == if touch then old(lastSeen)[c := storedAt] else old(lastSeen)
      ensures touch <==> |Touches(period, visits, c)| == |Touches(period, old(visits), c)| + 1
      ensures !touch <==> Touches(period, visits, c) == Touches(period, old(visits), c)
    {
      ghost var v := Visit(c, checkedAt, storedAt);
      visits := visits + [v];
      OneVisit(period, old(visits), v);
      if c in lastSeen && checkedAt - lastSeen[c] < period {
        return false;
      }
      lastSeen := lastSeen[c := storedAt];
      return true;
    }

    /** Wrap: the decision, its one write, and whether last_seen_at was touched. */
    method Wrap(req: Request, resolveOk: bool, activateOk: bool, checkedAt: int, storedAt: int)
      returns (d: Decision, touched: bool)
      requires Valid() && ValidSchema(store.db)
      modifies this`lastSeen, this`visits, store`db
      ensures Valid()
      ensures (store.db, d) == RunRequest(rules, old(store.db), req, resolveOk, activateOk)
      ensures RightAnswer(rules, old(store.db), req, resolveOk, d)
      ensures RightWrite(rules, old(store.db), req, resolveOk, activateOk, store.db)
      ensures d.Bypassed? || d.Unauthenticated? || d.InternalError? || d.NotProvisioned? || d.NoGrant? || d.AccountSuspended?
              ==> !touched && visits == old(visits)
      ensures d.PolicyUndefined? || d.AdminRequired? || d.Admitted?
              ==> req.user.Some? && ContactOf(old(store.db), req.user.value).Some?
                  && var c := ContactOf(old(store.db), req.user.value).value;
                     && visits == old(visits) + [Visit(c, checkedAt, storedAt)]
                     && (touched <==> |Touches(period, visits, c)| == |Touches(period, old(visits), c)| + 1)
    {
      RequestAnswers(rules, store.db, req, resolveOk, activateOk);
      if !IsConnectProcedure(req.path) {
        return Bypassed, false;
      }
      if req.path in rules.isPublic {
        return Bypassed, false;
      }
      if req.user.None? {
        return Unauthenticated, false;
      }
      var found := store.ResolveContact(req.user.value, resolveOk);
      if found.None? {
        return InternalError, false;
      }
      if found.value.None? {
        return NotProvisioned, false;
      }
      var c := found.value.value;
      if c !in store.db.grants {
        return NoGrant, false;
      }
      var grant := store.db.grants[c];
      if grant.status == Suspended {
        return AccountSuspended, false;
      }
      if grant.status == NotSignedInYet && activateOk {
        store.db := ActivatePending(store.db, c);
      }
      touched := ShouldTouch(c, checkedAt, storedAt);
      if req.path !in rules.policy {
        return PolicyUndefined, touched;
      }
      if rules.policy[req.path] == AdminOnly && grant.role != Admin {
        return AdminRequired, touched;
      }
      return Admitted(c, grant.role), touched;
    }
  }
}
