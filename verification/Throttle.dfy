/** The last-seen throttle of internal/authz/middleware.go: shouldTouch over any
    sequence of requests.  Times are integers in any unit. */
module Throttle {
  import opened Schema

  /** One call of shouldTouch: `checkedAt` is the clock reading behind time.Since,
      `storedAt` the later reading that is recorded when the answer is yes. */
  datatype Visit = Visit(contact: ContactId, checkedAt: int, storedAt: int)

  predicate Due(lastSeen: map<ContactId, int>, period: int, v: Visit) {
    v.contact in lastSeen ==> v.checkedAt - lastSeen[v.contact] >= period
  }

  function Touch(lastSeen: map<ContactId, int>, period: int, v: Visit): map<ContactId, int> {
    if Due(lastSeen, period, v) then lastSeen[v.contact := v.storedAt] else lastSeen
  }

  /** The throttle's memory after a sequence of visits. */
  function LastSeen(period: int, vs: seq<Visit>): map<ContactId, int> {
    if vs == [] then map[]
    else Touch(LastSeen(period, vs[..|vs| - 1]), period, vs[|vs| - 1])
  }

  /** The times at which TouchLastSeen was issued for one contact. */
  function Touches(period: int, vs: seq<Visit>, c: ContactId): seq<int> {
    if vs == [] then []
    else
      var before, v := vs[..|vs| - 1], vs[|vs| - 1];
      Touches(period, before, c) +
      (if v.contact == c && Due(LastSeen(period, before), period, v) then [v.storedAt] else [])
  }

  /** The clock never goes back, within a call or between calls. */
  predicate Monotone(vs: seq<Visit>) {
    && (forall i :: 0 <= i < |vs| ==> vs[i].checkedAt <= vs[i].storedAt)
    && (forall i, j :: 0 <= i < j < |vs| ==> vs[i].storedAt <= vs[j].checkedAt)
  }

  /** The memory holds exactly the latest touch of each contact. */
  lemma {:induction false} MemoryIsLatestTouch(period: int, vs: seq<Visit>, c: ContactId)
    ensures var ts := Touches(period, vs, c);
            && (c in LastSeen(period, vs) <==> ts != [])
            && (ts != [] ==> LastSeen(period, vs)[c] == ts[|ts| - 1])
  {
    if vs == [] {
    } else {
      MemoryIsLatestTouch(period, vs[..|vs| - 1], c);
    }
  }

  predicate Spaced(ts: seq<int>, period: int) {
    forall i, j :: 0 <= i && j == i + 1 < |ts| ==> ts[j] - ts[i] >= period
  }

  /** Consecutive touches of a contact lie at least one period apart. */
  lemma {:induction false} TouchesAreSpaced(period: int, vs: seq<Visit>, c: ContactId)
    requires Monotone(vs)
    ensures Spaced(Touches(period, vs, c), period)
  {
    if vs == [] {
    } else {
      var before := vs[..|vs| - 1];
      TouchesAreSpaced(period, before, c);
      MemoryIsLatestTouch(period, before, c);
    }
  }

  lemma {:induction false} SpacedSpan(ts: seq<int>, period: int)
    requires ts != [] && Spaced(ts, period)
    ensures ts[|ts| - 1] - ts[0] >= (|ts| - 1) * period
  {
    if |ts| > 1 {
      var before := ts[..|ts| - 1];
      SpacedSpan(before, period);
      assert (|ts| - 1) * period == (|before| - 1) * period + period;
    }
  }

  /** k touches of one contact span at least k - 1 throttle periods. */
  lemma TouchBound(period: int, vs: seq<Visit>, c: ContactId)
    requires Monotone(vs)
    ensures var ts := Touches(period, vs, c);
            ts != [] ==> ts[|ts| - 1] - ts[0] >= (|ts| - 1) * period
  {
    TouchesAreSpaced(period, vs, c);
    var ts := Touches(period, vs, c);
    if ts != [] {
      SpacedSpan(ts, period);
    }
  }

  /** Whoever reaches the throttle leaves with a recorded touch that is less than
      one period old at the moment of the check. */
  lemma RecentTouch(period: int, vs: seq<Visit>)
    requires period > 0 && vs != [] && Monotone(vs)
    ensures var v := vs[|vs| - 1];
            && Touches(period, vs, v.contact) != []
            && v.contact in LastSeen(period, vs)
            && v.checkedAt - LastSeen(period, vs)[v.contact] < period
  {
    MemoryIsLatestTouch(period, vs, vs[|vs| - 1].contact);
  }

  function Only(vs: seq<Visit>, c: ContactId): seq<Visit> {
    if vs == [] then []
    else Only(vs[..|vs| - 1], c) + (if vs[|vs| - 1].contact == c then [vs[|vs| - 1]] else [])
  }

  /** Other contacts' requests leave no trace in a contact's touches. */
  lemma {:induction false} ContactsAreIndependent(period: int, vs: seq<Visit>, c: ContactId)
    ensures Touches(period, Only(vs, c), c) == Touches(period, vs, c)
  {
    if vs == [] {
    } else {
      var before, v := vs[..|vs| - 1], vs[|vs| - 1];
      ContactsAreIndependent(period, before, c);
      MemoryIsLatestTouch(period, before, c);
      MemoryIsLatestTouch(period, Only(before, c), c);
      var mine := Only(vs, c);
      if v.contact == c {
        assert mine[..|mine| - 1] == Only(before, c);
        assert Touches(period, mine, c) == Touches(period, vs, c);
      } else {
        assert mine == Only(before, c);
      }
    }
  }
}
