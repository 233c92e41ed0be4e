/** The in-memory ticket client of web/src/lib/tickets-client.ts and the SLA column
    order of web/src/components/tickets/tickets-columns.tsx. */
module Tickets {
  import opened Schema
  import opened Sorting

  datatype Priority = P1 | P2 | P3 | P4
  datatype View = All | Unassigned | Mine | Risk | ClosedView

  /** `sla` is None when paused; `assignee` is the handle, None for null. */
  datatype Ticket = Ticket(id: string, priority: Priority, sla: Option<real>, subject: string, clientName: string,
                           requesterName: string, assignee: Option<string>, updatedMinutesAgo: real,
                           closed: bool, closedDaysAgo: Option<real>)

  /** An absent or empty company name or query does not filter. */
  datatype Filters = Filters(view: View, company: string, query: string)

  /** String.prototype.toLowerCase and trim, arbitrary. */
  datatype Text = Text(lower: string -> string, trim: string -> string)

  // --------------------------------------------------------- filtering

  predicate AtRisk(t: Ticket) {
    t.sla.Some? && !t.closed && t.sla.value < 7200.0
  }

  predicate InView(v: View, t: Ticket) {
    match v
    case ClosedView => t.closed
    case All => !t.closed
    case Unassigned => !t.closed && (t.assignee.None? || t.assignee.value == "")
    case Mine => !t.closed && t.assignee == Some("you")
    case Risk => !t.closed && AtRisk(t)
  }

  predicate OccursAt(s: string, needle: string, i: nat) {
    i + |needle| <= |s| && s[i..i + |needle|] == needle
  }

  /** String.prototype.includes. */
  predicate Includes(s: string, needle: string) {
    exists i :: 0 <= i <= |s| && OccursAt(s, needle, i)
  }

  predicate Mentions(x: Text, needle: string, t: Ticket) {
    || Includes(x.lower(t.id), needle) || Includes(x.lower(t.subject), needle)
    || Includes(x.lower(t.requesterName), needle) || Includes(x.lower(t.clientName), needle)
  }

  predicate InCompany(company: string, t: Ticket) {
    company != "" ==> t.clientName == company
  }

  predicate InQuery(x: Text, needle: string, t: Ticket) {
    needle != "" ==> Mentions(x, needle, t)
  }

  predicate Selected(x: Text, f: Filters, t: Ticket) {
    InView(f.view, t) && InCompany(f.company, t) && InQuery(x, x.lower(x.trim(f.query)), t)
  }

  /** Array.prototype.filter. */
  function Filter<T(!new)>(p: T -> bool, s: seq<T>): (r: seq<T>)
    ensures |r| <= |s|
    ensures forall t :: t in r <==> t in s && p(t)
  {
    if s == [] then []
    else if p(s[0]) then [s[0]] + Filter(p, s[1..])
    else Filter(p, s[1..])
  }

  /** Filtering twice is filtering by both. */
  lemma {:induction false} FilterTwice<T(!new)>(p: T -> bool, q: T -> bool, both: T -> bool, s: seq<T>)
    requires forall t :: both(t) <==> p(t) && q(t)
    ensures Filter(q, Filter(p, s)) == Filter(both, s)
  {
    if s == [] {
    } else {
      FilterTwice(p, q, both, s[1..]);
      var rest := Filter(p, s[1..]);
      assert ([s[0]] + rest)[1..] == rest;
    }
  }

  lemma {:induction false} FilterSame<T(!new)>(p: T -> bool, q: T -> bool, s: seq<T>)
    requires forall t :: t in s ==> (p(t) <==> q(t))
    ensures Filter(p, s) == Filter(q, s)
  {
    if s == [] {
    } else {
      FilterSame(p, q, s[1..]);
    }
  }

  lemma {:induction false} FilterAppend<T(!new)>(p: T -> bool, s: seq<T>, x: T)
    ensures Filter(p, s + [x]) == if p(x) then Filter(p, s) + [x] else Filter(p, s)
  {
    if s == [] {
      assert [] + [x] == [x];
    } else {
      FilterAppend(p, s[1..], x);
      assert (s + [x])[1..] == s[1..] + [x];
    }
  }

  /** It keeps what satisfies p, as often as it is there. */
  lemma {:induction false} FilterMultiset<T(!new)>(p: T -> bool, s: seq<T>, t: T)
    ensures multiset(Filter(p, s))[t] == if p(t) then multiset(s)[t] else 0
  {
    if s == [] {
    } else {
      FilterMultiset(p, s[1..], t);
      assert s == [s[0]] + s[1..];
    }
  }

  /** The places at which p holds. */
  function Places<T(!new)>(p: T -> bool, s: seq<T>): set<nat> {
    set i: nat | i < |s| && p(s[i])
  }

  lemma PlacesGrow<T(!new)>(p: T -> bool, s: seq<T>, x: T)
    ensures |Places(p, s + [x])| == |Places(p, s)| + if p(x) then 1 else 0
  {
    var more := if p(x) then {|s|} else {};
    forall i: nat ensures i in Places(p, s + [x]) <==> i in Places(p, s) + more {
      if i < |s| { assert (s + [x])[i] == s[i]; }
    }
    assert Places(p, s + [x]) == Places(p, s) + more;
  }

  lemma {:induction false} FilterSize<T(!new)>(p: T -> bool, s: seq<T>)
    ensures |Filter(p, s)| == |Places(p, s)|
  {
    if s == [] {
    } else {
      var before, x := s[..|s| - 1], s[|s| - 1];
      FilterSize(p, before);
      assert s == before + [x];
      FilterAppend(p, before, x);
      PlacesGrow(p, before, x);
    }
  }

  // -------------------------------------------------------- comparators

  /** parseInt(p.slice(1), 10). */
  function PriorityRank(p: Priority): real {
    match p case P1 => 1.0 case P2 => 2.0 case P3 => 3.0 case P4 => 4.0
  }

  /** The comparator of the open views.  At-risk tickets always carry an SLA, so its
      fallback to infinity is never used. */
  function CompareOpen(a: Ticket, b: Ticket): real {
    var ar, br := if AtRisk(a) then 0.0 else 1.0, if AtRisk(b) then 0.0 else 1.0;
    if ar != br then ar - br
    else if ar == 0.0 && a.sla.value != b.sla.value then a.sla.value - b.sla.value
    else if PriorityRank(a.priority) != PriorityRank(b.priority) then PriorityRank(a.priority) - PriorityRank(b.priority)
    else a.updatedMinutesAgo - b.updatedMinutesAgo
  }

  function DaysOrZero(t: Ticket): real {
    if t.closedDaysAgo.Some? then t.closedDaysAgo.value else 0.0
  }

  function CompareClosed(a: Ticket, b: Ticket): real {
    DaysOrZero(a) - DaysOrZero(b)
  }

  function CompareFor(v: View): (Ticket, Ticket) -> real {
    if v == ClosedView then CompareClosed else CompareOpen
  }

  /** sortSLA: paused rows after running ones. */
  function CompareSla(a: Ticket, b: Ticket): real {
    if a.sla.None? && b.sla.None? then 0.0
    else if a.sla.None? then 1.0
    else if b.sla.None? then -1.0
    else a.sla.value - b.sla.value
  }

  /** The same column in descending order, for a table that negates the comparator. */
  function CompareSlaDescending(a: Ticket, b: Ticket): real {
    -CompareSla(a, b)
  }

  lemma CompareOpenIsConsistent()
    ensures Consistent(CompareOpen)
  {
  }

  lemma ComparatorsAreConsistent(v: View)
    ensures Consistent(CompareFor(v)) && Consistent(CompareSla) && Consistent(CompareSlaDescending)
  {
  }

  /** Sorting by SLA puts every running clock, in order, before every paused one. */
  lemma SlaOrder(s: seq<Ticket>, i: nat, j: nat)
    requires i < j < |s|
    ensures var t := StableSort(CompareSla, s);
            && |t| == |s| && multiset(t) == multiset(s)
            && (t[j].sla.Some? ==> t[i].sla.Some? && t[i].sla.value <= t[j].sla.value)
  {
    ComparatorsAreConsistent(All);
    SortMeaning(CompareSla, s);
    var t := StableSort(CompareSla, s);
    assert |multiset(t)| == |t| && |multiset(s)| == |s|;
    assert CompareSla(t[i], t[j]) <= 0.0;
  }

  /** And sorting by the negated comparator puts every paused ticket first. */
  lemma SlaOrderDescending(s: seq<Ticket>, i: nat, j: nat)
    requires i < j < |s|
    ensures var t := StableSort(CompareSlaDescending, s);
            && |t| == |s| && multiset(t) == multiset(s)
            && (t[i].sla.Some? ==> t[j].sla.Some? && t[i].sla.value >= t[j].sla.value)
  {
    ComparatorsAreConsistent(All);
    SortMeaning(CompareSlaDescending, s);
    var t := StableSort(CompareSlaDescending, s);
    assert |multiset(t)| == |t| && |multiset(s)| == |s|;
    assert CompareSlaDescending(t[i], t[j]) <= 0.0;
  }

  predicate PausedLast(t: seq<Ticket>) {
    forall i, j :: 0 <= i < j < |t| && t[i].sla.None? ==> t[j].sla.None?
  }

  predicate PausedFirst(t: seq<Ticket>) {
    forall i, j :: 0 <= i < j < |t| && t[i].sla.Some? ==> t[j].sla.Some?
  }

  predicate Unmixed(s: seq<Ticket>) {
    (forall t :: t in s ==> t.sla.None?) || (forall t :: t in s ==> t.sla.Some?)
  }

  lemma SameElements<T>(s: seq<T>, t: seq<T>)
    requires multiset(s) == multiset(t)
    ensures forall x :: x in s <==> x in t
  {
    forall x ensures x in s <==> x in t {
      assert x in s <==> x in multiset(s);
      assert x in t <==> x in multiset(t);
    }
  }

  lemma FirstAndLastIff(t: seq<Ticket>)
    requires PausedFirst(t)
    ensures PausedLast(t) <==> Unmixed(t)
  {
    if a, b :| 0 <= a < |t| && 0 <= b < |t| && t[a].sla.None? && t[b].sla.Some? {
      assert t[a] in t && t[b] in t;
      assert a < b;
    }
  }

  /** Paused rows stay at the bottom in both directions if and only if there are no
      paused rows or no others. */
  lemma PausedLastBothWaysIff(s: seq<Ticket>)
    ensures PausedLast(StableSort(CompareSla, s))
    ensures PausedLast(StableSort(CompareSlaDescending, s)) <==> Unmixed(s)
  {
    ComparatorsAreConsistent(All);
    SortMeaning(CompareSla, s);
    SortMeaning(CompareSlaDescending, s);
    var up, down := StableSort(CompareSla, s), StableSort(CompareSlaDescending, s);
    assert |multiset(up)| == |up| && |multiset(down)| == |down| && |multiset(s)| == |s|;
    forall i: nat, j: nat | i < j < |up| && up[i].sla.None? ensures up[j].sla.None? {
      SlaOrder(s, i, j);
    }
    forall i: nat, j: nat | i < j < |down| && down[i].sla.Some? ensures down[j].sla.Some? {
      SlaOrderDescending(s, i, j);
    }
    FirstAndLastIff(down);
    SameElements(s, down);
  }

  // ------------------------------------------------------------ listing

  function Listing(x: Text, f: Filters, store: seq<Ticket>): seq<Ticket> {
    StableSort(CompareFor(f.view), Filter(t => Selected(x, f, t), store))
  }

  /** A listing is a sorted rearrangement of what the filters select, equal tickets in
      store order; and it is the only such sequence, whatever the sorting algorithm. */
  lemma ListingMeaning(x: Text, f: Filters, store: seq<Ticket>)
    ensures var l, kept := Listing(x, f, store), Filter(t => Selected(x, f, t), store);
            && multiset(l) == multiset(kept)
            && Sorted(CompareFor(f.view), l) && StableCopy(CompareFor(f.view), kept, l)
            && forall u :: Sorted(CompareFor(f.view), u) && StableCopy(CompareFor(f.view), kept, u) ==> u == l
  {
    ComparatorsAreConsistent(f.view);
    var cmp, kept := CompareFor(f.view), Filter(t => Selected(x, f, t), store);
    SortMeaning(cmp, kept);
    var l := Listing(x, f, store);
    forall u | Sorted(cmp, u) && StableCopy(cmp, kept, u) ensures u == l {
      forall y ensures Class(cmp, y, u) == Class(cmp, y, l) {
        assert Class(cmp, y, kept) == Class(cmp, y, u);
        assert Class(cmp, y, kept) == Class(cmp, y, l);
      }
      StableSortIsUnique(cmp, u, l);
    }
  }

  /** The text contains the needle. */
  ghost predicate Contains(s: string, needle: string) {
    exists a: string, b: string :: s == a + needle + b
  }

  lemma IncludesMeaning(s: string, needle: string)
    ensures Includes(s, needle) <==> Contains(s, needle)
  {
    if i :| 0 <= i <= |s| && OccursAt(s, needle, i) {
      assert s == s[..i] + needle + s[i + |needle|..];
    }
    if a: string, b: string :| s == a + needle + b {
      assert OccursAt(s, needle, |a|);
    }
  }

  /** What a listing asks of a ticket: open or closed, the view's own condition, the
      company, and the needle in the id, the subject or one of the two names. */
  ghost predicate Wanted(x: Text, f: Filters, t: Ticket) {
    var needle := x.lower(x.trim(f.query));
    && (t.closed <==> f.view == ClosedView)
    && (f.view == Unassigned ==> t.assignee == None || t.assignee == Some(""))
    && (f.view == Mine ==> t.assignee == Some("you"))
    && (f.view == Risk ==> t.sla.Some? && t.sla.value < 7200.0)
    && (f.company == "" || t.clientName == f.company)
    && (needle == "" || Contains(x.lower(t.id), needle) || Contains(x.lower(t.subject), needle)
        || Contains(x.lower(t.requesterName), needle) || Contains(x.lower(t.clientName), needle))
  }

  /** A listing holds exactly the wanted tickets of the store, each as often as it is there. */
  lemma ListingHolds(x: Text, f: Filters, store: seq<Ticket>, t: Ticket)
    ensures multiset(Listing(x, f, store))[t] == if Wanted(x, f, t) then multiset(store)[t] else 0
  {
    var needle := x.lower(x.trim(f.query));
    IncludesMeaning(x.lower(t.id), needle);
    IncludesMeaning(x.lower(t.subject), needle);
    IncludesMeaning(x.lower(t.requesterName), needle);
    IncludesMeaning(x.lower(t.clientName), needle);
    assert Selected(x, f, t) <==> Wanted(x, f, t);
    ListingMeaning(x, f, store);
    FilterMultiset(t => Selected(x, f, t), store, t);
  }

  predicate SlaWithinTwoHours(t: Ticket) {
    t.sla.Some? && t.sla.value < 7200.0
  }

  /** P1 before P2 before P3 before P4. */
  predicate MoreUrgent(p: Priority, q: Priority) {
    p != q && (p == P1 || q == P4 || (p == P2 && q == P3))
  }

  /** The order of the open views: tickets at risk first, among them the shorter clock
      first, then by priority, then the one updated last. */
  predicate OpenOrder(a: Ticket, b: Ticket) {
    var risky, alsoRisky := SlaWithinTwoHours(a), SlaWithinTwoHours(b);
    || (risky && !alsoRisky)
    || (risky && alsoRisky && a.sla.value < b.sla.value)
    || (((!risky && !alsoRisky) || (risky && alsoRisky && a.sla == b.sla))
        && (MoreUrgent(a.priority, b.priority) || (a.priority == b.priority && a.updatedMinutesAgo <= b.updatedMinutesAgo)))
  }

  /** An open view is in that order, and a closed one by how long ago its tickets were
      closed, an unknown time counting as today. */
  lemma ListingOrder(x: Text, f: Filters, store: seq<Ticket>, i: nat, j: nat)
    requires i < j < |Listing(x, f, store)|
    ensures var a, b := Listing(x, f, store)[i], Listing(x, f, store)[j];
            && (f.view != ClosedView ==> OpenOrder(a, b))
            && (f.view == ClosedView ==>
                  (if a.closedDaysAgo.Some? then a.closedDaysAgo.value else 0.0)
                  <= (if b.closedDaysAgo.Some? then b.closedDaysAgo.value else 0.0))
  {
    var l := Listing(x, f, store);
    ListingMeaning(x, f, store);
    ListingHolds(x, f, store, l[i]);
    ListingHolds(x, f, store, l[j]);
    assert l[i] in multiset(l) && l[j] in multiset(l);
    assert CompareFor(f.view)(l[i], l[j]) <= 0.0;
  }

  /** In an open view the at-risk tickets come first, most urgent first. */
  lemma AtRiskFirst(x: Text, f: Filters, store: seq<Ticket>, i: nat, j: nat)
    requires f.view != ClosedView && i < j < |Listing(x, f, store)|
    requires AtRisk(Listing(x, f, store)[j])
    ensures var l := Listing(x, f, store);
            AtRisk(l[i]) && l[i].sla.value <= l[j].sla.value
  {
    ListingMeaning(x, f, store);
    var l := Listing(x, f, store);
    assert CompareOpen(l[i], l[j]) <= 0.0;
  }

  // ------------------------------------------------------------- counts

  datatype Counts = Counts(all: nat, unassigned: nat, mine: nat, risk: nat, closed: nat)

  function CountOf(c: Counts, v: View): nat {
    match v
    case All => c.all
    case Unassigned => c.unassigned
    case Mine => c.mine
    case Risk => c.risk
    case ClosedView => c.closed
  }

  function CountsOf(store: seq<Ticket>): Counts {
    var open := Filter((t: Ticket) => !t.closed, store);
    Counts(|open|, |Filter((t: Ticket) => t.assignee.None? || t.assignee.value == "", open)|,
           |Filter((t: Ticket) => t.assignee == Some("you"), open)|, |Filter(AtRisk, open)|,
           |Filter((t: Ticket) => t.closed, store)|)
  }

  function Viewed(v: View, store: seq<Ticket>): seq<Ticket> {
    Filter(t => InView(v, t), store)
  }

  lemma CountsAreViews(store: seq<Ticket>, v: View)
    ensures CountOf(CountsOf(store), v) == |Viewed(v, store)|
  {
    var isOpen := (t: Ticket) => !t.closed;
    match v
    case All => FilterSame(isOpen, t => InView(All, t), store);
    case Unassigned =>
      FilterTwice(isOpen, (t: Ticket) => t.assignee.None? || t.assignee.value == "", t => InView(Unassigned, t), store);
    case Mine => FilterTwice(isOpen, (t: Ticket) => t.assignee == Some("you"), t => InView(Mine, t), store);
    case Risk => FilterTwice(isOpen, AtRisk, t => InView(Risk, t), store);
    case ClosedView => FilterSame((t: Ticket) => t.closed, t => InView(ClosedView, t), store);
  }

  lemma ViewSize(store: seq<Ticket>, v: View)
    ensures |Viewed(v, store)| == |set i: nat | i < |store| && InView(v, store[i])|
  {
    var inView := (t: Ticket) => InView(v, t);
    FilterSame(t => InView(v, t), inView, store);
    FilterSize(inView, store);
    assert Places(inView, store) == set i: nat | i < |store| && InView(v, store[i]);
  }

  /** What the counts count. */
  lemma CountsMeaning(store: seq<Ticket>)
    ensures var c := CountsOf(store);
            && c.all == |set i: nat | i < |store| && !store[i].closed|
            && c.unassigned == |set i: nat | i < |store| && !store[i].closed
                                             && (store[i].assignee == None || store[i].assignee == Some(""))|
            && c.mine == |set i: nat | i < |store| && !store[i].closed && store[i].assignee == Some("you")|
            && c.risk == |set i: nat | i < |store| && !store[i].closed && store[i].sla.Some? && store[i].sla.value < 7200.0|
            && c.closed == |set i: nat | i < |store| && store[i].closed|
  {
    forall v ensures CountOf(CountsOf(store), v) == |set i: nat | i < |store| && InView(v, store[i])| {
      CountsAreViews(store, v);
      ViewSize(store, v);
    }
    assert (set i: nat | i < |store| && InView(All, store[i])) == set i: nat | i < |store| && !store[i].closed;
    assert (set i: nat | i < |store| && InView(Unassigned, store[i]))
        == set i: nat | i < |store| && !store[i].closed && (store[i].assignee == None || store[i].assignee == Some(""));
    assert (set i: nat | i < |store| && InView(Mine, store[i]))
        == set i: nat | i < |store| && !store[i].closed && store[i].assignee == Some("you");
    assert (set i: nat | i < |store| && InView(Risk, store[i]))
        == set i: nat | i < |store| && !store[i].closed && store[i].sla.Some? && store[i].sla.value < 7200.0;
    assert (set i: nat | i < |store| && InView(ClosedView, store[i])) == set i: nat | i < |store| && store[i].closed;
    assert CountOf(CountsOf(store), All) == CountsOf(store).all;
    assert CountOf(CountsOf(store), Unassigned) == CountsOf(store).unassigned;
    assert CountOf(CountsOf(store), Mine) == CountsOf(store).mine;
    assert CountOf(CountsOf(store), Risk) == CountsOf(store).risk;
    assert CountOf(CountsOf(store), ClosedView) == CountsOf(store).closed;
  }

  /** Each view's count is the length of its listing without company and query. */
  lemma CountsMatchListings(x: Text, store: seq<Ticket>, v: View)
    requires x.lower(x.trim("")) == ""
    ensures CountOf(CountsOf(store), v) == |Listing(x, Filters(v, "", ""), store)|
  {
    var f := Filters(v, "", "");
    CountsAreViews(store, v);
    FilterSame(t => InView(v, t), t => Selected(x, f, t), store);
    ListingMeaning(x, f, store);
    var l := Listing(x, f, store);
    assert |l| == |multiset(l)| == |Filter(t => Selected(x, f, t), store)|;
  }

  lemma {:induction false} OpenPlusClosed(store: seq<Ticket>)
    ensures CountsOf(store).all + CountsOf(store).closed == |store|
  {
    if store == [] {
    } else {
      OpenPlusClosed(store[1..]);
    }
  }

  // ------------------------------------------------------------ creating

  function Digit(n: nat): char
    requires n < 10
  {
    "0123456789"[n]
  }

  function DigitValue(c: char): nat {
    if '0' <= c <= '9' then (c as int) - ('0' as int) else 0
  }

  function Decimal(n: nat): string {
    if n < 10 then [Digit(n)] else Decimal(n / 10) + [Digit(n % 10)]
  }

  function DecimalValue(s: string): nat {
    if s == "" then 0 else DecimalValue(s[..|s| - 1]) * 10 + DigitValue(s[|s| - 1])
  }

  lemma {:induction false} DecimalRoundTrip(n: nat)
    ensures DecimalValue(Decimal(n)) == n
  {
    assert forall d: nat :: d < 10 ==> DigitValue(Digit(d)) == d;
    if n >= 10 {
      DecimalRoundTrip(n / 10);
      assert Decimal(n)[..|Decimal(n)| - 1] == Decimal(n / 10);
    } else {
      assert Decimal(n)[..0] == "";
    }
  }

  function TicketId(n: nat): string {
    "TKT-" + Decimal(n)
  }

  lemma TicketIdsDiffer(m: nat, n: nat)
    requires TicketId(m) == TicketId(n)
    ensures m == n
  {
    DecimalRoundTrip(m);
    DecimalRoundTrip(n);
    assert TicketId(m)[4..] == Decimal(m) && TicketId(n)[4..] == Decimal(n);
  }

  lemma TicketIdReads(n: nat)
    ensures |TicketId(n)| > 4 && TicketId(n)[..4] == "TKT-" && DecimalValue(TicketId(n)[4..]) == n
  {
    DecimalRoundTrip(n);
    assert TicketId(n)[4..] == Decimal(n);
  }

  const SEED_SIZE: nat := 22
  const FIRST_NEW: nat := 2042

  /** The seed rows are numbered 2041 down to 2020, and created ones continue upwards. */
  predicate Numbered(store: seq<Ticket>) {
    && |store| >= SEED_SIZE
    && forall i :: 0 <= i < |store| ==> store[i].id == TicketId(FIRST_NEW - SEED_SIZE + |store| - 1 - i)
  }

  function NewTicket(size: nat, subject: string, priority: Priority, clientName: string): Ticket
    requires size >= SEED_SIZE
  {
    Ticket(TicketId(FIRST_NEW + (size - SEED_SIZE)), priority,
           Some(match priority case P1 => 14400.0 case P2 => 28800.0 case _ => 86400.0),
           subject, clientName, "Novo contato", None, 0.0, false, None)
  }

  /** What a new ticket is like: the given texts, a clock of four, eight or twenty-four
      hours, open and nobody's, under the next number. */
  lemma NewTicketMeaning(size: nat, subject: string, priority: Priority, clientName: string)
    requires size >= SEED_SIZE
    ensures var t := NewTicket(size, subject, priority, clientName);
            && t.priority == priority && t.subject == subject && t.clientName == clientName
            && t.sla == Some(if priority == P1 then 4.0 * 3600.0 else if priority == P2 then 8.0 * 3600.0 else 24.0 * 3600.0)
            && !t.closed && t.assignee == None && t.updatedMinutesAgo == 0.0
            && |t.id| > 4 && t.id[..4] == "TKT-" && DecimalValue(t.id[4..]) == 2042 + (size - 22)
  {
    TicketIdReads(FIRST_NEW + (size - SEED_SIZE));
  }

  /** Ids never repeat. */
  lemma IdsAreDistinct(store: seq<Ticket>, i: nat, j: nat)
    requires Numbered(store) && i < j < |store|
    ensures store[i].id != store[j].id
  {
    if store[i].id == store[j].id {
      TicketIdsDiffer(FIRST_NEW - SEED_SIZE + |store| - 1 - i, FIRST_NEW - SEED_SIZE + |store| - 1 - j);
    }
  }

  lemma NewTicketIsNumbered(store: seq<Ticket>, t: Ticket)
    requires Numbered(store) && t.id == TicketId(FIRST_NEW + (|store| - SEED_SIZE))
    ensures Numbered([t] + store)
  {
  }

  lemma NewTicketCounts(store: seq<Ticket>, t: Ticket)
    requires !t.closed && t.assignee.None? && !AtRisk(t)
    ensures var c, c' := CountsOf(store), CountsOf([t] + store);
            c' == c.(all := c.all + 1, unassigned := c.unassigned + 1)
  {
  }

  /** Creating a ticket keeps the numbering and raises exactly two counts. */
  lemma CreateKeepsNumbering(store: seq<Ticket>, subject: string, priority: Priority, clientName: string)
    requires Numbered(store)
    ensures Numbered([NewTicket(|store|, subject, priority, clientName)] + store)
    ensures var c, c' := CountsOf(store), CountsOf([NewTicket(|store|, subject, priority, clientName)] + store);
            c' == c.(all := c.all + 1, unassigned := c.unassigned + 1)
  {
    var t := NewTicket(|store|, subject, priority, clientName);
    NewTicketIsNumbered(store, t);
    NewTicketCounts(store, t);
  }

  datatype Creation = Creation(subject: string, priority: Priority, clientName: string)

  /** The store after a sequence of createTicket calls. */
  function AfterCreates(store: seq<Ticket>, cs: seq<Creation>): (r: seq<Ticket>)
    requires |store| >= SEED_SIZE
    ensures |r| == |store| + |cs|
  {
    if cs == [] then store
    else
      var before, c := AfterCreates(store, cs[..|cs| - 1]), cs[|cs| - 1];
      [NewTicket(|before|, c.subject, c.priority, c.clientName)] + before
  }

  /** After any sequence of creations: ids still pairwise distinct, nothing but the
      open and unassigned counts has moved, and the views still cover the store. */
  lemma {:induction false} CreationsKeepEverything(store: seq<Ticket>, cs: seq<Creation>)
    requires Numbered(store)
    ensures var s, c := AfterCreates(store, cs), CountsOf(store);
            && Numbered(s) && (forall i, j :: 0 <= i < j < |s| ==> s[i].id != s[j].id)
            && CountsOf(s) == c.(all := c.all + |cs|, unassigned := c.unassigned + |cs|)
            && CountsOf(s).all + CountsOf(s).closed == |s|
  {
    var s := AfterCreates(store, cs);
    if cs != [] {
      CreationsKeepEverything(store, cs[..|cs| - 1]);
      var c := cs[|cs| - 1];
      CreateKeepsNumbering(AfterCreates(store, cs[..|cs| - 1]), c.subject, c.priority, c.clientName);
    }
    OpenPlusClosed(s);
    forall i, j | 0 <= i < j < |s| ensures s[i].id != s[j].id {
      IdsAreDistinct(s, i, j);
    }
  }

  // ------------------------------------------------- the counter object

  /** A property value of `counts`: a number, or a string once an inherited property
      has been added to. */
  datatype Count = Num(n: nat) | Str(s: string)

  datatype Entry = Entry(name: string, count: Count)

  /** The properties every object inherits from Object.prototype (sections 20.1.3 and
      B.2.2 of ECMA-262). */
  const INHERITED: set<string> := {"constructor", "hasOwnProperty", "isPrototypeOf", "propertyIsEnumerable",
                                   "toLocaleString", "toString", "valueOf", "__proto__", "__defineGetter__",
                                   "__defineSetter__", "__lookupGetter__", "__lookupSetter__"}

  function PlusOne(c: Count): Count {
    match c
    case Num(n) => Num(n + 1)
    case Str(s) => Str(s + "1")
  }

  /** counts[name] = (counts[name] ?? 0) + 1.  An inherited property is not nullish and
      converts to some text; assigning text to __proto__ has no effect. */
  function Bump(entries: seq<Entry>, name: string, describe: string -> string): seq<Entry> {
    if name == "__proto__" then entries
    else if entries == [] then
      [Entry(name, if name in INHERITED then Str(describe(name) + "1") else Num(1))]
    else if entries[0].name == name then [Entry(name, PlusOne(entries[0].count))] + entries[1..]
    else [entries[0]] + Bump(entries[1..], name, describe)
  }

  function Tally(store: seq<Ticket>, describe: string -> string): seq<Entry> {
    if store == [] then [] else Bump(Tally(store[..|store| - 1], describe), store[|store| - 1].clientName, describe)
  }

  /** The count under a name. */
  function Lookup(entries: seq<Entry>, name: string): Option<Count> {
    if entries == [] then None
    else if entries[0].name == name then Some(entries[0].count) else Lookup(entries[1..], name)
  }

  predicate NamesDiffer(entries: seq<Entry>) {
    forall i, j :: 0 <= i < j < |entries| ==> entries[i].name != entries[j].name
  }

  lemma {:induction false} BumpNames(entries: seq<Entry>, name: string, describe: string -> string)
    requires NamesDiffer(entries)
    ensures NamesDiffer(Bump(entries, name, describe))
    ensures forall e :: e in Bump(entries, name, describe) ==> e.name == name || exists d :: d in entries && d.name == e.name
  {
    if name != "__proto__" && entries != [] && entries[0].name != name {
      BumpNames(entries[1..], name, describe);
      var rest := Bump(entries[1..], name, describe);
      forall e | e in rest ensures e.name != entries[0].name {}
    }
  }

  lemma {:induction false} BumpLookup(entries: seq<Entry>, name: string, other: string, describe: string -> string)
    ensures Lookup(Bump(entries, name, describe), other) ==
            if other != name || name == "__proto__" then Lookup(entries, other)
            else match Lookup(entries, name)
                 case Some(c) => Some(PlusOne(c))
                 case None => Some(if name in INHERITED then Str(describe(name) + "1") else Num(1))
  {
    if name != "__proto__" && entries != [] && entries[0].name != name {
      BumpLookup(entries[1..], name, other, describe);
      var rest := Bump(entries[1..], name, describe);
      assert ([entries[0]] + rest)[1..] == rest;
    } else if name != "__proto__" && entries != [] {
      assert ([Entry(name, PlusOne(entries[0].count))] + entries[1..])[1..] == entries[1..];
    }
  }

  function OfClient(store: seq<Ticket>, name: string): set<nat> {
    set i: nat | i < |store| && store[i].clientName == name
  }

  function Ones(n: nat): string {
    if n == 0 then "" else Ones(n - 1) + "1"
  }

  /** What k tickets of a client leave under its name: the number k for an ordinary one;
      for an inherited name the text of the property with a "1" for each; and nothing for
      __proto__. */
  function Counted(name: string, k: nat, describe: string -> string): Option<Count> {
    if k == 0 || name == "__proto__" then None
    else Some(if name in INHERITED then Str(describe(name) + Ones(k)) else Num(k))
  }

  lemma CountedGrows(entries: seq<Entry>, name: string, k: nat, describe: string -> string)
    requires Lookup(entries, name) == Counted(name, k, describe)
    ensures Lookup(Bump(entries, name, describe), name) == Counted(name, k + 1, describe)
  {
    BumpLookup(entries, name, name, describe);
    assert describe(name) + Ones(k) + "1" == describe(name) + Ones(k + 1);
    assert describe(name) + "1" == describe(name) + Ones(1) by { assert Ones(1) == Ones(0) + "1" == "1"; }
  }

  lemma OfClientGrows(store: seq<Ticket>, t: Ticket, name: string)
    ensures |OfClient(store + [t], name)| == |OfClient(store, name)| + if t.clientName == name then 1 else 0
  {
    var more := if t.clientName == name then {|store|} else {};
    assert OfClient(store + [t], name) == OfClient(store, name) + more;
  }

  /** The counter object, name by name: each name once, with its number of tickets. */
  lemma {:induction false} TallyCounts(store: seq<Ticket>, name: string, describe: string -> string)
    ensures NamesDiffer(Tally(store, describe))
    ensures Lookup(Tally(store, describe), name) == Counted(name, |OfClient(store, name)|, describe)
  {
    if store == [] {
    } else {
      var before, t := store[..|store| - 1], store[|store| - 1];
      var entries := Tally(before, describe);
      TallyCounts(before, name, describe);
      BumpNames(entries, t.clientName, describe);
      assert store == before + [t];
      OfClientGrows(before, t, name);
      if t.clientName == name {
        CountedGrows(entries, name, |OfClient(before, name)|, describe);
      } else {
        BumpLookup(entries, t.clientName, name, describe);
      }
    }
  }

  /** The sum of the counts that are numbers. */
  function Total(entries: seq<Entry>): nat {
    if entries == [] then 0
    else (match entries[0].count case Num(n) => n case Str(_) => 0) + Total(entries[1..])
  }

  function Inheriting(store: seq<Ticket>): nat {
    |Filter((t: Ticket) => t.clientName in INHERITED, store)|
  }

  /** Text exactly under inherited names. */
  predicate WellTyped(entries: seq<Entry>) {
    forall e :: e in entries ==> (e.count.Str? <==> e.name in INHERITED)
  }

  lemma {:induction false} BumpCounts(entries: seq<Entry>, name: string, describe: string -> string)
    requires WellTyped(entries)
    ensures WellTyped(Bump(entries, name, describe))
    ensures Total(Bump(entries, name, describe)) == Total(entries) + if name in INHERITED then 0 else 1
  {
    if name != "__proto__" && entries != [] {
      assert entries[0] in entries;
      if entries[0].name == name {
        assert ([Entry(name, PlusOne(entries[0].count))] + entries[1..])[1..] == entries[1..];
      } else {
        BumpCounts(entries[1..], name, describe);
        var rest := Bump(entries[1..], name, describe);
        assert ([entries[0]] + rest)[1..] == rest;
      }
    }
  }

  /** The numeric counts miss exactly the tickets whose client is named like an
      inherited property. */
  lemma {:induction false} TallyTotal(store: seq<Ticket>, describe: string -> string)
    ensures WellTyped(Tally(store, describe))
    ensures Total(Tally(store, describe)) + Inheriting(store) == |store|
  {
    if store == [] {
    } else {
      var before, t := store[..|store| - 1], store[|store| - 1];
      TallyTotal(before, describe);
      BumpCounts(Tally(before, describe), t.clientName, describe);
      assert store == before + [t];
      FilterAppend((t: Ticket) => t.clientName in INHERITED, before, t);
    }
  }

  /** So the counts are numbers that sum to the store size exactly when no client has
      such a name. */
  lemma ClientCountsIff(store: seq<Ticket>, describe: string -> string)
    ensures Total(Tally(store, describe)) == |store| <==> forall t :: t in store ==> t.clientName !in INHERITED
  {
    TallyTotal(store, describe);
    var p := (t: Ticket) => t.clientName in INHERITED;
    if Inheriting(store) == 0 {
      assert Filter(p, store) == [];
      forall t | t in store ensures t.clientName !in INHERITED {
        assert t !in Filter(p, store);
      }
    } else {
      assert Filter(p, store)[0] in Filter(p, store);
    }
  }

  /** One ticket of a client called "constructor": its count is not a number. */
  lemma ConstructorIsNotCounted(t: Ticket, describe: string -> string)
    requires t.clientName == "constructor"
    ensures Tally([t], describe) == [Entry("constructor", Str(describe("constructor") + "1"))]
    ensures Total(Tally([t], describe)) == 0 < |[t]|
  {
    assert [t][..0] == [];
  }

  lemma NewIdIsNew(store: seq<Ticket>, t: Ticket)
    requires Numbered(store) && t.id == TicketId(FIRST_NEW + (|store| - SEED_SIZE))
    ensures forall u :: u in store ==> u.id != t.id
  {
    forall u | u in store ensures u.id != t.id {
      var j :| 0 <= j < |store| && store[j] == u;
      if u.id == t.id {
        TicketIdsDiffer(FIRST_NEW - SEED_SIZE + |store| - 1 - j, FIRST_NEW + (|store| - SEED_SIZE));
      }
    }
  }

  // ------------------------------------------------------- the client

  class Client {
    var store: seq<Ticket>

    predicate Valid()
      reads this
    {
      Numbered(store)
    }

    /** The module starts from the seed rows. */
    constructor (seed: seq<Ticket>)
      requires |seed| == SEED_SIZE && forall i :: 0 <= i < SEED_SIZE ==> seed[i].id == TicketId(2041 - i)
      ensures Valid() && store == seed
    {
      store := seed;
    }

    /** The first filters: open or closed, then the view's own. */
    method FilterView(v: View) returns (list: seq<Ticket>)
      ensures list == Viewed(v, store)
    {
      var isOpen := (t: Ticket) => !t.closed;
      var inView := (t: Ticket) => InView(v, t);
      if v == ClosedView {
        list := Filter((t: Ticket) => t.closed, store);
        FilterSame((t: Ticket) => t.closed, inView, store);
        return;
      }
      list := Filter(isOpen, store);
      if v == Unassigned {
        var own := (t: Ticket) => t.assignee.None? || t.assignee.value == "";
        list := Filter(own, list);
        FilterTwice(isOpen, own, inView, store);
      } else if v == Mine {
        var own := (t: Ticket) => t.assignee == Some("you");
        list := Filter(own, list);
        FilterTwice(isOpen, own, inView, store);
      } else if v == Risk {
        list := Filter(AtRisk, list);
        FilterTwice(isOpen, AtRisk, inView, store);
      } else {
        FilterSame(isOpen, inView, store);
      }
      FilterSame(inView, t => InView(v, t), store);
    }

    method ApplyFilters(x: Text, f: Filters) returns (list: seq<Ticket>)
      ensures list == Listing(x, f, store)
    {
      var needle := x.lower(x.trim(f.query));
      ghost var inView := (t: Ticket) => InView(f.view, t);
      ghost var inCompany := (t: Ticket) => InView(f.view, t) && InCompany(f.company, t);
      ghost var selected := (t: Ticket) => Selected(x, f, t);
      list := FilterView(f.view);
      FilterSame(t => InView(f.view, t), inView, store);
      if f.company != "" {
        var byCompany := (t: Ticket) => t.clientName == f.company;
        list := Filter(byCompany, list);
        FilterTwice(inView, byCompany, inCompany, store);
      } else {
        FilterSame(inView, inCompany, store);
      }
      if needle != "" {
        var byQuery := (t: Ticket) => Mentions(x, needle, t);
        list := Filter(byQuery, list);
        FilterTwice(inCompany, byQuery, selected, store);
      } else {
        FilterSame(inCompany, selected, store);
      }
      FilterSame(selected, t => Selected(x, f, t), store);
      list := StableSort(CompareFor(f.view), list);
    }

    method GetTicketCounts() returns (c: Counts)
      ensures forall v :: CountOf(c, v) == |Viewed(v, store)|
      ensures c.all + c.closed == |store|
      ensures c == CountsOf(store)
    {
      c := CountsOf(store);
      OpenPlusClosed(store);
      forall v ensures CountOf(c, v) == |Viewed(v, store)| {
        CountsAreViews(store, v);
      }
    }

    /** The counter object, filled ticket by ticket. */
    method ListClientNames(describe: string -> string) returns (entries: seq<Entry>)
      ensures entries == Tally(store, describe)
    {
      entries := [];
      for i := 0 to |store|
        invariant entries == Tally(store[..i], describe)
      {
        assert store[..i + 1][..i] == store[..i];
        entries := Bump(entries, store[i].clientName, describe);
      }
      assert store[..|store|] == store;
    }

    method CreateTicket(subject: string, priority: Priority, clientName: string) returns (t: Ticket)
      requires Valid()
      modifies this
      ensures Valid() && store == [t] + old(store)
      ensures t == NewTicket(|old(store)|, subject, priority, clientName)
      ensures forall u :: u in old(store) ==> u.id != t.id
    {
      var sla := if priority == P1 then 14400.0 else if priority == P2 then 28800.0 else 86400.0;
      t := Ticket(TicketId(FIRST_NEW + (|store| - SEED_SIZE)), priority, Some(sla), subject, clientName,
                  "Novo contato", None, 0.0, false, None);
      NewTicketIsNumbered(store, t);
      NewIdIsNew(store, t);
      store := [t] + store;
    }
  }
}
