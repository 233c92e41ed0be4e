/** The search highlighter of web/src/components/tickets/tickets-columns.tsx. */
module Highlight {

  /** A mark remembers where it starts, as its React key does. */
  datatype Part = Plain(text: string) | Mark(at: nat, text: string)

  /** String.prototype.slice on non-negative bounds. */
  function Slice(s: string, from: nat, to: nat): string {
    var hi := if to <= |s| then to else |s|;
    if from <= hi then s[from..hi] else ""
  }

  predicate Occurs(s: string, pat: string, p: nat) {
    p + |pat| <= |s| && s[p..p + |pat|] == pat
  }

  /** String.prototype.indexOf from position `i` on, |s| + 1 when there is none. */
  function IndexOf(s: string, pat: string, i: nat): (p: nat)
    ensures p <= |s| ==> i <= p
    decreases |s| + 1 - i
  {
    if i + |pat| > |s| then |s| + 1
    else if s[i..i + |pat|] == pat then i
    else IndexOf(s, pat, i + 1)
  }

  /** The first occurrence from `i` on, if there is one. */
  lemma {:induction false} IndexOfIsFirst(s: string, pat: string, i: nat)
    ensures var p := IndexOf(s, pat, i);
            && (p <= |s| ==> Occurs(s, pat, p))
            && (forall q: nat :: i <= q && Occurs(s, pat, q) ==> p <= q && p <= |s|)
    decreases |s| + 1 - i
  {
    if i + |pat| <= |s| && s[i..i + |pat|] != pat {
      IndexOfIsFirst(s, pat, i + 1);
    }
  }

  function Concat(parts: seq<Part>): string {
    if parts == [] then "" else Concat(parts[..|parts| - 1]) + parts[|parts| - 1].text
  }

  /** Position `p` lies inside a mark of length n. */
  predicate Covered(parts: seq<Part>, n: nat, p: nat) {
    exists k :: 0 <= k < |parts| && parts[k].Mark? && parts[k].at <= p < parts[k].at + n
  }

  predicate SeparateMarks(parts: seq<Part>, n: nat) {
    forall j, k :: 0 <= j < k < |parts| && parts[j].Mark? && parts[k].Mark? ==> parts[j].at + n <= parts[k].at
  }

  lemma ConcatAppend(parts: seq<Part>, p: Part)
    ensures Concat(parts + [p]) == Concat(parts) + p.text
  {
  }

  /** Every mark shows the text of a found place and ends by `i`. */
  predicate MarksOk(text: string, n: nat, found: set<nat>, parts: seq<Part>, i: nat) {
    forall k :: 0 <= k < |parts| && parts[k].Mark? ==>
      parts[k].at in found && parts[k].at + n <= i && parts[k].text == Slice(text, parts[k].at, parts[k].at + n)
  }

  predicate AllCovered(n: nat, found: set<nat>, parts: seq<Part>, i: nat) {
    forall p: nat {:trigger Covered(parts, n, p)} :: p < i && p in found ==> Covered(parts, n, p)
  }

  /** What the parts say about the text before position `i`, for any set of places
      `found`: marks of length n stand at found places only, do not overlap, and
      every found place starts inside one. */
  predicate ScanOk(text: string, n: nat, found: set<nat>, parts: seq<Part>, i: nat) {
    MarksOk(text, n, found, parts, i) && SeparateMarks(parts, n) && AllCovered(n, found, parts, i)
  }

  predicate NoneFound(found: set<nat>, from: nat, to: nat) {
    forall p: nat :: from <= p < to ==> p !in found
  }

  lemma CoveredStays(parts: seq<Part>, part: Part, n: nat, p: nat)
    requires Covered(parts, n, p)
    ensures Covered(parts + [part], n, p)
  {
    var k :| 0 <= k < |parts| && parts[k].Mark? && parts[k].at <= p < parts[k].at + n;
    assert (parts + [part])[k] == parts[k];
  }

  lemma AppendSeparate(text: string, n: nat, found: set<nat>, parts: seq<Part>, i: nat, part: Part)
    requires MarksOk(text, n, found, parts, i) && SeparateMarks(parts, n) && (part.Mark? ==> part.at == i)
    ensures SeparateMarks(parts + [part], n)
  {
  }

  /** Text without a found place is copied. */
  lemma ScanPlain(text: string, n: nat, found: set<nat>, parts: seq<Part>, i: nat, to: nat, s: string)
    requires ScanOk(text, n, found, parts, i) && i <= to && NoneFound(found, i, to)
    ensures ScanOk(text, n, found, parts + [Plain(s)], to)
  {
    assert MarksOk(text, n, found, parts + [Plain(s)], to);
    AppendSeparate(text, n, found, parts, i, Plain(s));
    forall p: nat | p < to && p in found ensures Covered(parts + [Plain(s)], n, p) {
      CoveredStays(parts, Plain(s), n, p);
    }
    assert AllCovered(n, found, parts + [Plain(s)], to);
  }

  lemma MarkCovers(n: nat, found: set<nat>, parts: seq<Part>, mark: Part)
    requires mark.Mark? && AllCovered(n, found, parts, mark.at)
    ensures AllCovered(n, found, parts + [mark], mark.at + n)
  {
    var parts' := parts + [mark];
    forall p: nat | p < mark.at + n && p in found ensures Covered(parts', n, p) {
      if p < mark.at {
        CoveredStays(parts, mark, n, p);
      } else {
        assert parts'[|parts|] == mark;
      }
    }
  }

  /** The next found place is marked. */
  lemma ScanMark(text: string, n: nat, found: set<nat>, parts: seq<Part>, i: nat)
    requires ScanOk(text, n, found, parts, i) && i in found && n > 0
    ensures ScanOk(text, n, found, parts + [Mark(i, Slice(text, i, i + n))], i + n)
  {
    var mark := Mark(i, Slice(text, i, i + n));
    assert MarksOk(text, n, found, parts + [mark], i + n);
    AppendSeparate(text, n, found, parts, i, mark);
    MarkCovers(n, found, parts, mark);
  }

  /** The parts concatenate to the text up to `i`. */
  predicate Shows(parts: seq<Part>, text: string, i: nat) {
    Concat(parts) == Slice(text, 0, i)
  }

  lemma ShowsAll(parts: seq<Part>, text: string, i: nat)
    requires Shows(parts, text, i) && i >= |text|
    ensures Concat(parts) == text
  {
  }

  lemma ShowsMore(parts: seq<Part>, text: string, i: nat, j: nat, part: Part)
    requires i <= j && Shows(parts, text, i) && part.text == Slice(text, i, j)
    ensures Shows(parts + [part], text, j)
  {
  }

  /** The places the loop looks for. */
  function Places(lowText: string, low: string): set<nat> {
    set p: nat | p <= |lowText| && Occurs(lowText, low, p)
  }

  /** The parts tile the text up to `i`: a mark of length n at every found place the
      loop stops at, and plain text without a found place in between. */
  predicate Tiles(n: nat, found: set<nat>, parts: seq<Part>, i: nat) {
    if parts == [] then i == 0
    else
      var last := parts[|parts| - 1];
      && |last.text| <= i && Tiles(n, found, parts[..|parts| - 1], i - |last.text|)
      && match last
         case Mark(at, t) => at + |t| == i && |t| == n && at in found
         case Plain(t) => NoneFound(found, i - |t|, i)
  }

  lemma TilesAppend(n: nat, found: set<nat>, parts: seq<Part>, i: nat, part: Part)
    requires Tiles(n, found, parts, i)
    requires match part
             case Mark(at, t) => at == i && |t| == n && i in found
             case Plain(t) => NoneFound(found, i, i + |t|)
    ensures Tiles(n, found, parts + [part], i + |part.text|)
  {
  }

  lemma TilesLast(text: string, n: nat, found: set<nat>, parts: seq<Part>, i: nat, last: Part)
    requires n > 0 && ScanOk(text, n, found, parts, i)
    requires match last
             case Mark(at, t) => at == i && t == Slice(text, i, i + n) && |t| == n && i in found
             case Plain(t) => NoneFound(found, i, i + |t|)
    ensures ScanOk(text, n, found, parts + [last], i + |last.text|)
  {
    if last.Plain? {
      ScanPlain(text, n, found, parts, i, i + |last.text|, last.text);
    } else {
      ScanMark(text, n, found, parts, i);
    }
  }

  lemma LastText(text: string, parts: seq<Part>, i: nat)
    requires parts != [] && i <= |text| && Concat(parts) == text[..i]
    ensures var last := parts[|parts| - 1].text;
            && |last| <= i && last == Slice(text, i - |last|, i)
            && Concat(parts[..|parts| - 1]) == text[..i - |last|]
  {
    var init, last := Concat(parts[..|parts| - 1]), parts[|parts| - 1].text;
    assert init + last == text[..i];
    assert init == (init + last)[..|init|] && last == (init + last)[|init|..];
  }

  lemma {:induction false} TilesMeaning(text: string, n: nat, found: set<nat>, parts: seq<Part>, i: nat)
    requires n > 0 && i <= |text| && Tiles(n, found, parts, i) && Concat(parts) == text[..i]
    ensures ScanOk(text, n, found, parts, i)
  {
    if parts == [] {
    } else {
      var init, last := parts[..|parts| - 1], parts[|parts| - 1];
      assert init + [last] == parts;
      LastText(text, parts, i);
      assert ScanOk(text, n, found, init + [last], i) by {
        TilesMeaning(text, n, found, init, i - |last.text|);
        TilesLast(text, n, found, init, i - |last.text|, last);
      }
    }
  }

  lemma NextFound(lowText: string, low: string, i: nat)
    requires low != ""
    ensures var idx, found := IndexOf(lowText, low, i), Places(lowText, low);
            if idx > |lowText| then NoneFound(found, i, |lowText|)
            else idx + |low| <= |lowText| && NoneFound(found, i, idx) && idx in found
  {
    IndexOfIsFirst(lowText, low, i);
  }

  // ------------------------------------------------- the scanning loop

  /** What the loop searches: the lowered needle in the lowered text.  A mark has the
      length of the needle as it was typed. */
  datatype Search = Search(text: string, lowText: string, low: string, needleLength: nat)

  /** The unmarked text before the next occurrence, if there is any. */
  function WithGap(s: Search, parts: seq<Part>, i: nat, idx: nat): seq<Part> {
    if idx > i then parts + [Plain(Slice(s.text, i, idx))] else parts
  }

  /** One turn: the parts pushed so far and the position reached. */
  function Turn(s: Search, parts: seq<Part>, i: nat): (r: (seq<Part>, nat))
    requires s.needleLength > 0 && i < |s.text|
    ensures r.1 > i
  {
    var idx, n := IndexOf(s.lowText, s.low, i), s.needleLength;
    if idx > |s.lowText| then (parts + [Plain(Slice(s.text, i, |s.text|))], |s.text|)
    else
      (WithGap(s, parts, i, idx) + [Mark(idx, Slice(s.text, idx, idx + n))], idx + n)
  }

  function ScanFrom(s: Search, parts: seq<Part>, i: nat): (seq<Part>, nat)
    requires s.needleLength > 0
    decreases if i < |s.text| then |s.text| - i else 0
  {
    if i >= |s.text| then (parts, i) else ScanFrom(s, Turn(s, parts, i).0, Turn(s, parts, i).1)
  }

  method Scan(s: Search) returns (parts: seq<Part>)
    requires s.needleLength > 0
    ensures parts == ScanFrom(s, [], 0).0
  {
    parts := [];
    var i := 0;
    while i < |s.text|
      invariant ScanFrom(s, parts, i) == ScanFrom(s, [], 0)
    {
      ghost var turned := Turn(s, parts, i);
      var idx := IndexOf(s.lowText, s.low, i);
      if idx > |s.lowText| {
        parts := parts + [Plain(Slice(s.text, i, |s.text|))];
        i := |s.text|;
        break;
      }
      if idx > i {
        parts := parts + [Plain(Slice(s.text, i, idx))];
      }
      parts := parts + [Mark(idx, Slice(s.text, idx, idx + s.needleLength))];
      i := idx + s.needleLength;
    }
  }

  /** What holds at the start and survives every turn holds at the end. */
  lemma {:induction false} ScanInduction(s: Search, ok: (seq<Part>, nat) -> bool, parts: seq<Part>, i: nat)
    requires s.needleLength > 0 && ok(parts, i)
    requires forall ps: seq<Part>, j: nat {:trigger ok(ps, j)} :: j < |s.text| && ok(ps, j) ==> ok(Turn(s, ps, j).0, Turn(s, ps, j).1)
    ensures var r := ScanFrom(s, parts, i); ok(r.0, r.1) && r.1 >= |s.text|
    decreases if i < |s.text| then |s.text| - i else 0
  {
    if i < |s.text| {
      ScanInduction(s, ok, Turn(s, parts, i).0, Turn(s, parts, i).1);
    }
  }

  lemma GapShows(s: Search, parts: seq<Part>, i: nat, idx: nat)
    requires i <= idx && Shows(parts, s.text, i)
    ensures Shows(WithGap(s, parts, i, idx), s.text, idx)
  {
    if idx > i {
      ShowsMore(parts, s.text, i, idx, Plain(Slice(s.text, i, idx)));
    }
  }

  lemma TurnShows(s: Search, parts: seq<Part>, i: nat)
    requires s.needleLength > 0 && i < |s.text| && Shows(parts, s.text, i)
    ensures var r := Turn(s, parts, i); Shows(r.0, s.text, r.1)
  {
    var idx, n := IndexOf(s.lowText, s.low, i), s.needleLength;
    if idx > |s.lowText| {
      ShowsMore(parts, s.text, i, |s.text|, Plain(Slice(s.text, i, |s.text|)));
    } else {
      GapShows(s, parts, i, idx);
      ShowsMore(WithGap(s, parts, i, idx), s.text, idx, idx + n, Mark(idx, Slice(s.text, idx, idx + n)));
    }
  }

  /** Lower-casing has kept the lengths of the text and of the needle. */
  predicate Even(s: Search) {
    |s.lowText| == |s.text| && |s.low| == s.needleLength
  }

  lemma GapTiles(s: Search, n: nat, found: set<nat>, parts: seq<Part>, i: nat, idx: nat)
    requires i <= idx <= |s.text| && Tiles(n, found, parts, i) && NoneFound(found, i, idx)
    ensures Tiles(n, found, WithGap(s, parts, i, idx), idx)
  {
  }

  lemma TurnTiles(s: Search, parts: seq<Part>, i: nat)
    requires Even(s) && s.low != "" && i < |s.text| && Tiles(|s.low|, Places(s.lowText, s.low), parts, i)
    ensures var r := Turn(s, parts, i); r.1 <= |s.text| && Tiles(|s.low|, Places(s.lowText, s.low), r.0, r.1)
  {
    NextFound(s.lowText, s.low, i);
    var n, found, idx := |s.low|, Places(s.lowText, s.low), IndexOf(s.lowText, s.low, i);
    if idx > |s.lowText| {
      TilesAppend(n, found, parts, i, Plain(Slice(s.text, i, |s.text|)));
    } else {
      GapTiles(s, n, found, parts, i, idx);
      TilesAppend(n, found, WithGap(s, parts, i, idx), idx, Mark(idx, Slice(s.text, idx, idx + n)));
    }
  }

  /** Whatever the lowered strings are, the loop loses no text. */
  lemma ScanShows(s: Search)
    requires s.needleLength > 0
    ensures Concat(ScanFrom(s, [], 0).0) == s.text
  {
    var ok := (ps: seq<Part>, j: nat) => Shows(ps, s.text, j);
    forall ps: seq<Part>, j: nat | j < |s.text| && ok(ps, j) ensures ok(Turn(s, ps, j).0, Turn(s, ps, j).1) {
      TurnShows(s, ps, j);
    }
    ScanInduction(s, ok, [], 0);
    ShowsAll(ScanFrom(s, [], 0).0, s.text, ScanFrom(s, [], 0).1);
  }

  /** If lower-casing has kept the lengths, the parts tile the text. */
  lemma ScanTiles(s: Search)
    requires Even(s) && s.low != ""
    ensures Tiles(|s.low|, Places(s.lowText, s.low), ScanFrom(s, [], 0).0, |s.text|)
  {
    var ok := (ps: seq<Part>, j: nat) => j <= |s.text| && Tiles(|s.low|, Places(s.lowText, s.low), ps, j);
    forall ps: seq<Part>, j: nat | j < |s.text| && ok(ps, j) ensures ok(Turn(s, ps, j).0, Turn(s, ps, j).1) {
      TurnTiles(s, ps, j);
    }
    ScanInduction(s, ok, [], 0);
  }

  lemma ScanIsOk(s: Search)
    requires Even(s) && s.low != ""
    ensures ScanOk(s.text, |s.low|, Places(s.lowText, s.low), ScanFrom(s, [], 0).0, |s.text|)
  {
    ScanShows(s);
    ScanTiles(s);
    assert s.text[..|s.text|] == s.text;
    TilesMeaning(s.text, |s.low|, Places(s.lowText, s.low), ScanFrom(s, [], 0).0, |s.text|);
  }

  /** highlight, on a needle that is already trimmed.  Lower-casing is arbitrary, but
      does not erase a needle.  The parts always concatenate to the text.  If it keeps
      the lengths of the text and of the needle, then every mark is a place where the
      lower-cased text shows the lower-cased needle, marks do not overlap, and every
      occurrence starts inside a mark. */
  method Highlight(text: string, needle: string, lower: string -> string) returns (parts: seq<Part>)
    requires needle != "" ==> lower(needle) != ""
    ensures Concat(parts) == text
    ensures needle == "" ==> parts == [Plain(text)]
    ensures needle != "" && |lower(text)| == |text| && |lower(needle)| == |needle| ==>
              ScanOk(text, |needle|, Places(lower(text), lower(needle)), parts, |text|)
    ensures needle != "" ==> parts == ScanFrom(Search(text, lower(text), lower(needle), |needle|), [], 0).0
  {
    if needle == "" {
      ConcatAppend([], Plain(text));
      return [Plain(text)];
    }
    var s := Search(text, lower(text), lower(needle), |needle|);
    parts := Scan(s);
    ScanShows(s);
    if Even(s) { ScanIsOk(s); }
  }

  // -------------------------------------- lower-casing unit by unit

  /** Lower-casing of single units. */
  datatype Casing = Casing(unit: char -> string)

  /** Each unit is lowered by itself, possibly to several. */
  function LowerAll(lc: Casing, s: string): string {
    if s == "" then "" else LowerAll(lc, s[..|s| - 1]) + lc.unit(s[|s| - 1])
  }

  /** No unit disappears, and what is lowered stays as it is. */
  ghost predicate LowersUnits(lc: Casing) {
    (forall c :: lc.unit(c) != "") && (forall c, d :: d in lc.unit(c) ==> lc.unit(d) == [d])
  }

  /** Every unit of s is lowered to one unit. */
  predicate Single(lc: Casing, s: string) {
    forall k :: 0 <= k < |s| ==> |lc.unit(s[k])| == 1
  }

  function UnitSearch(lc: Casing, text: string, needle: string): Search {
    Search(text, LowerAll(lc, text), LowerAll(lc, needle), |needle|)
  }

  /** Every mark equals the needle up to case. */
  predicate MarksMatch(lc: Casing, needle: string, parts: seq<Part>) {
    forall k :: 0 <= k < |parts| && parts[k].Mark? ==> LowerAll(lc, parts[k].text) == LowerAll(lc, needle)
  }

  /** Every place that equals the needle up to case starts in a mark. */
  predicate MatchesMarked(lc: Casing, text: string, needle: string, parts: seq<Part>) {
    forall p: nat :: p + |needle| <= |text| && LowerAll(lc, text[p..p + |needle|]) == LowerAll(lc, needle)
      ==> Covered(parts, |needle|, p)
  }

  predicate MarksRight(lc: Casing, text: string, needle: string)
    requires needle != ""
  {
    var parts := ScanFrom(UnitSearch(lc, text, needle), [], 0).0;
    MarksMatch(lc, needle, parts) && MatchesMarked(lc, text, needle, parts)
  }

  lemma {:induction false} LowerSingle(lc: Casing, s: string)
    requires Single(lc, s)
    ensures |LowerAll(lc, s)| == |s|
    ensures forall k :: 0 <= k < |s| ==> LowerAll(lc, s)[k] == lc.unit(s[k])[0]
  {
    if s == "" {
    } else {
      LowerSingle(lc, s[..|s| - 1]);
    }
  }

  lemma LowerSlice(lc: Casing, s: string, a: nat, b: nat)
    requires a <= b <= |s| && Single(lc, s)
    ensures |LowerAll(lc, s)| == |s| && LowerAll(lc, s[a..b]) == LowerAll(lc, s)[a..b]
  {
    assert Single(lc, s[a..b]) by {
      assert forall k :: 0 <= k < b - a ==> s[a..b][k] == s[a + k];
    }
    LowerSingle(lc, s);
    LowerSingle(lc, s[a..b]);
  }

  /** The text of one mark. */
  lemma MarkMatches(lc: Casing, text: string, at: nat, shown: string)
    requires Single(lc, text) && at + |shown| <= |text| && shown == text[at..at + |shown|]
    requires |LowerAll(lc, text)| == |text|
    ensures LowerAll(lc, shown) == LowerAll(lc, text)[at..at + |shown|]
  {
    LowerSlice(lc, text, at, at + |shown|);
  }

  /** A mark as the scan leaves it. */
  lemma PlaceIsOccurrence(lowText: string, low: string, text: string, part: Part)
    requires part.Mark? && part.at in Places(lowText, low) && |lowText| == |text|
    requires part.text == Slice(text, part.at, part.at + |low|)
    ensures part.at + |low| <= |text| && |part.text| == |low| && lowText[part.at..part.at + |low|] == low
    ensures part.text == text[part.at..part.at + |low|]
  {
  }

  lemma OneMark(lc: Casing, text: string, lowText: string, low: string, part: Part)
    requires lowText == LowerAll(lc, text) && Single(lc, text) && |lowText| == |text|
    requires part.Mark? && part.at in Places(lowText, low) && part.text == Slice(text, part.at, part.at + |low|)
    ensures LowerAll(lc, part.text) == low
  {
    PlaceIsOccurrence(lowText, low, text, part);
    MarkMatches(lc, text, part.at, part.text);
  }

  lemma {:induction false} MarksMatchOf(lc: Casing, text: string, needle: string, lowText: string, low: string, parts: seq<Part>)
    requires lowText == LowerAll(lc, text) && low == LowerAll(lc, needle)
    requires Single(lc, text) && |lowText| == |text| && |low| == |needle|
    requires MarksOk(text, |low|, Places(lowText, low), parts, |text|)
    ensures MarksMatch(lc, needle, parts)
  {
    forall k | 0 <= k < |parts| && parts[k].Mark? ensures LowerAll(lc, parts[k].text) == LowerAll(lc, needle) {
      OneMark(lc, text, lowText, low, parts[k]);
    }
  }

  lemma {:induction false} MatchesMarkedOf(lc: Casing, text: string, needle: string, parts: seq<Part>)
    requires Single(lc, text) && needle != "" && |LowerAll(lc, needle)| == |needle|
    requires AllCovered(|needle|, Places(LowerAll(lc, text), LowerAll(lc, needle)), parts, |text|)
    ensures MatchesMarked(lc, text, needle, parts)
  {
    forall p: nat | p + |needle| <= |text| && LowerAll(lc, text[p..p + |needle|]) == LowerAll(lc, needle)
      ensures Covered(parts, |needle|, p)
    {
      LowerSlice(lc, text, p, p + |needle|);
      assert p in Places(LowerAll(lc, text), LowerAll(lc, needle));
    }
  }

  /** Single units give right marks, for every needle that keeps its length. */
  lemma SingleMarksRight(lc: Casing, text: string, needle: string)
    requires Single(lc, text) && needle != "" && |LowerAll(lc, needle)| == |needle|
    ensures MarksRight(lc, text, needle)
  {
    var s := UnitSearch(lc, text, needle);
    LowerSingle(lc, text);
    ScanIsOk(s);
    MarksMatchOf(lc, text, needle, s.lowText, s.low, ScanFrom(s, [], 0).0);
    MatchesMarkedOf(lc, text, needle, ScanFrom(s, [], 0).0);
  }

  /** Before the first unit that is lowered to several, positions agree. */
  lemma {:induction false} LowerAt(lc: Casing, s: string, j: nat)
    requires j < |s| && Single(lc, s[..j]) && lc.unit(s[j]) != ""
    ensures j < |LowerAll(lc, s)| && LowerAll(lc, s)[j] == lc.unit(s[j])[0]
  {
    if j == |s| - 1 {
      LowerSingle(lc, s[..j]);
    } else {
      assert s[..|s| - 1][..j] == s[..j];
      LowerAt(lc, s[..|s| - 1], j);
    }
  }

  lemma UnitTurn(s: Search, parts: seq<Part>, i: nat, j: nat)
    requires s.needleLength == |s.low| == 1 && i <= j < |s.text| && j < |s.lowText| && s.lowText[j] == s.low[0]
    ensures var r := Turn(s, parts, i); r.1 > j ==> Mark(j, Slice(s.text, j, j + 1)) in r.0
  {
    IndexOfIsFirst(s.lowText, s.low, i);
    assert s.lowText[j..j + 1] == s.low;
    assert Occurs(s.lowText, s.low, j);
  }

  lemma TurnExtends(s: Search, parts: seq<Part>, i: nat, part: Part)
    requires s.needleLength > 0 && i < |s.text| && part in parts
    ensures part in Turn(s, parts, i).0
  {
  }

  /** A needle of one unit is marked wherever the lowered text shows it. */
  lemma UnitIsMarked(s: Search, j: nat)
    requires s.needleLength == |s.low| == 1 && j < |s.text| && j < |s.lowText| && s.lowText[j] == s.low[0]
    ensures Mark(j, Slice(s.text, j, j + 1)) in ScanFrom(s, [], 0).0
  {
    var mark := Mark(j, Slice(s.text, j, j + 1));
    var ok := (ps: seq<Part>, i: nat) => i > j ==> mark in ps;
    forall ps: seq<Part>, i: nat | i < |s.text| && ok(ps, i) ensures ok(Turn(s, ps, i).0, Turn(s, ps, i).1) {
      if i <= j { UnitTurn(s, ps, i, j); } else { TurnExtends(s, ps, i, mark); }
    }
    ScanInduction(s, ok, [], 0);
  }

  lemma LowerUnit(lc: Casing, c: char)
    ensures LowerAll(lc, [c]) == lc.unit(c)
  {
    assert [c][..0] == "";
    assert LowerAll(lc, [c]) == "" + lc.unit(c);
  }

  /** A unit that is lowered to several is marked in a search for the first of them. */
  lemma LengtheningMarksWrong(lc: Casing, text: string, j: nat)
    requires LowersUnits(lc) && j < |text| && Single(lc, text[..j]) && |lc.unit(text[j])| != 1
    ensures var needle := [lc.unit(text[j])[0]];
            |LowerAll(lc, needle)| == 1 && !MarksRight(lc, text, needle)
  {
    var d := lc.unit(text[j])[0];
    LowerUnit(lc, d);
    LowerUnit(lc, text[j]);
    var s := UnitSearch(lc, text, [d]);
    LowerAt(lc, text, j);
    UnitIsMarked(s, j);
    var parts := ScanFrom(s, [], 0).0;
    var k :| 0 <= k < |parts| && parts[k] == Mark(j, Slice(text, j, j + 1));
    assert parts[k].text == [text[j]];
  }

  lemma FirstLengthening(lc: Casing, text: string) returns (j: nat)
    requires !Single(lc, text)
    ensures j < |text| && Single(lc, text[..j]) && |lc.unit(text[j])| != 1
  {
    j := 0;
    while |lc.unit(text[j])| == 1
      invariant j < |text| && forall k :: 0 <= k < j ==> |lc.unit(text[k])| == 1
      invariant exists k :: j <= k < |text| && |lc.unit(text[k])| != 1
      decreases |text| - j
    {
      j := j + 1;
    }
  }

  /** Exactly which texts are searched rightly, for every needle whose own lowering keeps
      its length: those whose every unit is lowered to one unit. */
  lemma MarksRightIff(lc: Casing, text: string)
    requires LowersUnits(lc)
    ensures (forall needle: string :: needle != "" && |LowerAll(lc, needle)| == |needle| ==> MarksRight(lc, text, needle))
            <==> Single(lc, text)
  {
    if Single(lc, text) {
      forall needle: string | needle != "" && |LowerAll(lc, needle)| == |needle| ensures MarksRight(lc, text, needle) {
        SingleMarksRight(lc, text, needle);
      }
    } else {
      var j := FirstLengthening(lc, text);
      LengtheningMarksWrong(lc, text, j);
    }
  }

  /** Lowering never shortens, and what it lengthens contains a lengthened unit. */
  lemma {:induction false} LowerLength(lc: Casing, s: string)
    requires LowersUnits(lc)
    ensures |LowerAll(lc, s)| >= |s|
    ensures |LowerAll(lc, s)| > |s| ==> exists c: char, q: nat :: |lc.unit(c)| > 1 && Occurs(LowerAll(lc, s), lc.unit(c), q)
  {
    if s == "" {
    } else {
      var init, c := s[..|s| - 1], s[|s| - 1];
      var low := LowerAll(lc, init);
      LowerLength(lc, init);
      assert LowerAll(lc, s) == low + lc.unit(c);
      if |lc.unit(c)| > 1 {
        assert Occurs(low + lc.unit(c), lc.unit(c), |low|);
      } else if |low| > |init| {
        var d: char, q: nat :| |lc.unit(d)| > 1 && Occurs(low, lc.unit(d), q);
        OccursLonger(low, lc.unit(c), lc.unit(d), q);
      }
    }
  }

  lemma OccursLonger(s: string, t: string, pat: string, q: nat)
    requires Occurs(s, pat, q)
    ensures Occurs(s + t, pat, q)
  {
    assert (s + t)[q..q + |pat|] == s[q..q + |pat|];
  }

  lemma OccursWithin(s: string, mid: string, pat: string, p: nat, q: nat)
    requires Occurs(s, mid, p) && Occurs(mid, pat, q)
    ensures Occurs(s, pat, p + q)
  {
    var there, found := s[p + q..p + q + |pat|], mid[q..q + |pat|];
    forall k | 0 <= k < |pat| ensures there[k] == found[k] {
      assert s[p..p + |mid|][q + k] == mid[q + k];
    }
  }

  /** Without an occurrence nothing is marked. */
  lemma NothingFound(s: Search)
    requires s.needleLength > 0 && IndexOf(s.lowText, s.low, 0) > |s.lowText|
    ensures forall part :: part in ScanFrom(s, [], 0).0 ==> part.Plain?
  {
    if s.text != "" {
      var r := Turn(s, [], 0);
      assert r == ([Plain(Slice(s.text, 0, |s.text|))], |s.text|) by {
        assert [] + [Plain(Slice(s.text, 0, |s.text|))] == [Plain(Slice(s.text, 0, |s.text|))];
      }
      assert ScanFrom(s, [], 0) == ScanFrom(s, r.0, r.1) == r;
    }
  }

  /** A stretch of single units is lowered to as many, so it never equals a needle that
      is lowered to more. */
  lemma LongerNeverMatches(lc: Casing, text: string, needle: string, p: nat)
    requires Single(lc, text) && |LowerAll(lc, needle)| > |needle| && p + |needle| <= |text|
    ensures LowerAll(lc, text[p..p + |needle|]) != LowerAll(lc, needle)
  {
    LowerSlice(lc, text, p, p + |needle|);
    assert |LowerAll(lc, text)[p..p + |needle|]| == |needle|;
  }

  lemma NothingToMark(lc: Casing, text: string, needle: string, parts: seq<Part>)
    requires Single(lc, text) && |LowerAll(lc, needle)| > |needle|
    requires forall part :: part in parts ==> part.Plain?
    ensures MarksMatch(lc, needle, parts) && MatchesMarked(lc, text, needle, parts)
  {
    forall k | 0 <= k < |parts| ensures parts[k].Plain? {
      assert parts[k] in parts;
    }
    forall p: nat {:trigger Covered(parts, |needle|, p)} | p + |needle| <= |text|
      ensures LowerAll(lc, text[p..p + |needle|]) != LowerAll(lc, needle) || Covered(parts, |needle|, p)
    {
      LongerNeverMatches(lc, text, needle, p);
    }
  }

  /** The first place that is found is marked. */
  lemma FirstIsMarked(s: Search)
    requires s.needleLength > 0 && s.text != "" && IndexOf(s.lowText, s.low, 0) <= |s.lowText|
    ensures var idx := IndexOf(s.lowText, s.low, 0);
            Mark(idx, Slice(s.text, idx, idx + s.needleLength)) in ScanFrom(s, [], 0).0
  {
    var idx := IndexOf(s.lowText, s.low, 0);
    var mark := Mark(idx, Slice(s.text, idx, idx + s.needleLength));
    var r := Turn(s, [], 0);
    assert r.0[|r.0| - 1] == mark && ScanFrom(s, [], 0) == ScanFrom(s, r.0, r.1);
    var ok := (ps: seq<Part>, i: nat) => mark in ps;
    forall ps: seq<Part>, i: nat | i < |s.text| && ok(ps, i) ensures ok(Turn(s, ps, i).0, Turn(s, ps, i).1) {
      TurnExtends(s, ps, i, mark);
    }
    ScanInduction(s, ok, r.0, r.1);
  }

  /** And its mark is too short for a needle that is lowered to more. */
  lemma ShortMark(lc: Casing, text: string, needle: string, mark: Part)
    requires Single(lc, text) && |LowerAll(lc, needle)| > |needle|
    requires mark.Mark? && mark.at + |needle| <= |text| && mark.text == Slice(text, mark.at, mark.at + |needle|)
    ensures LowerAll(lc, mark.text) != LowerAll(lc, needle)
  {
    assert mark.text == text[mark.at..mark.at + |needle|];
    LongerNeverMatches(lc, text, needle, mark.at);
  }

  lemma FirstFits(lowText: string, low: string, text: string, n: nat)
    requires |lowText| == |text| && IndexOf(lowText, low, 0) <= |text| && n < |low|
    ensures IndexOf(lowText, low, 0) + n < |text|
  {
    IndexOfIsFirst(lowText, low, 0);
  }

  lemma WrongMark(lc: Casing, needle: string, parts: seq<Part>, mark: Part)
    requires mark.Mark? && mark in parts && LowerAll(lc, mark.text) != LowerAll(lc, needle)
    ensures !MarksMatch(lc, needle, parts)
  {
    var k :| 0 <= k < |parts| && parts[k] == mark;
  }

  lemma {:induction false} FoundIsShort(lc: Casing, text: string, needle: string, idx: nat, parts: seq<Part>)
    requires Single(lc, text) && |LowerAll(lc, needle)| > |needle|
    requires idx == IndexOf(LowerAll(lc, text), LowerAll(lc, needle), 0) <= |text|
    requires Mark(idx, Slice(text, idx, idx + |needle|)) in parts
    ensures !MarksMatch(lc, needle, parts)
  {
    LowerSingle(lc, text);
    FirstFits(LowerAll(lc, text), LowerAll(lc, needle), text, |needle|);
    ShortMark(lc, text, needle, Mark(idx, Slice(text, idx, idx + |needle|)));
    WrongMark(lc, needle, parts, Mark(idx, Slice(text, idx, idx + |needle|)));
  }

  /** A needle whose lowering is longer than itself is never marked rightly where it is
      found: its marks are too short.  And where it is not found nothing is to be marked. */
  lemma {:induction false} SingleMarksRightIff(lc: Casing, text: string, needle: string)
    requires LowersUnits(lc) && Single(lc, text) && needle != ""
    ensures MarksRight(lc, text, needle)
            <==> |LowerAll(lc, needle)| == |needle| || IndexOf(LowerAll(lc, text), LowerAll(lc, needle), 0) > |text|
  {
    var s := UnitSearch(lc, text, needle);
    LowerSingle(lc, text);
    LowerLength(lc, needle);
    if |s.low| == |needle| {
      SingleMarksRight(lc, text, needle);
    } else if IndexOf(s.lowText, s.low, 0) > |text| {
      NothingFound(s);
      NothingToMark(lc, text, needle, ScanFrom(s, [], 0).0);
    } else {
      FirstIsMarked(s);
      FoundIsShort(lc, text, needle, IndexOf(s.lowText, s.low, 0), ScanFrom(s, [], 0).0);
    }
  }

  lemma HarmlessText(lc: Casing, text: string, needle: string)
    requires LowersUnits(lc) && Single(lc, text) && needle != ""
    requires forall c: char, p: nat :: |lc.unit(c)| > 1 ==> !Occurs(LowerAll(lc, text), lc.unit(c), p)
    ensures MarksRight(lc, text, needle)
  {
    var lowText, low := LowerAll(lc, text), LowerAll(lc, needle);
    LowerSingle(lc, text);
    LowerLength(lc, needle);
    if |low| > |needle| && IndexOf(lowText, low, 0) <= |text| {
      var c: char, q: nat :| |lc.unit(c)| > 1 && Occurs(low, lc.unit(c), q);
      IndexOfIsFirst(lowText, low, 0);
      OccursWithin(lowText, low, lc.unit(c), IndexOf(lowText, low, 0), q);
      assert false;
    }
    SingleMarksRightIff(lc, text, needle);
  }

  /** Every needle is marked rightly if and only if every unit of the text is lowered to
      one unit and no lengthening unit's lowering occurs in the lowered text. */
  lemma AllNeedlesRightIff(lc: Casing, text: string)
    requires LowersUnits(lc)
    ensures (forall needle: string :: needle != "" ==> MarksRight(lc, text, needle))
            <==> Single(lc, text)
                 && forall c: char, p: nat :: |lc.unit(c)| > 1 ==> !Occurs(LowerAll(lc, text), lc.unit(c), p)
  {
    if forall needle: string :: needle != "" ==> MarksRight(lc, text, needle) {
      MarksRightIff(lc, text);
      forall c: char, p: nat | |lc.unit(c)| > 1 ensures !Occurs(LowerAll(lc, text), lc.unit(c), p) {
        LowerUnit(lc, c);
        assert MarksRight(lc, text, [c]);
        SingleMarksRightIff(lc, text, [c]);
        LowerSingle(lc, text);
        IndexOfIsFirst(LowerAll(lc, text), lc.unit(c), 0);
      }
    } else if Single(lc, text) && forall c: char, p: nat :: |lc.unit(c)| > 1 ==> !Occurs(LowerAll(lc, text), lc.unit(c), p) {
      forall needle: string | needle != "" ensures MarksRight(lc, text, needle) {
        HarmlessText(lc, text, needle);
      }
    }
  }

  /** At work: the lowering of a dotted capital I is found in a text of its two units, but
      only the first of them is marked. */
  lemma LongNeedleMarksWrong(lc: Casing)
    requires LowersUnits(lc) && lc.unit('\U{0130}') == "i\U{0307}"
    ensures Single(lc, "i\U{0307}") && !MarksRight(lc, "i\U{0307}", ['\U{0130}'])
  {
    var text := "i\U{0307}";
    assert 'i' in text && '\U{0307}' in text;
    LowerUnit(lc, '\U{0130}');
    assert forall k :: 0 <= k < |text| ==> lc.unit(text[k]) == [text[k]];
    LowerSingle(lc, text);
    assert LowerAll(lc, text) == text && text[0..2] == text;
    assert IndexOf(text, text, 0) == 0;
    SingleMarksRightIff(lc, text, ['\U{0130}']);
  }

  /** The whole of highlight, with lower-casing unit by unit. */
  method HighlightByUnit(text: string, needle: string, lc: Casing) returns (parts: seq<Part>)
    requires needle != "" && LowerAll(lc, needle) != ""
    ensures Concat(parts) == text
    ensures parts == ScanFrom(UnitSearch(lc, text, needle), [], 0).0
    ensures Single(lc, text) && |LowerAll(lc, needle)| == |needle| ==> MarksRight(lc, text, needle)
  {
    parts := Highlight(text, needle, (s: string) => LowerAll(lc, s));
    if Single(lc, text) && |LowerAll(lc, needle)| == |needle| {
      SingleMarksRight(lc, text, needle);
    }
  }

  /** At work: a dotted capital I is lowered to two units, so in that letter followed by
      "x" a search for "x" finds position 2 of the lowered text, which is past the end of
      the text, and leaves the occurrence unmarked. */
  lemma LengtheningMisplacesMarks()
    ensures var text, lowText := "\U{0130}x", "i\U{0307}x";
            var parts := ScanFrom(Search(text, lowText, "x", 1), [], 0).0;
            Occurs(text, "x", 1) && !Covered(parts, 1, 1)
  {
    var s := Search("\U{0130}x", "i\U{0307}x", "x", 1);
    assert s.lowText[0..1] == "i" && s.lowText[1..2] == "\U{0307}" && s.lowText[2..3] == "x";
    assert IndexOf(s.lowText, "x", 0) == 2 by {
      assert IndexOf(s.lowText, "x", 1) == IndexOf(s.lowText, "x", 2) == 2;
    }
    var r := Turn(s, [], 0);
    assert Slice(s.text, 2, 3) == "" && WithGap(s, [], 0, 2) == [Plain(Slice(s.text, 0, 2))];
    assert r.1 == 3 && r.0 == WithGap(s, [], 0, 2) + [Mark(2, "")] == [Plain(Slice(s.text, 0, 2)), Mark(2, "")];
    assert ScanFrom(s, [], 0) == ScanFrom(s, r.0, r.1) == r;
  }
}
