/** The token watcher of internal/patwatch/patwatch.go over any sequence of file
    events and read results. */
module PatWatch {
  import opened Schema

  // ---------------------------------------------------------- trimming

  /** unicode.IsSpace. */
  predicate IsSpace(c: char) {
    || '\t' <= c <= '\r' || c == ' ' || c == '\U{0085}' || c == '\U{00A0}' || c == '\U{1680}'
    || '\U{2000}' <= c <= '\U{200A}' || c == '\U{2028}' || c == '\U{2029}' || c == '\U{202F}'
    || c == '\U{205F}' || c == '\U{3000}'
  }

  function TrimLeft(s: string): string {
    if s != "" && IsSpace(s[0]) then TrimLeft(s[1..]) else s
  }

  function TrimRight(s: string): string {
    if s != "" && IsSpace(s[|s| - 1]) then TrimRight(s[..|s| - 1]) else s
  }

  /** strings.TrimSpace. */
  function TrimSpace(s: string): string {
    TrimRight(TrimLeft(s))
  }

  /** No white space at either end. */
  predicate Trimmed(s: string) {
    s != "" ==> !IsSpace(s[0]) && !IsSpace(s[|s| - 1])
  }

  lemma {:induction false} TrimRightKeepsHead(s: string)
    requires s != "" ==> !IsSpace(s[0])
    ensures Trimmed(TrimRight(s))
  {
    if s != "" && IsSpace(s[|s| - 1]) {
      TrimRightKeepsHead(s[..|s| - 1]);
    }
  }

  lemma {:induction false} TrimLeftHead(s: string)
    ensures TrimLeft(s) != "" ==> !IsSpace(TrimLeft(s)[0])
  {
    if s != "" && IsSpace(s[0]) {
      TrimLeftHead(s[1..]);
    }
  }

  /** The result has bare ends, and trimming it again changes nothing. */
  lemma TrimIsIdempotent(s: string)
    ensures Trimmed(TrimSpace(s)) && TrimSpace(TrimSpace(s)) == TrimSpace(s)
  {
    TrimLeftHead(s);
    TrimRightKeepsHead(TrimLeft(s));
  }

  predicate Blank(s: string) {
    forall i :: 0 <= i < |s| ==> IsSpace(s[i])
  }

  /** `s` is `v` with nothing but white space around it. */
  predicate Frames(a: string, v: string, b: string, s: string) {
    s == a + v + b && Blank(a) && Blank(b)
  }

  lemma {:induction false} TrimLeftCuts(s: string) returns (a: string)
    ensures s == a + TrimLeft(s) && Blank(a)
  {
    a := "";
    if s != "" && IsSpace(s[0]) {
      a := TrimLeftCuts(s[1..]);
      a := [s[0]] + a;
    }
  }

  lemma {:induction false} TrimRightCuts(s: string) returns (b: string)
    ensures s == TrimRight(s) + b && Blank(b)
  {
    b := "";
    if s != "" && IsSpace(s[|s| - 1]) {
      b := TrimRightCuts(s[..|s| - 1]);
      b := b + [s[|s| - 1]];
    }
  }

  lemma TrimCuts(s: string) returns (a: string, b: string)
    ensures Frames(a, TrimSpace(s), b, s)
  {
    a := TrimLeftCuts(s);
    b := TrimRightCuts(TrimLeft(s));
  }

  /** Bare text starts where the white space before it ends. */
  lemma FramesStart(a: string, v: string, b: string, a': string, v': string, b': string, s: string)
    requires Frames(a, v, b, s) && Frames(a', v', b', s) && Trimmed(v) && Trimmed(v')
    ensures v == "" <==> v' == ""
    ensures v != "" ==> |a| <= |a'| && |b| <= |b'|
  {
    if v != "" {
      assert s[|a|] == v[0] && s[|a| + |v| - 1] == v[|v| - 1];
    }
    if v' != "" {
      assert s[|a'|] == v'[0] && s[|a'| + |v'| - 1] == v'[|v'| - 1];
    }
  }

  /** What trimming means: the one text with bare ends that is `s` up to white space
      around it. */
  lemma TrimSpaceIff(s: string, v: string)
    ensures TrimSpace(s) == v <==> Trimmed(v) && exists a, b :: Frames(a, v, b, s)
  {
    TrimIsIdempotent(s);
    var a, b := TrimCuts(s);
    if Trimmed(v) && exists a', b' :: Frames(a', v, b', s) {
      var a', b' :| Frames(a', v, b', s);
      FramesStart(a, TrimSpace(s), b, a', v, b', s);
      FramesStart(a', v, b', a, TrimSpace(s), b, s);
      assert v != "" ==> TrimSpace(s) == s[|a|..|s| - |b|] == v;
    }
  }

  /** readTrimmed; `raw` is None when the file cannot be read. */
  function ReadTrimmed(raw: Option<string>): Option<string> {
    if raw.None? || TrimSpace(raw.value) == "" then None else Some(TrimSpace(raw.value))
  }

  /** A read succeeds exactly when the file could be read and is not blank, with the text
      between the white space. */
  lemma ReadTrimmedIff(raw: Option<string>)
    ensures ReadTrimmed(raw).None? <==> raw.None? || Blank(raw.value)
    ensures ReadTrimmed(raw).Some? ==>
              var v := ReadTrimmed(raw).value;
              v != "" && Trimmed(v) && exists a, b :: Frames(a, v, b, raw.value)
  {
    if raw.Some? {
      TrimSpaceIff(raw.value, TrimSpace(raw.value));
      TrimSpaceIff(raw.value, "");
      if Blank(raw.value) { assert Frames(raw.value, "", "", raw.value); }
    }
  }

  // ------------------------------------------------------------ events

  datatype Op = Create | Write | Rename | Chmod | Remove | Unknown

  /** `raw` is what the file holds when the watcher gets round to reading it. */
  datatype Event =
    | FileEvent(base: string, ops: set<Op>, raw: Option<string>)
    | WatchError
    | Closed

  const INTERESTING: set<Op> := {Create, Write, Rename, Chmod, Remove}

  predicate Matches(basename: string, ev: Event) {
    ev.FileEvent? && ev.base == basename && ev.ops * INTERESTING != {}
  }

  /** The event carries a new value: it matches, and the read succeeds. */
  predicate Accepted(basename: string, ev: Event) {
    Matches(basename, ev) && ReadTrimmed(ev.raw).Some?
  }

  /** That is: some known operation on the watched file, which is not blank then. */
  lemma AcceptedIff(basename: string, ev: Event)
    ensures Accepted(basename, ev) <==>
            && ev.FileEvent? && ev.base == basename
            && (Create in ev.ops || Write in ev.ops || Rename in ev.ops || Chmod in ev.ops || Remove in ev.ops)
            && ev.raw.Some? && !Blank(ev.raw.value)
  {
    if ev.FileEvent? {
      ReadTrimmedIff(ev.raw);
      if op :| op in ev.ops * INTERESTING { assert op in INTERESTING; }
      if op :| op in ev.ops && op in INTERESTING { assert op in ev.ops * INTERESTING; }
    }
  }

  /** Events are handled up to the first Closed. */
  function Handled(evs: seq<Event>): (k: nat)
    ensures k <= |evs| && (forall i :: 0 <= i < k ==> !evs[i].Closed?) && (k < |evs| ==> evs[k].Closed?)
  {
    if evs == [] || evs[0].Closed? then 0 else 1 + Handled(evs[1..])
  }

  /** The value in force, and where it came from: the last accepted event handled, or
      the initial read if there was none. */
  ghost predicate IsLatest(basename: string, initial: string, evs: seq<Event>, value: string) {
    var k := Handled(evs);
    || (value == initial && forall i :: 0 <= i < k ==> !Accepted(basename, evs[i]))
    || (exists j :: 0 <= j < k && Accepted(basename, evs[j]) && Some(value) == ReadTrimmed(evs[j].raw)
                    && forall i :: j < i < k ==> !Accepted(basename, evs[i]))
  }

  /** The description leaves no choice. */
  lemma LatestIsUnique(basename: string, initial: string, evs: seq<Event>, a: string, b: string)
    requires IsLatest(basename, initial, evs, a) && IsLatest(basename, initial, evs, b)
    ensures a == b
  {
  }

  class Watcher {
    const basename: string
    var current: Option<string>
    ghost var stores: nat          // how often `current` was written

    /** A watcher exists only after a successful first read. */
    predicate Valid()
      reads this
    {
      current.Some? && current.value != "" && Trimmed(current.value)
    }

    constructor (basename: string, initial: string)
      requires initial != "" && Trimmed(initial)
      ensures Valid() && this.basename == basename && current == Some(initial)
    {
      this.basename, current, stores := basename, Some(initial), 0;
    }

    function Get(): string
      reads this
    {
      if current.Some? then current.value else ""
    }

    /** Re-read the file; on failure, or when nothing changed, keep what there is. */
    method Reload(raw: Option<string>)
      requires Valid()
      modifies this`current, this`stores
      ensures Valid()
      ensures Get() == match ReadTrimmed(raw) case None => old(Get()) case Some(v) => v
      ensures stores != old(stores) ==> Get() != old(Get())
    {
      var next := ReadTrimmed(raw);
      if next.None? {
        return;
      }
      TrimIsIdempotent(raw.value);
      if current.Some? && current.value == next.value {
        return;
      }
      current, stores := next, stores + 1;
    }

    /** The event loop, until Close or until the events run out. */
    method Loop(evs: seq<Event>)
      requires Valid()
      modifies this`current, this`stores
      ensures Valid() && Get() != ""
      ensures IsLatest(basename, old(Get()), evs, Get())
    {
      ghost var k := Handled(evs);
      ghost var from := -1;
      var i := 0;
      while i < |evs|
        invariant 0 <= i <= k && -1 <= from < i
        invariant Valid()
        invariant from == -1 ==> Get() == old(Get())
        invariant from >= 0 ==> Accepted(basename, evs[from]) && Some(Get()) == ReadTrimmed(evs[from].raw)
        invariant forall n :: from < n < i ==> !Accepted(basename, evs[n])
      {
        match evs[i] {
          case Closed =>
            assert i == k;
            break;
          case WatchError =>
          case FileEvent(base, ops, raw) =>
            if base == basename && ops * INTERESTING != {} {
              Reload(raw);
              if ReadTrimmed(raw).Some? { from := i; }
            }
        }
        i := i + 1;
      }
    }
  }

  /** New: fail-closed on an empty or unresolvable path, on a missing, unreadable or
      blank file, and when the directory cannot be watched. */
  method New(path: string, basename: string, resolved: bool, raw: Option<string>, watching: bool) returns (w: Watcher?)
    ensures w == null <==> path == "" || !resolved || ReadTrimmed(raw).None? || !watching
    ensures w != null ==> fresh(w) && w.Valid() && w.basename == basename && Some(w.Get()) == ReadTrimmed(raw)
  {
    if path == "" {
      return null;
    }
    if !resolved {
      return null;
    }
    var initial := ReadTrimmed(raw);
    if initial.None? {
      return null;
    }
    TrimIsIdempotent(raw.value);
    w := new Watcher(basename, initial.value);
    if !watching {
      return null;
    }
  }
}
