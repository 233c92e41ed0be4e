/** Array.prototype.sort: what section 23.1.3.30 of ECMA-262 asks of a comparator, and
    the one result it allows (stable since its 2019 edition) when it gets it. */
module Sorting {

  /** A consistent comparator: a total preorder given by signs. */
  ghost predicate Consistent<T(!new)>(cmp: (T, T) -> real) {
    && (forall a, b :: cmp(a, b) <= 0.0 <==> cmp(b, a) >= 0.0)
    && (forall a, b, c :: cmp(a, b) <= 0.0 && cmp(b, c) <= 0.0 ==> cmp(a, c) <= 0.0)
  }

  ghost predicate Sorted<T>(cmp: (T, T) -> real, s: seq<T>) {
    forall i, j :: 0 <= i < j < |s| ==> cmp(s[i], s[j]) <= 0.0
  }

  /** The elements that compare equal to x, in order. */
  function Class<T>(cmp: (T, T) -> real, x: T, s: seq<T>): seq<T> {
    if s == [] then []
    else if cmp(x, s[0]) == 0.0 then [s[0]] + Class(cmp, x, s[1..])
    else Class(cmp, x, s[1..])
  }

  /** Equal elements keep their order, and none is added or lost. */
  ghost predicate StableCopy<T(!new)>(cmp: (T, T) -> real, s: seq<T>, t: seq<T>) {
    forall x :: Class(cmp, x, s) == Class(cmp, x, t)
  }

  function Insert<T>(cmp: (T, T) -> real, x: T, s: seq<T>): seq<T> {
    if s == [] || cmp(x, s[0]) <= 0.0 then [x] + s else [s[0]] + Insert(cmp, x, s[1..])
  }

  function StableSort<T>(cmp: (T, T) -> real, s: seq<T>): seq<T> {
    if s == [] then [] else Insert(cmp, s[0], StableSort(cmp, s[1..]))
  }

  lemma {:induction false} InsertElements<T>(cmp: (T, T) -> real, x: T, s: seq<T>)
    ensures multiset(Insert(cmp, x, s)) == multiset(s) + multiset{x}
  {
    if s != [] && !(cmp(x, s[0]) <= 0.0) {
      InsertElements(cmp, x, s[1..]);
      assert s == [s[0]] + s[1..];
    }
  }

  lemma InsertMember<T>(cmp: (T, T) -> real, x: T, s: seq<T>, e: T)
    requires e in Insert(cmp, x, s)
    ensures e == x || e in s
  {
    InsertElements(cmp, x, s);
    assert e in multiset(Insert(cmp, x, s));
  }

  lemma {:induction false} InsertSorted<T(!new)>(cmp: (T, T) -> real, x: T, s: seq<T>)
    requires Consistent(cmp) && Sorted(cmp, s)
    ensures Sorted(cmp, Insert(cmp, x, s))
  {
    if s == [] {
    } else if cmp(x, s[0]) <= 0.0 {
      forall j | 0 <= j < |s| ensures cmp(x, s[j]) <= 0.0 {}
    } else {
      var r := Insert(cmp, x, s[1..]);
      InsertSorted(cmp, x, s[1..]);
      forall j | 0 <= j < |r| ensures cmp(s[0], r[j]) <= 0.0 {
        InsertMember(cmp, x, s[1..], r[j]);
      }
    }
  }

  lemma ClassCons<T>(cmp: (T, T) -> real, y: T, x: T, s: seq<T>)
    ensures Class(cmp, y, [x] + s) == if cmp(y, x) == 0.0 then [x] + Class(cmp, y, s) else Class(cmp, y, s)
  {
  }

  lemma {:induction false} InsertClass<T(!new)>(cmp: (T, T) -> real, x: T, s: seq<T>, y: T)
    requires Consistent(cmp) && Sorted(cmp, s)
    ensures Class(cmp, y, Insert(cmp, x, s)) == Class(cmp, y, [x] + s)
  {
    if s != [] && !(cmp(x, s[0]) <= 0.0) {
      var h := s[0];
      InsertClass(cmp, x, s[1..], y);
      ClassCons(cmp, y, x, s);
      ClassCons(cmp, y, x, s[1..]);
      ClassCons(cmp, y, h, Insert(cmp, x, s[1..]));
      assert !(cmp(y, x) == 0.0 && cmp(y, h) == 0.0) by {
        assert cmp(x, y) <= 0.0 && cmp(y, h) <= 0.0 ==> cmp(x, h) <= 0.0;
      }
    }
  }

  lemma HeadAndTail<T>(s: seq<T>)
    requires s != []
    ensures multiset(s) == multiset(s[1..]) + multiset{s[0]}
  {
    assert s == [s[0]] + s[1..];
  }

  lemma InsertStable<T(!new)>(cmp: (T, T) -> real, s: seq<T>, rest: seq<T>)
    requires Consistent(cmp) && s != [] && Sorted(cmp, rest) && StableCopy(cmp, s[1..], rest)
    ensures StableCopy(cmp, s, Insert(cmp, s[0], rest))
  {
    forall y ensures Class(cmp, y, s) == Class(cmp, y, Insert(cmp, s[0], rest)) {
      InsertClass(cmp, s[0], rest, y);
      assert ([s[0]] + rest)[1..] == rest;
      assert Class(cmp, y, s[1..]) == Class(cmp, y, rest);
    }
  }

  lemma {:induction false} SortMeaning<T(!new)>(cmp: (T, T) -> real, s: seq<T>)
    requires Consistent(cmp)
    ensures Sorted(cmp, StableSort(cmp, s)) && multiset(StableSort(cmp, s)) == multiset(s)
    ensures StableCopy(cmp, s, StableSort(cmp, s))
  {
    if s == [] {
    } else {
      SortMeaning(cmp, s[1..]);
      var rest := StableSort(cmp, s[1..]);
      InsertSorted(cmp, s[0], rest);
      InsertElements(cmp, s[0], rest);
      HeadAndTail(s);
      InsertStable(cmp, s, rest);
    }
  }

  lemma {:induction false} ClassMember<T>(cmp: (T, T) -> real, x: T, s: seq<T>, e: T)
    ensures e in Class(cmp, x, s) <==> e in s && cmp(x, e) == 0.0
  {
    if s == [] {
    } else {
      ClassMember(cmp, x, s[1..], e);
      assert s == [s[0]] + s[1..];
    }
  }

  /** Equal heads can be cancelled. */
  lemma TailsAgree<T(!new)>(cmp: (T, T) -> real, t: seq<T>, u: seq<T>)
    requires t != [] && u != [] && t[0] == u[0] && StableCopy(cmp, t, u)
    ensures StableCopy(cmp, t[1..], u[1..])
  {
    forall x ensures Class(cmp, x, t[1..]) == Class(cmp, x, u[1..]) {
      assert Class(cmp, x, t) == Class(cmp, x, u);
      var a, b := Class(cmp, x, t[1..]), Class(cmp, x, u[1..]);
      if cmp(x, t[0]) == 0.0 {
        assert Class(cmp, x, t) == [t[0]] + a && Class(cmp, x, u) == [u[0]] + b;
        assert ([t[0]] + a)[1..] == a && ([u[0]] + b)[1..] == b;
      } else {
        assert Class(cmp, x, t) == a && Class(cmp, x, u) == b;
      }
    }
  }

  lemma NonEmptyStays<T(!new)>(cmp: (T, T) -> real, t: seq<T>, u: seq<T>)
    requires Consistent(cmp) && t != [] && (StableCopy(cmp, t, u) || StableCopy(cmp, u, t))
    ensures u != []
  {
    assert cmp(t[0], t[0]) == 0.0;
    assert Class(cmp, t[0], t) == Class(cmp, t[0], u);
  }

  /** The head of a sorted sequence is at most every element. */
  lemma HeadIsLeast<T(!new)>(cmp: (T, T) -> real, s: seq<T>, e: T)
    requires Consistent(cmp) && Sorted(cmp, s) && e in s
    ensures cmp(s[0], e) <= 0.0
  {
  }

  lemma HeadsAgree<T(!new)>(cmp: (T, T) -> real, t: seq<T>, u: seq<T>)
    requires Consistent(cmp) && Sorted(cmp, t) && Sorted(cmp, u) && StableCopy(cmp, t, u)
    requires t != [] && u != []
    ensures t[0] == u[0]
  {
    var a, b := t[0], u[0];
    assert cmp(a, a) == 0.0 && cmp(b, b) == 0.0;
    assert Class(cmp, a, t) == Class(cmp, a, u) && Class(cmp, b, t) == Class(cmp, b, u);
    ClassMember(cmp, a, t, a);
    ClassMember(cmp, a, u, a);
    ClassMember(cmp, b, u, b);
    ClassMember(cmp, b, t, b);
    HeadIsLeast(cmp, u, a);
    HeadIsLeast(cmp, t, b);
    assert cmp(a, b) == 0.0;
    assert Class(cmp, a, t)[0] == a && Class(cmp, a, u)[0] == b;
  }

  /** With a consistent comparator there is only one sorted stable copy, so the
      algorithm behind Array.prototype.sort does not matter. */
  lemma {:induction false} StableSortIsUnique<T(!new)>(cmp: (T, T) -> real, t: seq<T>, u: seq<T>)
    requires Consistent(cmp) && Sorted(cmp, t) && Sorted(cmp, u) && StableCopy(cmp, t, u)
    ensures t == u
  {
    if t == [] {
      if u != [] { NonEmptyStays(cmp, u, t); }
    } else {
      NonEmptyStays(cmp, t, u);
      HeadsAgree(cmp, t, u);
      TailsAgree(cmp, t, u);
      StableSortIsUnique(cmp, t[1..], u[1..]);
      assert t == [t[0]] + t[1..] && u == [u[0]] + u[1..];
    }
  }
}
