/** The stable sort of the host language, for a comparison that may call distinct elements equal. */
module Sorting {
  import opened Prelude

  ghost predicate TotalPreorder<T(!new)>(leq: (T, T) -> bool) {
    && (forall x, y :: leq(x, y) || leq(y, x))
    && (forall x, y, z :: leq(x, y) && leq(y, z) ==> leq(x, z))
  }

  function Insert<T>(x: T, s: seq<T>, leq: (T, T) -> bool): seq<T> {
    if s == [] || leq(x, s[0]) then [x] + s else [s[0]] + Insert(x, s[1..], leq)
  }

  function Sort<T>(s: seq<T>, leq: (T, T) -> bool): seq<T> {
    if s == [] then [] else Insert(s[0], Sort(s[1..], leq), leq)
  }

  lemma TiedPairStays<T>(x: T, y: T, leq: (T, T) -> bool)
    requires leq(x, y)
    ensures Sort([x, y], leq) == [x, y]
  {
    assert [x, y][1..] == [y] && [y][1..] == [];
    assert Sort([y], leq) == [y];
  }

  ghost predicate Sorted<T>(s: seq<T>, leq: (T, T) -> bool) {
    forall i, j :: 0 <= i < j < |s| ==> leq(s[i], s[j])
  }

  lemma {:induction false} InsertAdds<T>(x: T, s: seq<T>, leq: (T, T) -> bool)
    ensures multiset(Insert(x, s, leq)) == multiset(s) + multiset{x}
  {
    if s != [] && !leq(x, s[0]) {
      InsertAdds(x, s[1..], leq);
      FirstCounts(s);
    }
  }

  lemma {:induction false} InsertSorts<T(!new)>(x: T, s: seq<T>, leq: (T, T) -> bool)
    requires TotalPreorder(leq) && Sorted(s, leq)
    ensures Sorted(Insert(x, s, leq), leq)
  {
    if s != [] && !leq(x, s[0]) {
      InsertSorts(x, s[1..], leq);
      InsertAdds(x, s[1..], leq);
      var r := Insert(x, s[1..], leq);
      forall y | y in r
        ensures leq(s[0], y)
      {
        assert y in multiset(r);
        assert y == x || y in s[1..];
      }
    }
  }

  lemma {:induction false} SortSorts<T(!new)>(s: seq<T>, leq: (T, T) -> bool)
    requires TotalPreorder(leq)
    ensures multiset(Sort(s, leq)) == multiset(s) && Sorted(Sort(s, leq), leq)
  {
    if s != [] {
      hide Insert, TotalPreorder, Sorted;
      SortSorts(s[1..], leq);
      InsertAdds(s[0], Sort(s[1..], leq), leq);
      InsertSorts(s[0], Sort(s[1..], leq), leq);
      FirstCounts(s);
    }
  }

  /** No two different elements compare equal. */
  ghost predicate NoTies<T(!new)>(s: seq<T>, leq: (T, T) -> bool) {
    forall x, y :: x in s && y in s && leq(x, y) && leq(y, x) ==> x == y
  }

  /** Sorted permutations start with elements that compare equal. */
  lemma FirstsTie<T(!new)>(a: seq<T>, b: seq<T>, leq: (T, T) -> bool)
    requires TotalPreorder(leq) && Sorted(a, leq) && Sorted(b, leq) && multiset(a) == multiset(b) && a != []
    ensures b != [] && leq(a[0], b[0]) && leq(b[0], a[0]) && a[0] in b && b[0] in a
  {
    SameMembers(a, b);
    assert a[0] in Elements(b) && b[0] in Elements(a);
  }

  lemma SameTail<T>(a: seq<T>, b: seq<T>)
    requires multiset(a) == multiset(b) && a != [] && b != [] && a[0] == b[0]
    ensures multiset(a[1..]) == multiset(b[1..])
  {
    assert a == [a[0]] + a[1..] && b == [b[0]] + b[1..];
    assert multiset(a[1..]) == multiset(a) - multiset{a[0]};
    assert multiset(b[1..]) == multiset(b) - multiset{b[0]};
  }

  lemma {:induction false} SortedIsUnique<T(!new)>(a: seq<T>, b: seq<T>, leq: (T, T) -> bool)
    requires TotalPreorder(leq) && Sorted(a, leq) && Sorted(b, leq) && multiset(a) == multiset(b) && NoTies(a, leq)
    ensures a == b
  {
    if a == [] {
      SameMembers(a, b);
    } else {
      FirstsTie(a, b, leq);
      SameTail(a, b);
      SortedIsUnique(a[1..], b[1..], leq);
      assert a == [a[0]] + a[1..] && b == [b[0]] + b[1..];
    }
  }

  function TiedWith<T>(x: T, leq: (T, T) -> bool): T -> seq<T> {
    (y: T) => if leq(x, y) && leq(y, x) then [y] else []
  }

  lemma {:induction false} CollectFirst<T, U>(s: seq<T>, f: T -> seq<U>)
    requires s != []
    ensures Collect(s, f) == f(s[0]) + Collect(s[1..], f)
  {
    assert s == [s[0]] + s[1..];
    CollectConcat([s[0]], s[1..], f);
    CollectOne(s[0], f);
  }

  lemma {:induction false} InsertIsStable<T(!new)>(x: T, s: seq<T>, leq: (T, T) -> bool, t: T)
    requires TotalPreorder(leq)
    ensures Collect(Insert(x, s, leq), TiedWith(t, leq)) == TiedWith(t, leq)(x) + Collect(s, TiedWith(t, leq))
    decreases |s|
  {
    var f, r := TiedWith(t, leq), Insert(x, s, leq);
    CollectFirst(r, f);
    if s != [] && !leq(x, s[0]) {
      assert r[1..] == Insert(x, s[1..], leq);
      InsertIsStable(x, s[1..], leq, t);
      CollectFirst(s, f);
    } else {
      assert r[1..] == s;
    }
  }

  /** Elements that compare equal keep their order. */
  lemma {:induction false} SortIsStable<T(!new)>(s: seq<T>, leq: (T, T) -> bool, t: T)
    requires TotalPreorder(leq)
    ensures Collect(Sort(s, leq), TiedWith(t, leq)) == Collect(s, TiedWith(t, leq))
  {
    if s != [] {
      SortIsStable(s[1..], leq, t);
      InsertIsStable(s[0], Sort(s[1..], leq), leq, t);
      CollectFirst(s, TiedWith(t, leq));
    }
  }

  lemma NoTiesNoOrder<T(!new)>(a: seq<T>, b: seq<T>, leq: (T, T) -> bool)
    requires TotalPreorder(leq) && multiset(a) == multiset(b) && NoTies(a, leq)
    ensures Sort(a, leq) == Sort(b, leq)
  {
    SortSorts(a, leq);
    SortSorts(b, leq);
    SameMembers(a, Sort(a, leq));
    forall x
      ensures x in Sort(a, leq) <==> x in a
    {
      assert x in Elements(a) <==> x in Elements(Sort(a, leq));
    }
    SortedIsUnique(Sort(a, leq), Sort(b, leq), leq);
  }

  lemma Pieces<T>(s: seq<T>, i: nat, j: nat)
    requires i < j < |s|
    ensures s == s[..i] + [s[i]] + s[i + 1..j] + [s[j]] + s[j + 1..]
  {
  }

  /** A tie shows: swapping two different elements that compare equal changes the sorted sequence. */
  lemma TiesShow<T(!new)>(s: seq<T>, leq: (T, T) -> bool, i: nat, j: nat) returns (t: seq<T>)
    requires TotalPreorder(leq) && i < j < |s| && s[i] != s[j] && leq(s[i], s[j]) && leq(s[j], s[i])
    ensures multiset(t) == multiset(s) && Sort(t, leq) != Sort(s, leq)
  {
    var u, v, w := s[..i], s[i + 1..j], s[j + 1..];
    t := u + [s[j]] + v + [s[i]] + w;
    Pieces(s, i, j);
    SwapShows(u, s[i], v, s[j], w, leq);
  }

  lemma SwapShows<T(!new)>(u: seq<T>, x: T, v: seq<T>, y: T, w: seq<T>, leq: (T, T) -> bool)
    requires TotalPreorder(leq) && x != y && leq(x, y) && leq(y, x)
    ensures multiset(u + [x] + v + [y] + w) == multiset(u + [y] + v + [x] + w)
    ensures Sort(u + [x] + v + [y] + w, leq) != Sort(u + [y] + v + [x] + w, leq)
  {
    assert leq(x, x) && TiedWith(x, leq)(x) == [x] && TiedWith(x, leq)(y) == [y];
    hide Sort, TotalPreorder, TiedWith;
    var f, s, s' := TiedWith(x, leq), u + [x] + v + [y] + w, u + [y] + v + [x] + w;
    SortIsStable(s, leq, x);
    SortIsStable(s', leq, x);
    TiesInOrder(u, x, v, y, w, f);
    TiesInOrder(u, y, v, x, w, f);
    var k := |Collect(u, f)|;
    assert Collect(s, f)[k] == x && Collect(s', f)[k] == y;
  }

  lemma TiesInOrder<T>(u: seq<T>, x: T, v: seq<T>, y: T, w: seq<T>, f: T -> seq<T>)
    requires f(x) == [x]
    ensures Collect(u + [x] + v + [y] + w, f) == Collect(u, f) + [x] + Collect(v + [y] + w, f)
  {
    assert u + [x] + v + [y] + w == (u + [x]) + (v + [y] + w);
    CollectConcat(u + [x], v + [y] + w, f);
    CollectConcat(u, [x], f);
    CollectOne(x, f);
  }

  /** Sorting forgets the order it was given exactly when there are no ties. */
  lemma OrderIndependentIff<T(!new)>(s: seq<T>, leq: (T, T) -> bool)
    requires TotalPreorder(leq)
    ensures (forall t :: multiset(t) == multiset(s) ==> Sort(t, leq) == Sort(s, leq)) <==> NoTies(s, leq)
  {
    if NoTies(s, leq) {
      forall t | multiset(t) == multiset(s)
        ensures Sort(t, leq) == Sort(s, leq)
      {
        NoTiesNoOrder(s, t, leq);
      }
    } else {
      var x, y :| x in s && y in s && leq(x, y) && leq(y, x) && x != y;
      var i :| 0 <= i < |s| && s[i] == x;
      var j :| 0 <= j < |s| && s[j] == y;
      var lo, hi := if i < j then i else j, if i < j then j else i;
      var t := TiesShow(s, leq, lo, hi);
    }
  }
}
