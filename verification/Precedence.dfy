/** Which of two elements comes first in a sequence. */
module Precedence {
  import opened Prelude
  import opened Sorting

  /** `x` occurs, and no `y` before its first occurrence. */
  predicate Before<T(==)>(s: seq<T>, x: T, y: T) {
    s != [] && (Before(s[..|s| - 1], x, y) || (s[|s| - 1] == x && y !in s[..|s| - 1]))
  }

  lemma {:induction false} BeforeConcat<T>(a: seq<T>, b: seq<T>, x: T, y: T)
    requires x != y
    ensures Before(a + b, x, y) <==> Before(a, x, y) || (y !in a && Before(b, x, y))
  {
    if b == [] {
      assert a + b == a;
    } else {
      var n := |b| - 1;
      BeforeConcat(a, b[..n], x, y);
      assert (a + b)[..|a + b| - 1] == a + b[..n];
      if Before(a, x, y) { BeforeOccurs(a, x, y); }
    }
  }

  lemma {:induction false} BeforeOccurs<T>(s: seq<T>, x: T, y: T)
    ensures Before(s, x, y) ==> x in s
  {
    if s != [] {
      BeforeOccurs(s[..|s| - 1], x, y);
    }
  }

  /** Of two different elements, one is first when either occurs. */
  lemma {:induction false} OneIsFirst<T>(s: seq<T>, x: T, y: T)
    requires x != y
    ensures Before(s, x, y) || Before(s, y, x) <==> x in s || y in s
    ensures !(Before(s, x, y) && Before(s, y, x))
  {
    if s != [] {
      var init := s[..|s| - 1];
      OneIsFirst(init, x, y);
      BeforeOccurs(init, x, y);
      BeforeOccurs(init, y, x);
      assert s == init + [s[|s| - 1]];
    }
  }

  lemma BeforeOne<T>(w: T, x: T, y: T)
    ensures Before([w], x, y) <==> w == x
  {
    assert [w][..0] == [];
  }

  /** `f` marks `x` by `u`, and nothing else by `u`. */
  ghost predicate Marks<T(!new), U(!new)>(f: T -> seq<U>, x: T, u: U) {
    f(x) == [u] && forall z :: u in f(z) ==> z == x
  }

  lemma {:induction false} MarkOccurs<T(!new), U(!new)>(s: seq<T>, f: T -> seq<U>, x: T, u: U)
    requires Marks(f, x, u)
    ensures u in Collect(s, f) <==> x in s
  {
    if s != [] {
      MarkOccurs(s[..|s| - 1], f, x, u);
      assert s == s[..|s| - 1] + [s[|s| - 1]];
    }
  }

  lemma {:induction false} CollectKeepsOrder<T(!new), U(!new)>(s: seq<T>, f: T -> seq<U>, x: T, y: T, u: U, v: U)
    requires Marks(f, x, u) && Marks(f, y, v) && x != y && u != v
    ensures Before(Collect(s, f), u, v) <==> Before(s, x, y)
  {
    if s != [] {
      var init, z := s[..|s| - 1], s[|s| - 1];
      CollectKeepsOrder(init, f, x, y, u, v);
      BeforeConcat(Collect(init, f), f(z), u, v);
      MarkOccurs(init, f, y, v);
      BeforeOccurs(f(z), u, v);
      if z == x { BeforeOne(u, u, v); }
    }
  }

  lemma {:induction false} DistinctTail<T>(s: seq<T>)
    requires Distinct(s) && s != []
    ensures s[|s| - 1] !in s[..|s| - 1] && Distinct(s[..|s| - 1])
    ensures forall x :: x in s <==> x in s[..|s| - 1] || x == s[|s| - 1]
  {
    assert s == s[..|s| - 1] + [s[|s| - 1]];
  }

  lemma LastIsLast<T>(s: seq<T>, x: T)
    requires Distinct(s) && s != [] && x in s && x != s[|s| - 1]
    ensures Before(s, x, s[|s| - 1])
  {
    DistinctTail(s);
    OneIsFirst(s[..|s| - 1], x, s[|s| - 1]);
    BeforeOccurs(s[..|s| - 1], s[|s| - 1], x);
  }

  ghost predicate SameOrder<T(!new)>(p: seq<T>, q: seq<T>) {
    forall x, y :: x in p && y in p && x != y ==> (Before(p, x, y) <==> Before(q, x, y))
  }

  lemma SameLast<T(!new)>(p: seq<T>, q: seq<T>)
    requires Distinct(p) && Distinct(q) && (forall x :: x in p <==> x in q) && SameOrder(p, q) && p != [] && q != []
    ensures p[|p| - 1] == q[|q| - 1]
  {
    var x, y := p[|p| - 1], q[|q| - 1];
    assert x in p && y in q;
    if x != y {
      LastIsLast(p, y);
      LastIsLast(q, x);
      OneIsFirst(p, x, y);
    }
  }

  /** Distinct elements in the same order are the same sequence. */
  lemma {:induction false} OrderDetermines<T(!new)>(p: seq<T>, q: seq<T>)
    requires Distinct(p) && Distinct(q) && (forall x :: x in p <==> x in q) && SameOrder(p, q)
    ensures p == q
  {
    if p == [] {
      assert Elements(q) == {};
      ElementsFit(q);
    } else {
      assert p[0] in q;
      var a, b, last := p[..|p| - 1], q[..|q| - 1], p[|p| - 1];
      SameLast(p, q);
      DistinctTail(p);
      DistinctTail(q);
      forall x
        ensures x in a <==> x in b
      {
        assert x in p <==> x in q;
      }
      forall x, y | x in a && y in a && x != y
        ensures Before(a, x, y) <==> Before(b, x, y)
      {
        assert Before(p, x, y) <==> Before(q, x, y);
      }
      OrderDetermines(a, b);
      assert p == a + [last] && q == b + [last];
    }
  }

  // ----- Sorting and order -----

  lemma SameRest<T>(h: seq<T>, a: seq<T>, b: seq<T>)
    requires h + a == h + b
    ensures a == b
  {
    assert (h + a)[|h|..] == a && (h + b)[|h|..] == b;
  }

  lemma SameFirst<T(!new)>(a: seq<T>, b: seq<T>, leq: (T, T) -> bool)
    requires TotalPreorder(leq) && Sorted(a, leq) && Sorted(b, leq) && multiset(a) == multiset(b) && a != []
    requires Collect(a, TiedWith(a[0], leq)) == Collect(b, TiedWith(a[0], leq))
    ensures b != [] && a[0] == b[0]
  {
    FirstsTie(a, b, leq);
    CollectFirst(a, TiedWith(a[0], leq));
    CollectFirst(b, TiedWith(a[0], leq));
    assert Collect(a, TiedWith(a[0], leq))[0] == a[0];
    assert Collect(b, TiedWith(a[0], leq))[0] == b[0];
  }

  lemma {:induction false} StablySortedIsUnique<T(!new)>(a: seq<T>, b: seq<T>, leq: (T, T) -> bool)
    requires TotalPreorder(leq) && Sorted(a, leq) && Sorted(b, leq) && multiset(a) == multiset(b)
    requires forall t :: Collect(a, TiedWith(t, leq)) == Collect(b, TiedWith(t, leq))
    ensures a == b
  {
    if a == [] {
      SameMembers(a, b);
    } else {
      SameFirst(a, b, leq);
      SameTail(a, b);
      forall t
        ensures Collect(a[1..], TiedWith(t, leq)) == Collect(b[1..], TiedWith(t, leq))
      {
        CollectFirst(a, TiedWith(t, leq));
        CollectFirst(b, TiedWith(t, leq));
        SameRest(TiedWith(t, leq)(a[0]), Collect(a[1..], TiedWith(t, leq)), Collect(b[1..], TiedWith(t, leq)));
      }
      StablySortedIsUnique(a[1..], b[1..], leq);
      assert a == [a[0]] + a[1..] && b == [b[0]] + b[1..];
    }
  }

  /** Two permutations sort alike exactly when their ties stand in the same order. */
  lemma SortAlikeIff<T(!new)>(s: seq<T>, t: seq<T>, leq: (T, T) -> bool)
    requires TotalPreorder(leq) && multiset(s) == multiset(t)
    ensures Sort(s, leq) == Sort(t, leq) <==> forall x :: Collect(s, TiedWith(x, leq)) == Collect(t, TiedWith(x, leq))
  {
    SortSorts(s, leq);
    SortSorts(t, leq);
    forall x
      ensures Collect(Sort(s, leq), TiedWith(x, leq)) == Collect(s, TiedWith(x, leq))
      ensures Collect(Sort(t, leq), TiedWith(x, leq)) == Collect(t, TiedWith(x, leq))
    {
      SortIsStable(s, leq, x);
      SortIsStable(t, leq, x);
    }
    if forall x :: Collect(s, TiedWith(x, leq)) == Collect(t, TiedWith(x, leq)) {
      StablySortedIsUnique(Sort(s, leq), Sort(t, leq), leq);
    }
  }

  lemma TiedMarks<T(!new)>(t: T, leq: (T, T) -> bool, x: T)
    requires leq(t, x) && leq(x, t)
    ensures Marks(TiedWith(t, leq), x, x)
  {
  }

  lemma {:induction false} TiedMembers<T(!new)>(s: seq<T>, t: T, leq: (T, T) -> bool, x: T)
    ensures x in Collect(s, TiedWith(t, leq)) <==> x in s && leq(t, x) && leq(x, t)
    ensures Distinct(s) ==> Distinct(Collect(s, TiedWith(t, leq)))
  {
    if s != [] {
      var init, z := s[..|s| - 1], s[|s| - 1];
      TiedMembers(init, t, leq, x);
      TiedMembers(init, t, leq, z);
      assert s == init + [z];
    }
  }

  /** Distinct elements whose ties stand in the same order sort alike; elements that tie in different order do not. */
  lemma SortAlikeIfOrdered<T(!new)>(s: seq<T>, t: seq<T>, leq: (T, T) -> bool)
    requires TotalPreorder(leq) && multiset(s) == multiset(t) && Distinct(s) && Distinct(t)
    requires forall x, y :: x in s && y in s && x != y && leq(x, y) && leq(y, x) ==>
               (Before(s, x, y) <==> Before(t, x, y))
    ensures Sort(s, leq) == Sort(t, leq)
  {
    SortAlikeIff(s, t, leq);
    SameMembers(s, t);
    forall z
      ensures Collect(s, TiedWith(z, leq)) == Collect(t, TiedWith(z, leq))
    {
      var p, q := Collect(s, TiedWith(z, leq)), Collect(t, TiedWith(z, leq));
      TiedMembers(s, z, leq, z);
      TiedMembers(t, z, leq, z);
      forall x
        ensures x in p <==> x in q
        ensures x in p ==> x in s && leq(z, x) && leq(x, z)
      {
        TiedMembers(s, z, leq, x);
        TiedMembers(t, z, leq, x);
        assert x in Elements(s) <==> x in Elements(t);
      }
      forall x, y | x in p && y in p && x != y
        ensures Before(p, x, y) <==> Before(q, x, y)
      {
        TiedMarks(z, leq, x);
        TiedMarks(z, leq, y);
        CollectKeepsOrder(s, TiedWith(z, leq), x, y, x, y);
        CollectKeepsOrder(t, TiedWith(z, leq), x, y, x, y);
      }
      OrderDetermines(p, q);
    }
  }

  lemma SortUnlike<T(!new)>(s: seq<T>, t: seq<T>, leq: (T, T) -> bool, x: T, y: T)
    requires TotalPreorder(leq) && multiset(s) == multiset(t) && x != y && leq(x, y) && leq(y, x)
    requires Before(s, x, y) && Before(t, y, x)
    ensures Sort(s, leq) != Sort(t, leq)
  {
    SortAlikeIff(s, t, leq);
    TiedMarks(x, leq, x);
    TiedMarks(x, leq, y);
    CollectKeepsOrder(s, TiedWith(x, leq), x, y, x, y);
    CollectKeepsOrder(t, TiedWith(x, leq), y, x, y, x);
    OneIsFirst(Collect(s, TiedWith(x, leq)), x, y);
  }
}
