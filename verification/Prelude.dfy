/** Small vocabulary shared by the models. */
module Prelude {
  datatype Option<+T> = None | Some(value: T)

  datatype Result<+T, +E> = Ok(value: T) | Err(error: E)
  {
    function PropagateError<U>(): Result<U, E>
      requires Err?
    {
      Err(error)
    }
  }

  // ----- Concatenation -----

  lemma ConcatAssociates<T>(a: seq<T>, b: seq<T>, c: seq<T>)
    ensures a + (b + c) == (a + b) + c
  {
  }

  lemma ConcatFirst<T>(a: seq<T>, b: seq<T>)
    requires a != []
    ensures (a + b)[0] == a[0] && (a + b)[1..] == a[1..] + b
  {
  }

  lemma ConcatLast<T>(a: seq<T>, b: seq<T>)
    requires b != []
    ensures b == b[..|b| - 1] + [b[|b| - 1]]
    ensures a + b == (a + b[..|b| - 1]) + [b[|b| - 1]]
  {
  }

  lemma AllAre<T(!new)>(s: seq<T>, p: T -> bool)
    ensures (forall i :: 0 <= i < |s| ==> p(s[i])) <==> forall x :: x in s ==> p(x)
  {
    if forall x :: x in s ==> p(x) {
      forall i | 0 <= i < |s|
        ensures p(s[i])
      {
        assert s[i] in s;
      }
    }
  }

  lemma CutAt<T>(s: seq<T>, i: nat)
    requires i <= |s|
    ensures s == s[..i] + s[i..]
  {
  }

  lemma FirstCounts<T>(s: seq<T>)
    requires s != []
    ensures multiset(s) == multiset{s[0]} + multiset(s[1..])
  {
    assert s == [s[0]] + s[1..];
  }

  lemma TakeNext<T>(s: seq<T>, i: nat)
    requires i < |s|
    ensures s[..i + 1] == s[..i] + [s[i]]
  {
  }

  ghost predicate Distinct<T>(s: seq<T>) {
    forall i, j :: 0 <= i < j < |s| ==> s[i] != s[j]
  }

  lemma DistinctNext<T>(s: seq<T>, x: T)
    requires Distinct(s) && x !in s
    ensures Distinct(s + [x])
  {
  }

  function Elements<T>(s: seq<T>): set<T>
  {
    set x | x in s
  }

  lemma SomeMember<T>(s: set<T>) returns (x: T)
    requires s != {}
    ensures x in s
  {
    x :| x in s;
  }

  lemma {:induction false} ElementsFit<T>(s: seq<T>)
    ensures |Elements(s)| <= |s|
    ensures Distinct(s) ==> |Elements(s)| == |s|
  {
    if s != [] {
      var init, x := s[..|s| - 1], s[|s| - 1];
      ElementsFit(init);
      assert s == init + [x];
      assert Elements(s) == Elements(init) + {x};
    }
  }

  lemma SubsetFits<T>(a: set<T>, b: set<T>)
    requires a <= b
    ensures |a| <= |b|
  {
    assert b == a + (b - a);
  }

  /** Distinct members of a sequence cannot outnumber it. */
  lemma DistinctMembersFit<T>(a: seq<T>, b: seq<T>)
    requires Distinct(a) && forall x :: x in a ==> x in b
    ensures |a| <= |b|
  {
    ElementsFit(a);
    ElementsFit(b);
    SubsetFits(Elements(a), Elements(b));
  }

  /** What `f` yields for the elements of `s`, in order. */
  function Collect<T, U>(s: seq<T>, f: T -> seq<U>): seq<U> {
    if s == [] then [] else Collect(s[..|s| - 1], f) + f(s[|s| - 1])
  }

  lemma {:induction false} CollectConcat<T, U>(s: seq<T>, t: seq<T>, f: T -> seq<U>)
    ensures Collect(s + t, f) == Collect(s, f) + Collect(t, f)
  {
    if t == [] {
      assert s + t == s;
    } else {
      var n := |t| - 1;
      CollectConcat(s, t[..n], f);
      assert (s + t)[..|s + t| - 1] == s + t[..n];
    }
  }

  lemma CollectOne<T, U>(x: T, f: T -> seq<U>)
    ensures Collect([x], f) == f(x)
  {
    assert [x][..0] == [];
  }

  lemma CollectSnoc<T, U>(s: seq<T>, x: T, f: T -> seq<U>)
    ensures Collect(s + [x], f) == Collect(s, f) + f(x)
  {
    assert (s + [x])[..|s|] == s;
  }

  lemma {:induction false} CollectIsEmpty<T, U>(s: seq<T>, f: T -> seq<U>)
    ensures Collect(s, f) == [] <==> forall x :: x in s ==> f(x) == []
  {
    if s != [] {
      CollectIsEmpty(s[..|s| - 1], f);
      assert s == s[..|s| - 1] + [s[|s| - 1]];
    }
  }

  lemma {:induction false} CollectAll<T>(s: seq<T>, f: T -> seq<T>)
    requires forall x :: x in s ==> f(x) == [x]
    ensures Collect(s, f) == s
  {
    if s != [] { CollectAll(s[..|s| - 1], f); }
  }

  lemma OneMoreCopy<T>(s: seq<T>, x: T, y: T)
    ensures multiset(s + [x])[y] == multiset(s)[y] + if x == y then 1 else 0
  {
  }

  /** When only `x` yields `u`, and once, or nothing does, the copies of `u` are those of `x`, or none. */
  lemma {:induction false} MarkCounts<T(!new), U>(s: seq<T>, f: T -> seq<U>, x: T, u: U, on: bool)
    requires forall y :: multiset(f(y))[u] == if on && y == x then 1 else 0
    ensures multiset(Collect(s, f))[u] == if on then multiset(s)[x] else 0
  {
    if s != [] {
      hide Collect;
      var init, last := s[..|s| - 1], s[|s| - 1];
      MarkCounts(init, f, x, u, on);
      CollectSnoc(init, last, f);
      assert s == init + [last];
      OneMoreCopy(init, last, x);
    } else {
      assert Collect(s, f) == [];
    }
  }

  /** A filter keeps all copies of an element or none. */
  lemma {:induction false} FilterCounts<T(!new)>(s: seq<T>, f: T -> seq<T>, x: T)
    requires forall y :: f(y) == [y] || f(y) == []
    ensures multiset(Collect(s, f))[x] == if f(x) == [x] then multiset(s)[x] else 0
  {
    if s != [] {
      hide Collect;
      var init, last := s[..|s| - 1], s[|s| - 1];
      FilterCounts(init, f, x);
      CollectSnoc(init, last, f);
      assert s == init + [last];
      OneMoreCopy(init, last, x);
      if f(last) == [last] {
        OneMoreCopy(Collect(init, f), last, x);
      } else {
        assert Collect(init, f) + [] == Collect(init, f);
      }
    } else {
      assert Collect(s, f) == [];
    }
  }

  /** One more round of a loop over `s`. */
  lemma CollectNext<T, U>(s: seq<T>, i: nat, f: T -> seq<U>)
    requires i < |s|
    ensures Collect(s[..i + 1], f) == Collect(s[..i], f) + f(s[i])
    ensures f(s[i]) == [] ==> Collect(s[..i + 1], f) == Collect(s[..i], f)
  {
    assert s[..i + 1][..i] == s[..i];
  }

  lemma CutOut<T>(t: seq<T>, i: nat)
    requires i < |t|
    ensures multiset(t) == multiset(t[..i] + t[i + 1..]) + multiset{t[i]}
  {
    assert t == t[..i] + [t[i]] + t[i + 1..];
  }

  /** An element of a permutation stands somewhere in it, and taking it out leaves a permutation of the rest. */
  lemma TakeOut<T>(s: seq<T>, x: T, t: seq<T>) returns (i: nat)
    requires multiset(s + [x]) == multiset(t)
    ensures i < |t| && t[i] == x && multiset(s) == multiset(t[..i] + t[i + 1..])
  {
    assert x in multiset(t);
    i :| 0 <= i < |t| && t[i] == x;
    CutOut(t, i);
    assert multiset(s) == multiset(s + [x]) - multiset{x};
    assert multiset(t[..i] + t[i + 1..]) == multiset(t) - multiset{x};
  }

  lemma {:induction false} CollectPermutes<T, U>(s: seq<T>, t: seq<T>, f: T -> seq<U>)
    requires multiset(s) == multiset(t)
    ensures multiset(Collect(s, f)) == multiset(Collect(t, f))
  {
    if s == [] {
      assert |t| == |multiset(t)| == 0;
    } else {
      var init, x := s[..|s| - 1], s[|s| - 1];
      assert s == init + [x];
      var i := TakeOut(init, x, t);
      var a, b := t[..i], t[i + 1..];
      assert t == a + [x] + b;
      CollectPermutes(init, a + b, f);
      CollectConcat(a, b, f);
      CollectConcat(a + [x], b, f);
      CollectConcat(a, [x], f);
      CollectOne(x, f);
    }
  }

  lemma {:induction false} CollectAgrees<T, U>(s: seq<T>, f: T -> seq<U>, g: T -> seq<U>)
    requires forall x :: x in s ==> f(x) == g(x)
    ensures Collect(s, f) == Collect(s, g)
  {
    if s != [] {
      CollectAgrees(s[..|s| - 1], f, g);
    }
  }

  /** Two passes in one. */
  lemma {:induction false} CollectTwice<T, U, V>(s: seq<T>, f: T -> seq<U>, g: U -> seq<V>, both: T -> seq<V>)
    requires forall x :: x in s ==> both(x) == Collect(f(x), g)
    ensures Collect(s, both) == Collect(Collect(s, f), g)
  {
    if s != [] {
      var init, x := s[..|s| - 1], s[|s| - 1];
      CollectTwice(init, f, g, both);
      CollectConcat(Collect(init, f), f(x), g);
    }
  }

  lemma {:induction false} CollectMember<T, U>(s: seq<T>, f: T -> seq<U>, u: U)
    ensures u in Collect(s, f) <==> exists i :: 0 <= i < |s| && u in f(s[i])
  {
    if s != [] {
      CollectMember(s[..|s| - 1], f, u);
    }
  }

  lemma CollectHas<T(!new), U>(s: seq<T>, f: T -> seq<U>, u: U)
    ensures u in Collect(s, f) <==> exists x :: x in s && u in f(x)
  {
    hide Collect;
    CollectMember(s, f, u);
    if x :| x in s && u in f(x) {
      var i :| 0 <= i < |s| && s[i] == x;
      assert u in f(s[i]);
    }
  }

  lemma InPermutation<T>(a: seq<T>, b: seq<T>, x: T)
    requires multiset(a) == multiset(b)
    ensures x in a <==> x in b
  {
    assert x in a <==> x in multiset(a);
    assert x in b <==> x in multiset(b);
  }

  lemma SameMembers<T>(a: seq<T>, b: seq<T>)
    requires multiset(a) == multiset(b)
    ensures |a| == |b| && Elements(a) == Elements(b)
  {
    assert |multiset(a)| == |a| && |multiset(b)| == |b|;
    forall x
      ensures x in a <==> x in b
    {
      assert x in a <==> x in multiset(a);
      assert x in b <==> x in multiset(b);
    }
  }

  /** The distinct elements of `s`, in the order of their first occurrence. */
  function Dedup<T(==)>(s: seq<T>): seq<T> {
    if s == [] then []
    else
      var init := Dedup(s[..|s| - 1]);
      if s[|s| - 1] in s[..|s| - 1] then init else init + [s[|s| - 1]]
  }

  lemma DedupNext<T>(s: seq<T>, x: T)
    ensures Dedup(s + [x]) == if x in s then Dedup(s) else Dedup(s) + [x]
    ensures Elements(s + [x]) == Elements(s) + {x}
  {
    assert (s + [x])[..|s|] == s;
  }

  lemma {:induction false} DedupIsDistinct<T>(s: seq<T>)
    ensures Distinct(Dedup(s)) && forall x :: x in Dedup(s) <==> x in s
  {
    if s != [] {
      DedupIsDistinct(s[..|s| - 1]);
      assert s == s[..|s| - 1] + [s[|s| - 1]];
    }
  }

  lemma {:induction false} DistinctCounts<T>(s: seq<T>, x: T)
    requires Distinct(s)
    ensures multiset(s)[x] == if x in s then 1 else 0
  {
    if s != [] {
      DistinctCounts(s[..|s| - 1], x);
      assert s == s[..|s| - 1] + [s[|s| - 1]];
    }
  }

  /** The same distinct elements, in any two orders. */
  lemma DistinctPermute<T>(a: seq<T>, b: seq<T>)
    requires Distinct(a) && Distinct(b) && forall x :: x in a <==> x in b
    ensures multiset(a) == multiset(b)
  {
    forall x
      ensures multiset(a)[x] == multiset(b)[x]
    {
      DistinctCounts(a, x);
      DistinctCounts(b, x);
    }
  }

  lemma PermutedDistinct<T>(a: seq<T>, b: seq<T>)
    requires Distinct(a) && multiset(a) == multiset(b)
    ensures Distinct(b)
  {
    forall i, j | 0 <= i < j < |b|
      ensures b[i] != b[j]
    {
      if b[i] == b[j] {
        assert b == b[..i] + [b[i]] + b[i + 1..j] + [b[j]] + b[j + 1..];
        assert multiset(b)[b[i]] >= 2;
        DistinctCounts(a, b[i]);
      }
    }
  }

  // ----- Sums -----

  function Sum(s: seq<int>): int {
    if s == [] then 0 else Sum(s[..|s| - 1]) + s[|s| - 1]
  }

  lemma {:induction false} SumConcat(a: seq<int>, b: seq<int>)
    ensures Sum(a + b) == Sum(a) + Sum(b)
    ensures Sum([]) == 0 && forall x: int :: Sum([x]) == x
  {
    assert forall x: int :: [x][..0] == [];
    if b == [] {
      assert a + b == a;
    } else {
      var n := |b| - 1;
      SumConcat(a, b[..n]);
      assert (a + b)[..|a + b| - 1] == a + b[..n];
    }
  }

  lemma {:induction false} SumPermutes(s: seq<int>, t: seq<int>)
    requires multiset(s) == multiset(t)
    ensures Sum(s) == Sum(t) && |s| == |t|
  {
    SameMembers(s, t);
    if s != [] {
      var init, x := s[..|s| - 1], s[|s| - 1];
      ConcatLast([], s);
      var i := TakeOut(init, x, t);
      SumPermutes(init, t[..i] + t[i + 1..]);
      assert t == t[..i] + [x] + t[i + 1..];
      SumConcat(t[..i] + [x], t[i + 1..]);
      SumConcat(t[..i], [x]);
      SumConcat(t[..i], t[i + 1..]);
    }
  }
}
