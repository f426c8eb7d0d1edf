/** How many workers a run takes when it counted so many live runs, and what the shares add up to. */
module WorkerShares {
  import opened Prelude

  function WorkerBudget(cores: int, liveRuns: int): Option<nat> {
    if cores <= 0 || liveRuns <= 1 then None else Some(Share(cores, liveRuns))
  }

  function Share(cores: int, runs: int): nat
    requires 0 < cores && 0 < runs
  {
    if cores / runs < 1 then 1 else cores / runs
  }

  function CappedTotal(cores: int, counted: seq<nat>): nat
    requires 0 < cores
  {
    if counted == [] then 0
    else
      CappedTotal(cores, counted[..|counted| - 1])
      + match WorkerBudget(cores, counted[|counted| - 1]) case None => 0 case Some(b) => b
  }

  /** Share(cores, 2) + ... + Share(cores, n). */
  function Ladder(cores: int, n: nat): nat
    requires 0 < cores
  {
    if n < 2 then 0 else Ladder(cores, n - 1) + Share(cores, n)
  }

  lemma ShareShrinks(cores: int, fewer: int, more: int)
    requires 0 < cores && 0 < fewer <= more
    ensures Share(cores, more) <= Share(cores, fewer)
  {
    var q := cores / more;
    DivisionFits(cores, more);
    TimesGrows(fewer, more, q);
    QuotientIsLargest(cores, fewer, q);
  }

  lemma {:induction false} TimesGrows(a: int, b: int, d: nat)
    requires a <= b
    ensures a * d <= b * d && d * a == a * d && d * b == b * d
  {
    if d > 0 {
      TimesGrows(a, b, d - 1);
      assert a * d == a * (d - 1) + a && b * d == b * (d - 1) + b;
    }
  }

  lemma DivisionFits(c: int, d: int)
    requires 0 <= c && 0 < d
    ensures 0 <= c / d && (c / d) * d <= c < (c / d + 1) * d
  {
    assert c == d * (c / d) + c % d;
  }

  lemma QuotientIsLargest(c: int, d: int, k: int)
    requires 0 <= c && 0 < d && k * d <= c
    ensures k <= c / d
  {
    DivisionFits(c, d);
    if k > c / d { TimesGrows(c / d + 1, k, d); }
  }

  /** What a run takes: nothing is imposed on a run alone or on an unknown machine; else an equal share of the cores,
      rounded down, and never less than one worker. */
  lemma BudgetIff(cores: int, liveRuns: int)
    ensures WorkerBudget(cores, liveRuns) == None <==> cores <= 0 || liveRuns <= 1
    ensures WorkerBudget(cores, liveRuns).Some? ==>
              var b := WorkerBudget(cores, liveRuns).value;
              if cores < liveRuns then b == 1 else b * liveRuns <= cores < (b + 1) * liveRuns
  {
    if 0 < cores && 1 < liveRuns {
      DivisionFits(cores, liveRuns);
      if cores < liveRuns { QuotientIsLargest(cores, liveRuns, 0); } else { QuotientIsLargest(cores, liveRuns, 1); }
    }
  }

  lemma {:induction false} LadderBoundsTotal(cores: int, counted: seq<nat>)
    requires 0 < cores && forall k :: 0 <= k < |counted| ==> counted[k] >= k + 1
    ensures CappedTotal(cores, counted)
         <= Ladder(cores, |counted|)
            + if |counted| > 0 && counted[0] > 1 then Share(cores, counted[0]) else 0
  {
    if |counted| == 1 {
      assert CappedTotal(cores, counted[..0]) == 0;
    } else if counted != [] {
      var n := |counted|;
      LadderBoundsTotal(cores, counted[..n - 1]);
      ShareShrinks(cores, n, counted[n - 1]);
    }
  }

  lemma {:induction false} EqualSharesFit(cores: int, counted: seq<nat>, n: nat)
    requires 0 < cores && 2 <= n && forall k :: 0 <= k < |counted| ==> counted[k] >= n
    ensures CappedTotal(cores, counted) <= |counted| * Share(cores, n)
  {
    if counted != [] {
      var k, share := |counted| - 1, Share(cores, n);
      EqualSharesFit(cores, counted[..k], n);
      ShareShrinks(cores, n, counted[k]);
      assert (k + 1) * share == k * share + share;
    }
  }

  lemma SharesFitCores(cores: int, n: nat)
    requires 0 < cores && 0 < n
    ensures n * Share(cores, n) <= if cores < n then n else cores
  {
    if cores / n >= 1 {
      assert n * (cores / n) <= cores;
    }
  }

  lemma {:induction false} LadderOfTotal(cores: int, counted: seq<nat>)
    requires 0 < cores && forall k :: 0 <= k < |counted| ==> counted[k] == k + 1
    ensures CappedTotal(cores, counted) == Ladder(cores, |counted|)
  {
    if counted != [] {
      LadderOfTotal(cores, counted[..|counted| - 1]);
    }
  }

  /** The same with a first reader that counted a second run. */
  lemma {:induction false} PairedTotal(cores: int, counted: seq<nat>)
    requires 0 < cores && 2 <= |counted| && counted[0] == 2 && forall k :: 1 <= k < |counted| ==> counted[k] == k + 1
    ensures CappedTotal(cores, counted) == Ladder(cores, |counted|) + Share(cores, 2)
  {
    var init := counted[..|counted| - 1];
    if |counted| == 2 {
      assert init == [2] && init[..0] == [];
      assert CappedTotal(cores, init) == Share(cores, 2);
      assert Ladder(cores, 1) == 0;
    } else {
      PairedTotal(cores, init);
    }
  }
}
