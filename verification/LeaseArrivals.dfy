/** Runs of the lease machine built step by step: an undisturbed census, and processes that arrive one by one. */
module LeaseArrivals {
  import opened Prelude
  import opened LeaseFiles
  import opened WorkerLeases
  import opened WorkerShares

  // ----- The interleaved steps of one process, taken alone, are the census it computes -----

  lemma {:induction false} ExecConcat(m: Machine, a: seq<Event>, b: seq<Event>)
    ensures Exec(m, a + b) == Exec(Exec(m, a), b)
    ensures Clean(m, a + b) <==> Clean(m, a) && Clean(Exec(m, a), b)
  {
    if b == [] {
      assert a + b == a;
    } else {
      var n := |b| - 1;
      ExecConcat(m, a, b[..n]);
      assert (a + b)[..|a + b| - 1] == a + b[..n];
    }
  }

  lemma ExecOne(m: Machine, e: Event)
    requires Enabled(m, e) && (e.Register? ==> !Pending(m, e.pid))
    ensures Exec(m, [e]) == Step(m, e) && Clean(m, [e])
  {
    assert [e][..0] == [] && Exec(m, [e][..0]) == m && Clean(m, [e][..0]);
  }

  ghost predicate SameButFor(m: Machine, m': Machine, p: int) {
    m'.alive == m.alive && m'.runs.Keys == m.runs.Keys && forall q :: q in m.runs && q != p ==> m'.runs[q] == m.runs[q]
  }

  lemma {:induction false} CensusAlone(m: Machine, p: int) returns (events: seq<Event>)
    requires At(m, p, Census) && Distinct(m.runs[p].todo)
    ensures var m', r := Exec(m, events), m.runs[p];
            && SameButFor(m, m', p) && m'.now > m.now
            && At(m', p, Running)
            && m'.runs[p] == Run(Running, r.registeredAt, r.readAt, [], r.live + LivePids(r.todo, m.alive))
            && m'.dir == m.dir - (set n | n in r.todo && Condemned(n, m.alive))
    ensures Clean(m, events)
    decreases |m.runs[p].todo|
  {
    var r := m.runs[p];
    if r.todo == [] {
      events := [Decide(p)];
      ExecOne(m, Decide(p));
    } else {
      hide Exec, Clean, LivePids, Condemned;
      var m1, first := OneNameAlone(m, p);
      var rest := CensusAlone(m1, p);
      FirstAndRest(r.todo, m.alive);
      ExecConcat(m, first, rest);
      events := first + rest;
    }
  }

  /** One name of the census: probed, and removed when it is dead. */
  lemma OneNameAlone(m: Machine, p: int) returns (m1: Machine, events: seq<Event>)
    requires At(m, p, Census) && m.runs[p].todo != []
    ensures var r, name := m.runs[p], m.runs[p].todo[0];
            && Exec(m, events) == m1 && SameButFor(m, m1, p) && m1.now > m.now && At(m1, p, Census)
            && m1.runs[p] == r.(todo := r.todo[1..], live := r.live + LivePids([name], m.alive))
            && m1.dir == m.dir - (if Condemned(name, m.alive) then {name} else {})
    ensures Clean(m, events)
  {
    hide Exec, Clean;
    var name := m.runs[p].todo[0];
    assert [name][1..] == [];
    ExecOne(m, Probe(p));
    m1, events := Step(m, Probe(p)), [Probe(p)];
    if Condemned(name, m.alive) {
      ExecOne(m1, Reap(p, true));
      ExecConcat(m, events, [Reap(p, true)]);
      m1, events := Step(m1, Reap(p, true)), events + [Reap(p, true)];
    }
  }

  /** A process starts, registers and reads the directory. */
  lemma Enters(m0: Machine, p: int, listing: seq<Name>) returns (m3: Machine, events: seq<Event>)
    requires 0 < p && p !in m0.runs && p !in m0.alive && !Pending(m0, p)
    requires Enumerates(listing, m0.dir + {Lease(p)})
    ensures Exec(m0, events) == m3 && Clean(m0, events) && At(m3, p, Census) && Distinct(m3.runs[p].todo)
    ensures m3 == Machine(m0.now + 3, m0.dir + {Lease(p)}, m0.alive + {p},
                          m0.runs[p := Run(Census, m0.now + 1, m0.now + 2, listing, [])])
  {
    hide Exec, Clean;
    var start, register, read := Spawn(p), Register(p), ReadDir(p, listing);
    var m1 := Step(m0, start);
    var m2 := Step(m1, register);
    m3 := Step(m2, read);
    events := [start] + [register] + [read];
    ExecOne(m0, start);
    ExecOne(m1, register);
    ExecOne(m2, read);
    ExecConcat(m0, [start], [register]);
    ExecConcat(m0, [start] + [register], [read]);
  }

  /** An undisturbed process, from its start to its budget and its release, leaves the directory and counts the runs as
      the methods of one process say. */
  lemma ClaimAlone(m: Machine, p: int, listing: seq<Name>) returns (claim: seq<Event>)
    requires 0 < p && p !in m.runs && p !in m.alive && !Pending(m, p)
    requires Enumerates(listing, m.dir + {Lease(p)})
    ensures Clean(m, claim)
    ensures var m', alive := Exec(m, claim), m.alive + {p};
            && At(m', p, Running) && m'.runs[p].live == LivePids(listing, alive)
            && m'.dir == (set n | n in m.dir + {Lease(p)} && !Condemned(n, alive))
            && m'.alive == alive && forall q :: q in m.runs ==> q in m'.runs && m'.runs[q] == m.runs[q]
    ensures var m'' := Exec(m, claim + [Release(p, true)]);
            && m''.dir == Exec(m, claim).dir - {Lease(p)} && p in m''.runs && m''.runs[p].stage == Released
  {
    hide Exec, Clean, LivePids, Condemned;
    var m3, enter := Enters(m, p, listing);
    var census := CensusAlone(m3, p);
    claim := enter + census;
    ExecConcat(m, enter, census);
    assert [] + LivePids(listing, m3.alive) == LivePids(listing, m3.alive);
    var m' := Exec(m, claim);
    ExecOne(m', Release(p, true));
    ExecConcat(m, claim, [Release(p, true)]);
  }

  // ----- The ladder is reached: runs that arrive one after the other count exactly 1, 2, ..., n -----

  function Names(n: nat): seq<Name> {
    seq(n, i => Lease(i + 1))
  }

  lemma {:induction false} AllAreLive(listing: seq<Name>, alive: set<int>)
    requires forall n :: n in listing ==> Counts(n, alive)
    ensures |LivePids(listing, alive)| == |listing|
  {
    if listing != [] {
      AllAreLive(listing[1..], alive);
    }
  }

  /** Runs 1 to n work, having read the directory in this order; the first counted `first` runs, each other one all
      that were there when it read. */
  ghost predicate Staggered(m: Machine, n: nat, first: nat) {
    && m.dir == Elements(Names(n))
    && (forall p :: p in m.alive <==> 1 <= p <= n)
    && (forall p :: p in m.runs <==> 1 <= p <= n)
    && (forall p :: 1 <= p <= n ==> m.runs[p].stage == Running && Counted(m, p) == if p == 1 then first else p)
    && (forall p :: 1 <= p <= n ==> m.runs[p].readAt < m.now)
    && (forall p, q :: 1 <= p < q <= n ==> m.runs[p].readAt < m.runs[q].readAt)
  }

  /** Run `n` starts, registers and reads the directory. */
  lemma Arrive(m0: Machine, n: nat, first: nat) returns (m3: Machine, events: seq<Event>)
    requires 0 < n && Staggered(m0, n - 1, first)
    ensures Exec(m0, events) == m3 && Clean(m0, events) && At(m3, n, Census) && Distinct(m3.runs[n].todo)
    ensures m3 == Machine(m0.now + 3, m0.dir + {Lease(n)}, m0.alive + {n},
                          m0.runs[n := Run(Census, m0.now + 1, m0.now + 2, Names(n), [])])
    ensures m3.dir == Elements(Names(n))
  {
    hide Exec, Clean;
    assert Names(n) == Names(n - 1) + [Lease(n)];
    m3, events := Enters(m0, n, Names(n));
  }

  /** After the first k runs the others arrive one by one. */
  lemma {:induction false} Arrivals(base: seq<Event>, k: nat, n: nat, first: nat) returns (events: seq<Event>)
    requires Staggered(Exec(Empty, base), k, first) && Clean(Empty, base) && k <= n && (k == 0 ==> first == 1)
    ensures Staggered(Exec(Empty, events), n, first) && Clean(Empty, events)
    decreases n
  {
    if n == k {
      events := base;
    } else {
      hide Exec, Staggered, Clean;
      var before := Arrivals(base, k, n - 1, first);
      var m0 := Exec(Empty, before);
      var m3, arrival := Arrive(m0, n, first);
      var census := CensusAlone(m3, n);
      events := before + arrival + census;
      ExecConcat(Empty, before, arrival);
      ExecConcat(Empty, before + arrival, census);
      OneMoreArrived(m0, m3, Exec(m3, census), n, first);
    }
  }

  /** Its census finds all of them alive and nothing to remove. */
  lemma ArrivalCounts(n: nat, alive: set<int>)
    requires 0 < n && forall p :: p in alive <==> 1 <= p <= n
    ensures LiveRuns(n, LivePids(Names(n), alive)) == n
    ensures (set x | x in Names(n) && Condemned(x, alive)) == {}
  {
    AllAreLive(Names(n), alive);
    assert Names(n)[n - 1] == Lease(n);
    OwnLeaseIsCounted(Names(n), alive, n);
  }

  lemma OneMoreArrived(m0: Machine, m3: Machine, m: Machine, n: nat, first: nat)
    requires 0 < n && Staggered(m0, n - 1, first) && (n == 1 ==> first == 1)
    requires m3 == Machine(m0.now + 3, m0.dir + {Lease(n)}, m0.alive + {n},
                           m0.runs[n := Run(Census, m0.now + 1, m0.now + 2, Names(n), [])])
    requires SameButFor(m3, m, n) && m.now > m3.now && m3.dir == Elements(Names(n))
    requires m.runs[n] == Run(Running, m0.now + 1, m0.now + 2, [], [] + LivePids(Names(n), m3.alive))
    requires m.dir == m3.dir - (set x | x in Names(n) && Condemned(x, m3.alive))
    ensures Staggered(m, n, first)
  {
    hide LivePids, Condemned, Names, LiveRuns, Elements;
    ArrivalCounts(n, m3.alive);
    assert [] + LivePids(Names(n), m3.alive) == LivePids(Names(n), m3.alive);
    assert m.alive == m3.alive && m.runs.Keys == m3.runs.Keys;
    forall p | 1 <= p < n
      ensures p in m.runs && m.runs[p] == m0.runs[p]
    {
      assert p in m3.runs && p != n;
    }
    hide SameButFor, Counted;
    assert Counted(m, n) == if n == 1 then first else n;
  }

  /** Such runs, listed by process id, stand in the order in which they read. */
  lemma StaggeredRuns(m: Machine, n: nat, first: nat) returns (runs: seq<int>)
    requires Staggered(m, n, first)
    ensures InReadOrder(m, runs) && |runs| == n
    ensures forall k :: 0 <= k < n ==> Counted(m, runs[k]) == if k == 0 then first else k + 1
  {
    hide LiveRuns, Names, Elements;
    runs := seq(n, i => i + 1);
  }

  /** The bound is exact: for every n there is a reachable state whose n runs hold the whole ladder. */
  lemma LadderIsReached(cores: int, n: nat) returns (m: Machine, runs: seq<int>)
    requires 0 < cores
    ensures Reachable(m) && InReadOrder(m, runs) && |runs| == n
    ensures 0 < n ==> BudgetOf(cores, m, runs[0]) == None
    ensures CappedTotal(cores, CountedBy(m, runs)) == Ladder(cores, n)
  {
    assert Staggered(Exec(Empty, []), 0, 1) && Clean(Empty, []);
    hide Exec, Clean, Staggered, Counted, CappedTotal, Ladder;
    var events := Arrivals([], 0, n, 1);
    m := Exec(Empty, events);
    runs := StaggeredRuns(m, n, 1);
    LadderOfTotal(cores, CountedBy(m, runs));
  }

  // ----- Why the ladder alone is no bound: two runs that register before either counts -----

  function Both(): seq<Name> { [Lease(1), Lease(2)] }

  /** Both have registered and both have read the directory. */
  lemma BothRead() returns (m: Machine, events: seq<Event>)
    ensures Exec(Empty, events) == m && Clean(Empty, events) && m.alive == {1, 2} && m.dir == {Lease(1), Lease(2)}
    ensures m.runs == map[1 := Run(Census, 1, 4, Both(), []), 2 := Run(Census, 3, 5, Both(), [])] && m.now == 6
  {
    hide Exec, Clean;
    m, events := Empty, [];
    NothingYet();
    m, events := OneMore(m, events, Spawn(1));
    m, events := OneMore(m, events, Register(1));
    m, events := OneMore(m, events, Spawn(2));
    m, events := OneMore(m, events, Register(2));
    m, events := OneMore(m, events, ReadDir(1, Both()));
    m, events := OneMore(m, events, ReadDir(2, Both()));
  }

  lemma NothingYet()
    ensures Exec(Empty, []) == Empty && Clean(Empty, [])
  {
  }

  lemma OneMore(m: Machine, events: seq<Event>, e: Event) returns (m': Machine, events': seq<Event>)
    requires Exec(Empty, events) == m && Clean(Empty, events) && Enabled(m, e) && (e.Register? ==> !Pending(m, e.pid))
    ensures events' == events + [e] && m' == Step(m, e) && Exec(Empty, events') == m' && Clean(Empty, events')
  {
    hide Clean;
    m', events' := Step(m, e), events + [e];
    ExecOne(m, e);
    ExecConcat(Empty, events, [e]);
  }

  lemma BothCount(alive: set<int>)
    requires alive == {1, 2}
    ensures [] + LivePids(Both(), alive) == [1, 2] && (set x | x in Both() && Condemned(x, alive)) == {}
  {
    assert Both()[1..] == [Lease(2)] && [Lease(2)][1..] == [];
    assert LivePids([Lease(2)], alive) == [2];
    assert LivePids(Both(), alive) == [1] + [2];
  }

  /** Both work, and each counted two. */
  lemma BothRun() returns (events: seq<Event>)
    ensures Staggered(Exec(Empty, events), 2, 2) && Clean(Empty, events)
  {
    hide Exec, Clean, LivePids, Condemned;
    var m0, before := BothRead();
    BothCount({1, 2});
    var first := CensusAlone(m0, 1);
    var m1 := Exec(m0, first);
    var second := CensusAlone(m1, 2);
    events := before + first + second;
    ExecConcat(Empty, before, first);
    ExecConcat(Empty, before + first, second);
    assert Names(2) == Both();
  }

  /** For every n there is a reachable state of n runs, the first of them capped too, that hold the ladder and a half
      share more: two register together, the others arrive one by one. */
  lemma HalfShareIsNeeded(cores: int, n: nat) returns (m: Machine, runs: seq<int>)
    requires 0 < cores && 2 <= n
    ensures Reachable(m) && InReadOrder(m, runs) && |runs| == n && BudgetOf(cores, m, runs[0]).Some?
    ensures CappedTotal(cores, CountedBy(m, runs)) == Ladder(cores, n) + Share(cores, 2) > Ladder(cores, n)
  {
    hide Exec, Clean, Staggered, Counted, CappedTotal, Ladder;
    var base := BothRun();
    var events := Arrivals(base, 2, n, 2);
    m := Exec(Empty, events);
    runs := StaggeredRuns(m, n, 2);
    PairedTotal(cores, CountedBy(m, runs));
  }

  // ----- A process id given out again between the probe and the removal -----

  /** Run 1 dies, run 2 finds its lease dead, and a new run 1 starts: when it registers and run 2 then removes the
      name it condemned, a live run has lost its lease. */
  lemma ReuseLosesLease() returns (events: seq<Event>)
    ensures var m := Exec(Empty, events);
            At(m, 1, Started) && Pending(m, 1) && Loses(Step(m, Register(1)), [Reap(2, true)], 1)
  {
    hide Clean, Exec;
    var m: Machine;
    m, events := Empty, [];
    NothingYet();
    m, events := OneMore(m, events, Spawn(1));
    m, events := OneMore(m, events, Register(1));
    m, events := OneMore(m, events, Die(1));
    m, events := OneMore(m, events, Spawn(2));
    m, events := OneMore(m, events, Register(2));
    m, events := OneMore(m, events, ReadDir(2, Both()));
    m, events := OneMore(m, events, Probe(2));
    m, events := OneMore(m, events, Spawn(1));
    assert m.runs[2].stage == Condemning(Lease(1));
    OneReap(Step(m, Register(1)));
  }

  lemma OneReap(m: Machine)
    requires Holding(m, 1) && IsCondemning(m, 2) && m.runs[2].stage == Condemning(Lease(1)) && m.runs[2].todo != []
    ensures Loses(m, [Reap(2, true)], 1)
  {
    var more := [Reap(2, true)];
    assert more[..0] == [] && more[..1] == more && Exec(m, []) == m;
  }

}
