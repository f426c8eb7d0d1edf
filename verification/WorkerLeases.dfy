/** The lease protocol that bounds how many test workers concurrent runs may use.

    Processes register a lease file, read the shared directory, probe every name they read, reap the
    names whose process is gone, and take a share of the cores.  Every one of these actions is its own
    step, so any number of runs may interleave at any point, any run may die at any point, and the system
    may give the process id of a dead run to another process or to another run.
 */
module WorkerLeases {
  import opened Prelude
  import opened LeaseFiles
  import opened WorkerShares

  // ----- Many processes, interleaved -----

  datatype Stage =
    | Started                    // alive, nothing written yet
    | Registered                 // lease written, directory not read yet
    | Census                     // probing the names it read
    | Condemning(name: Name)     // found the first name in `todo` dead, about to remove it
    | Running                    // took its budget
    | Unbounded                  // the file system failed it: it runs with no bound imposed
    | Released

  datatype Run = Run(stage: Stage, registeredAt: nat, readAt: nat, todo: seq<Name>, live: seq<int>)

  /** `alive` holds every process of the machine; `runs` those that are test runs. */
  datatype Machine = Machine(now: nat, dir: set<Name>, alive: set<int>, runs: map<int, Run>)

  datatype Event =
    | Spawn(pid: int)
    | Register(pid: int)
    | ReadDir(pid: int, listing: seq<Name>)
    | Probe(pid: int)
    | Reap(pid: int, removed: bool)
    | Decide(pid: int)
    | GiveUp(pid: int)
    | Release(pid: int, removed: bool)
    | Die(pid: int)
    | OtherStarts(pid: int)
    | OtherEnds(pid: int)
    | Litter(name: Name)
    | Sweep(name: Name)

  const Empty := Machine(0, {}, {}, map[])

  predicate At(m: Machine, pid: int, stage: Stage) {
    pid in m.runs && pid in m.alive && m.runs[pid].stage == stage
  }

  predicate IsCondemning(m: Machine, pid: int) {
    pid in m.runs && pid in m.alive && m.runs[pid].stage.Condemning?
  }

  ghost predicate Enabled(m: Machine, e: Event) {
    match e
    case Spawn(p) => 0 < p && p !in m.runs && p !in m.alive  // also the id of a run that died
    case Register(p) => At(m, p, Started)
    case ReadDir(p, listing) => At(m, p, Registered) && Enumerates(listing, m.dir)
    case Probe(p) => At(m, p, Census) && m.runs[p].todo != []
    case Reap(p, _) => IsCondemning(m, p) && m.runs[p].todo != []
    case Decide(p) => At(m, p, Census) && m.runs[p].todo == []
    case GiveUp(p) => At(m, p, Started) || At(m, p, Registered)
    case Release(p, _) => At(m, p, Running) || At(m, p, Unbounded)
    case Die(p) => p in m.runs
    case OtherStarts(p) => p !in m.runs && p !in m.alive
    case OtherEnds(p) => p !in m.runs
    case Litter(n) => !n.Lease?
    case Sweep(n) => !n.Lease?
  }

  function Put(m: Machine, pid: int, run: Run): Machine {
    m.(now := m.now + 1, runs := m.runs[pid := run])
  }

  /** What one enabled step does. */
  ghost function Step(m: Machine, e: Event): Machine
    requires Enabled(m, e)
  {
    match e
    case Spawn(p) => Put(m, p, Run(Started, 0, 0, [], [])).(alive := m.alive + {p})
    case Register(p) =>
      Put(m, p, m.runs[p].(stage := Registered, registeredAt := m.now)).(dir := m.dir + {Lease(p)})
    case ReadDir(p, listing) =>
      Put(m, p, m.runs[p].(stage := Census, readAt := m.now, todo := listing, live := []))
    case Probe(p) =>
      var r := m.runs[p];
      var name := r.todo[0];
      if Condemned(name, m.alive) then Put(m, p, r.(stage := Condemning(name)))
      else Put(m, p, r.(todo := r.todo[1..],
                        live := if Counts(name, m.alive) then r.live + [PidOf(name)] else r.live))
    case Reap(p, removed) =>
      var r := m.runs[p];
      Put(m, p, r.(stage := Census, todo := r.todo[1..]))
        .(dir := if removed then m.dir - {r.stage.name} else m.dir)
    case Decide(p) => Put(m, p, m.runs[p].(stage := Running))
    case GiveUp(p) => Put(m, p, m.runs[p].(stage := Unbounded))
    case Release(p, removed) =>
      Put(m, p, m.runs[p].(stage := Released)).(dir := if removed then m.dir - {Lease(p)} else m.dir)
    case Die(p) => m.(now := m.now + 1, alive := m.alive - {p}, runs := m.runs - {p})
    case OtherStarts(p) => m.(now := m.now + 1, alive := m.alive + {p})
    case OtherEnds(p) => m.(now := m.now + 1, alive := m.alive - {p})
    case Litter(n) => m.(now := m.now + 1, dir := m.dir + {n})
    case Sweep(n) => m.(now := m.now + 1, dir := m.dir - {n})
  }

  /** Every sequence of events is a run of the machine; an event that is not enabled does nothing. */
  ghost function Exec(m: Machine, events: seq<Event>): Machine {
    if events == [] then m
    else
      var before := Exec(m, events[..|events| - 1]);
      var e := events[|events| - 1];
      if Enabled(before, e) then Step(before, e) else before
  }

  /** Some run has found the lease of `pid` dead and has not removed it yet. */
  ghost predicate Pending(m: Machine, pid: int) {
    exists p :: p in m.runs && m.runs[p].stage == Condemning(Lease(pid))
  }

  /** No run registers while a removal of its own name is pending, which takes a process id given out again
      between the probe and the removal. */
  ghost predicate Clean(m: Machine, events: seq<Event>) {
    events == []
    || var before, e := events[..|events| - 1], events[|events| - 1];
       && Clean(m, before)
       && (e.Register? && Enabled(Exec(m, before), e) ==> !Pending(Exec(m, before), e.pid))
  }

  ghost predicate Reachable(m: Machine) {
    exists events :: Exec(Empty, events) == m && Clean(Empty, events)
  }

  // ----- The invariant -----

  predicate HasRead(stage: Stage) {
    stage == Census || stage.Condemning? || stage == Running
  }

  /** A run that is alive, has registered, and has not released. */
  predicate Holding(m: Machine, pid: int) {
    pid in m.runs && pid in m.alive && (m.runs[pid].stage == Registered || HasRead(m.runs[pid].stage))
  }

  /** A run that is alive and working under the budget it took. */
  predicate Bounded(m: Machine, pid: int) {
    At(m, pid, Running)
  }

  ghost predicate LeasesHeld(m: Machine) {
    forall q :: Holding(m, q) ==> Lease(q) in m.dir
  }

  ghost predicate NonePending(m: Machine) {
    forall q :: Holding(m, q) ==> !Pending(m, q)
  }

  ghost predicate RunsAreAlive(m: Machine) {
    forall p :: p in m.runs ==> 0 < p && p in m.alive
  }

  ghost predicate Witness(m: Machine, p: int, q: int)
    requires p in m.runs && q in m.runs
  {
    m.runs[q].registeredAt < m.runs[p].readAt ==> Lease(q) in m.runs[p].todo || q in m.runs[p].live
  }

  /** Whoever registered before p read the directory is still to be probed by p, or was counted. */
  ghost predicate Witnessed(m: Machine) {
    forall p, q :: p in m.runs && HasRead(m.runs[p].stage) && Holding(m, q) ==> Witness(m, p, q)
  }

  ghost predicate OneRunInOrder(m: Machine, r: Run) {
    && r.registeredAt <= m.now && r.readAt <= m.now
    && (r.stage == Registered ==> r.registeredAt < m.now)
    && (HasRead(r.stage) ==> r.registeredAt < r.readAt < m.now)
    && (r.stage == Running ==> r.todo == [])
    && (r.stage.Condemning? ==> r.todo != [] && r.todo[0] == r.stage.name && Distinct(r.todo))
    && (r.stage == Census ==> Distinct(r.todo))
  }

  ghost predicate InOrder(m: Machine) {
    && (forall p :: p in m.runs ==> OneRunInOrder(m, m.runs[p]))
    && (forall p, q :: p in m.runs && q in m.runs && p != q
                       && HasRead(m.runs[p].stage) && HasRead(m.runs[q].stage)
          ==> m.runs[p].readAt != m.runs[q].readAt)
  }

  /** What holds however process ids are given out. */
  ghost predicate Sound(m: Machine) {
    RunsAreAlive(m) && InOrder(m)
  }

  ghost predicate Inv(m: Machine) {
    Sound(m) && LeasesHeld(m) && NonePending(m) && Witnessed(m)
  }

  lemma OneRunStaysInOrder(m: Machine, e: Event, p: int)
    requires Sound(m) && Enabled(m, e) && p in Step(m, e).runs
    ensures OneRunInOrder(Step(m, e), Step(m, e).runs[p])
  {
    hide Condemned, Counts, PidOf;
    if p in m.runs { assert OneRunInOrder(m, m.runs[p]); }
  }

  lemma StepKeepsSound(m: Machine, e: Event)
    requires Sound(m) && Enabled(m, e)
    ensures Sound(Step(m, e))
  {
    var m' := Step(m, e);
    forall p | p in m'.runs
      ensures 0 < p && p in m'.alive && OneRunInOrder(m', m'.runs[p])
    {
      OneRunStaysInOrder(m, e, p);
    }
    forall p, q | p in m'.runs && q in m'.runs && p != q && HasRead(m'.runs[p].stage) && HasRead(m'.runs[q].stage)
      ensures m'.runs[p].readAt != m'.runs[q].readAt
    {
      assert OneRunInOrder(m, m.runs[p]) && OneRunInOrder(m, m.runs[q]);
    }
  }

  lemma StepKeepsInv(m: Machine, e: Event)
    requires Inv(m) && Enabled(m, e) && (e.Register? ==> !Pending(m, e.pid))
    ensures Inv(Step(m, e))
  {
    StepKeepsSound(m, e);
    StepKeepsLeases(m, e);
    StepKeepsWitnesses(m, e);
  }

  lemma StepKeepsLeases(m: Machine, e: Event)
    requires Inv(m) && Enabled(m, e) && (e.Register? ==> !Pending(m, e.pid))
    ensures LeasesHeld(Step(m, e)) && NonePending(Step(m, e))
  {
    var m' := Step(m, e);
    forall q | Holding(m', q)
      ensures Lease(q) in m'.dir && !Pending(m', q)
    {
      if Holding(m, q) { HeldStaysHeld(m, e, q); }
    }
  }

  /** What one step does to a lease that is held and that nobody is about to remove. */
  lemma HeldStaysHeld(m: Machine, e: Event, q: int)
    requires RunsAreAlive(m) && Enabled(m, e)
    requires Holding(m, q) && Lease(q) in m.dir && !Pending(m, q) && Holding(Step(m, e), q)
    ensures Lease(q) in Step(m, e).dir && !Pending(Step(m, e), q)
  {
    if e.Reap? { assert m.runs[e.pid].stage != Condemning(Lease(q)); }
    var m' := Step(m, e);
    forall p | p in m'.runs
      ensures m'.runs[p].stage != Condemning(Lease(q))
    {
      if p in m.runs { assert m.runs[p].stage != Condemning(Lease(q)); }
    }
  }

  lemma OneWitness(m: Machine, e: Event, p: int, q: int)
    requires Inv(m) && Enabled(m, e) && p in Step(m, e).runs && HasRead(Step(m, e).runs[p].stage)
             && Holding(Step(m, e), q)
    ensures Witness(Step(m, e), p, q)
  {
    hide Distinct;
    assert p in m.runs && q in m.runs && OneRunInOrder(m, m.runs[p]);
    if !(e.Register? && e.pid == q) && !(e.ReadDir? && e.pid == p) {
      assert Holding(m, q) && HasRead(m.runs[p].stage) && Witness(m, p, q);
    }
  }

  lemma StepKeepsWitnesses(m: Machine, e: Event)
    requires Inv(m) && Enabled(m, e)
    ensures Witnessed(Step(m, e))
  {
    var m' := Step(m, e);
    forall p, q | p in m'.runs && HasRead(m'.runs[p].stage) && Holding(m', q)
      ensures Witness(m', p, q)
    {
      OneWitness(m, e, p, q);
    }
  }

  lemma {:induction false} ExecKeepsSound(m: Machine, events: seq<Event>)
    requires Sound(m)
    ensures Sound(Exec(m, events))
  {
    if events != [] {
      var before, e := Exec(m, events[..|events| - 1]), events[|events| - 1];
      ExecKeepsSound(m, events[..|events| - 1]);
      if Enabled(before, e) { StepKeepsSound(before, e); }
    }
  }

  lemma {:induction false} ExecKeepsInv(m: Machine, events: seq<Event>)
    requires Inv(m) && Clean(m, events)
    ensures Inv(Exec(m, events))
  {
    if events != [] {
      var before, e := Exec(m, events[..|events| - 1]), events[|events| - 1];
      ExecKeepsInv(m, events[..|events| - 1]);
      if Enabled(before, e) { StepKeepsInv(before, e); }
    }
  }

  lemma ReachableInv(m: Machine)
    requires Reachable(m)
    ensures Inv(m)
  {
    var events :| Exec(Empty, events) == m && Clean(Empty, events);
    ExecKeepsInv(Empty, events);
  }

  // ----- Main results -----

  /** No census ever removes the lease of a run that is still alive and has not released it. */
  lemma LiveLeaseIsNeverReaped(m: Machine, q: int)
    requires Reachable(m) && Holding(m, q)
    ensures Lease(q) in m.dir
    ensures forall e :: Enabled(m, e) && Holding(Step(m, e), q) ==> Lease(q) in Step(m, e).dir
    ensures forall p :: IsCondemning(m, p) ==> m.runs[p].stage.name != Lease(q)
  {
    ReachableInv(m);
    forall e | Enabled(m, e) && Holding(Step(m, e), q)
      ensures Lease(q) in Step(m, e).dir
    {
      HeldStaysHeld(m, e, q);
    }
  }

  /** From `m` on the run `q` holds its lease all the time, and yet the lease is removed. */
  ghost predicate Loses(m: Machine, events: seq<Event>, q: int) {
    && Lease(q) !in Exec(m, events).dir
    && forall k :: 0 <= k <= |events| ==> Holding(Exec(m, events[..k]), q)
  }

  lemma {:induction false} HeldForLong(m: Machine, events: seq<Event>, q: int)
    requires Sound(m) && Holding(m, q) && Lease(q) in m.dir && !Pending(m, q)
    requires forall k :: 0 <= k <= |events| ==> Holding(Exec(m, events[..k]), q)
    ensures Lease(q) in Exec(m, events).dir && !Pending(Exec(m, events), q)
  {
    if events != [] {
      var n := |events| - 1;
      var init := events[..n];
      forall k | 0 <= k <= n
        ensures Holding(Exec(m, init[..k]), q)
      {
        assert init[..k] == events[..k];
      }
      HeldForLong(m, init, q);
      ExecKeepsSound(m, init);
      assert events[..n] == init && events[..n + 1] == events;
      if Enabled(Exec(m, init), events[n]) { HeldStaysHeld(Exec(m, init), events[n], q); }
    }
  }

  /** However process ids are given out again: the lease that a run writes can be lost while the run lives exactly
      when a removal of that name is pending at that moment. */
  lemma LeaseIsSafeIff(events: seq<Event>, q: int)
    requires At(Exec(Empty, events), q, Started)
    ensures var m := Exec(Empty, events);
            (exists more :: Loses(Step(m, Register(q)), more, q)) <==> Pending(m, q)
  {
    var m := Exec(Empty, events);
    var m' := Step(m, Register(q));
    ExecKeepsSound(Empty, events);
    StepKeepsSound(m, Register(q));
    if Pending(m, q) {
      var p :| p in m.runs && m.runs[p].stage == Condemning(Lease(q));
      assert OneRunInOrder(m, m.runs[p]);
      var more := [Reap(p, true)];
      assert more[..0] == [] && more[..1] == more && Exec(m', []) == m';
      assert Loses(m', more, q);
    } else {
      forall more
        ensures !Loses(m', more, q)
      {
        if forall k :: 0 <= k <= |more| ==> Holding(Exec(m', more[..k]), q) {
          assert more[..0] == [] && Exec(m', more[..0]) == m';
          HeldForLong(m', more, q);
        }
      }
    }
  }

  /** Runs working under a budget, listed in the order in which they read the directory. */
  ghost predicate InReadOrder(m: Machine, runs: seq<int>) {
    && (forall i :: 0 <= i < |runs| ==> Bounded(m, runs[i]))
    && (forall i, j :: 0 <= i < j < |runs| ==> m.runs[runs[i]].readAt < m.runs[runs[j]].readAt)
  }

  lemma {:induction false} LastReader(m: Machine, runs: set<int>) returns (last: int)
    requires runs != {} && runs <= m.runs.Keys
    ensures last in runs && forall p :: p in runs ==> m.runs[p].readAt <= m.runs[last].readAt
  {
    last := SomeMember(runs);
    if runs != {last} {
      var other := LastReader(m, runs - {last});
      last := if m.runs[last].readAt < m.runs[other].readAt then other else last;
    }
  }

  /** In a reachable state any set of budgeted runs, hence all of them, has such a list. */
  lemma {:induction false} ReadOrderExists(m: Machine, runs: set<int>) returns (order: seq<int>)
    requires Reachable(m) && forall p :: p in runs ==> Bounded(m, p)
    ensures InReadOrder(m, order) && Elements(order) == runs
  {
    ReachableInv(m);
    order := [];
    if runs != {} {
      forall p | p in runs
        ensures p in m.runs.Keys
      {
        assert Bounded(m, p);
      }
      var last := LastReader(m, runs);
      var before := ReadOrderExists(m, runs - {last});
      order := before + [last];
      forall i | 0 <= i < |before|
        ensures m.runs[before[i]].readAt < m.runs[last].readAt
      {
        assert before[i] in Elements(before);
        assert OneRunInOrder(m, m.runs[last]) && OneRunInOrder(m, m.runs[before[i]]);
      }
      assert Elements(order) == Elements(before) + {last};
    }
  }

  function Counted(m: Machine, pid: int): nat
    requires pid in m.runs
  {
    LiveRuns(pid, m.runs[pid].live)
  }

  /** The k-th reader (from zero) counted at least k + 1 runs: itself and everyone who read before it. */
  lemma SawAtLeast(m: Machine, runs: seq<int>, k: nat)
    requires Reachable(m) && InReadOrder(m, runs) && k < |runs|
    ensures Counted(m, runs[k]) >= k + 1
  {
    ReachableInv(m);
    var p, earlier := runs[k], runs[..k + 1];
    forall i | 0 <= i < |earlier|
      ensures earlier[i] in m.runs[p].live
    {
      assert OneRunInOrder(m, m.runs[earlier[i]]) && OneRunInOrder(m, m.runs[p]);
      assert Holding(m, earlier[i]);
    }
    DistinctMembersFit(earlier, m.runs[p].live);
  }

  /** If every one of these runs registered before any of them read, each counted all of them. */
  lemma SawEveryone(m: Machine, runs: seq<int>, k: nat)
    requires Reachable(m) && InReadOrder(m, runs) && k < |runs|
    requires forall p, q :: p in runs && q in runs ==> m.runs[p].registeredAt < m.runs[q].readAt
    ensures Counted(m, runs[k]) >= |runs|
  {
    ReachableInv(m);
    var p := runs[k];
    forall q | q in runs
      ensures q in m.runs[p].live
    {
      assert OneRunInOrder(m, m.runs[p]);
      assert Holding(m, q);
    }
    DistinctMembersFit(runs, m.runs[p].live);
  }

  ghost function BudgetOf(cores: int, m: Machine, pid: int): Option<nat>
    requires pid in m.runs
  {
    WorkerBudget(cores, Counted(m, pid))
  }

  lemma AtMostOneUncapped(m: Machine, cores: int, p: int, q: int)
    requires Reachable(m) && 0 < cores && Bounded(m, p) && Bounded(m, q)
    requires BudgetOf(cores, m, p).None? && BudgetOf(cores, m, q).None?
    ensures p == q
  {
    ReachableInv(m);
    if p != q {
      SawAtLeast(m, if m.runs[p].readAt < m.runs[q].readAt then [p, q] else [q, p], 1);
    }
  }

  /** Workers granted to the runs that are capped, given how many runs each of them counted. */
  ghost function CountedBy(m: Machine, runs: seq<int>): (r: seq<nat>)
    requires forall p :: p in runs ==> p in m.runs
    ensures |r| == |runs| && forall k :: 0 <= k < |r| ==> r[k] == Counted(m, runs[k])
  {
    seq(|runs|, i requires 0 <= i < |runs| => Counted(m, runs[i]))
  }

  /** In every reachable state the capped runs hold at most the ladder of shares, plus the first reader's own budget
      when it is capped as well (it is not when it counted itself alone), which is at most a half share. */
  lemma CappedWorkersBounded(m: Machine, cores: int, runs: seq<int>)
    requires Reachable(m) && 0 < cores && InReadOrder(m, runs)
    ensures CappedTotal(cores, CountedBy(m, runs))
         <= Ladder(cores, |runs|)
            + if |runs| > 0 && BudgetOf(cores, m, runs[0]).Some? then BudgetOf(cores, m, runs[0]).value else 0
    ensures |runs| > 0 && BudgetOf(cores, m, runs[0]).Some? ==> BudgetOf(cores, m, runs[0]).value <= Share(cores, 2)
    ensures forall k :: 1 <= k < |runs| ==>
              BudgetOf(cores, m, runs[k]).Some? && BudgetOf(cores, m, runs[k]).value <= Share(cores, k + 1)
  {
    forall k | 0 <= k < |runs|
      ensures CountedBy(m, runs)[k] >= k + 1
      ensures 1 <= k ==> BudgetOf(cores, m, runs[k]).Some?
                         && BudgetOf(cores, m, runs[k]).value <= Share(cores, k + 1)
    {
      SawAtLeast(m, runs, k);
      ShareShrinks(cores, k + 1, Counted(m, runs[k]));
    }
    if |runs| > 0 && BudgetOf(cores, m, runs[0]).Some? { ShareShrinks(cores, 2, Counted(m, runs[0])); }
    LadderBoundsTotal(cores, CountedBy(m, runs));
  }

  /** Runs that all registered before any of them counted share the cores without oversubscribing:
      nobody is uncapped, and the workers total at most the cores, or one each. */
  lemma SimultaneousRunsFit(m: Machine, cores: int, runs: seq<int>)
    requires Reachable(m) && 0 < cores && InReadOrder(m, runs) && 2 <= |runs|
    requires forall p, q :: p in runs && q in runs ==> m.runs[p].registeredAt < m.runs[q].readAt
    ensures forall p :: p in runs ==> BudgetOf(cores, m, p).Some?
    ensures CappedTotal(cores, CountedBy(m, runs)) <= if cores < |runs| then |runs| else cores
  {
    forall k | 0 <= k < |runs|
      ensures CountedBy(m, runs)[k] >= |runs|
    {
      SawEveryone(m, runs, k);
    }
    EqualSharesFit(cores, CountedBy(m, runs), |runs|);
    SharesFitCores(cores, |runs|);
  }
}
