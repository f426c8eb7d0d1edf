/** The lease directory as one process sees it: the names it reads, whom they stand for, and what it removes. */
module LeaseFiles {
  import opened Prelude
  import opened WorkerShares

  /** A name in the lease directory: the file a run writes for itself, another `.lease` file together
      with the number its name parses to (zero or less also stands for "not a number"), or a file
      without the suffix. */
  datatype Name = Lease(pid: int) | Stray(tag: nat, number: int) | Unrelated(tag: nat)

  function PidOf(name: Name): int {
    match name
    case Lease(pid) => pid
    case Stray(_, number) => number
    case Unrelated(_) => 0
  }

  predicate Counts(name: Name, alive: set<int>) {
    !name.Unrelated? && PidOf(name) > 0 && PidOf(name) in alive
  }

  predicate Condemned(name: Name, alive: set<int>) {
    !name.Unrelated? && !Counts(name, alive)
  }

  function LiveRuns(pid: int, live: seq<int>): nat {
    if pid in live then |live| else |live| + 1
  }

  function LivePids(listing: seq<Name>, alive: set<int>): seq<int> {
    if listing == [] then []
    else (if Counts(listing[0], alive) then [PidOf(listing[0])] else []) + LivePids(listing[1..], alive)
  }

  /** The first name of a listing and the others. */
  lemma FirstAndRest(listing: seq<Name>, alive: set<int>)
    requires listing != []
    ensures LivePids(listing, alive) == LivePids([listing[0]], alive) + LivePids(listing[1..], alive)
    ensures (set n | n in listing && Condemned(n, alive))
         == (if Condemned(listing[0], alive) then {listing[0]} else {})
            + (set n | n in listing[1..] && Condemned(n, alive))
  {
    assert [listing[0]][1..] == [];
    assert listing == [listing[0]] + listing[1..];
  }

  lemma OneName(name: Name, alive: set<int>)
    ensures LivePids([name], alive) == if Counts(name, alive) then [PidOf(name)] else []
    ensures Condemned(name, alive) <==> !name.Unrelated? && !Counts(name, alive)
  {
    assert [name][1..] == [];
  }

  lemma NobodyLive(alive: set<int>)
    ensures LivePids([], alive) == []
  {
  }

  function NamesRead(read: Option<seq<Name>>): seq<Name> {
    match read case None => [] case Some(listing) => listing
  }

  /** The shared directory, as one process sees it while nobody else runs. */
  class LeaseDirectory {
    var names: set<Name>

    constructor ()
      ensures names == {}
    {
      names := {};
    }

    /** `read` is the directory's names in the order in which it was read, or None when it cannot be read;
        `alive` is what signal 0 answers. */
    method CountLiveLeases(read: Option<seq<Name>>, alive: set<int>) returns (live: seq<int>)
      modifies this
      ensures live == LivePids(NamesRead(read), alive)
      ensures names == old(names) - (set n | n in NamesRead(read) && Condemned(n, alive))
    {
      hide LivePids, Condemned;
      NobodyLive(alive);
      live := [];
      if read.None? { return; }
      var listing := read.value;
      var i := 0;
      assert listing[0..] == listing;
      while i < |listing|
        invariant 0 <= i <= |listing|
        invariant LivePids(listing, alive) == live + LivePids(listing[i..], alive)
        invariant names == old(names) - (set n | n in listing[..i] && Condemned(n, alive))
      {
        var name := listing[i];
        assert listing[..i + 1] == listing[..i] + [name];
        assert listing[i..][1..] == listing[i + 1..] && listing[i..][0] == name;
        FirstAndRest(listing[i..], alive);
        OneName(name, alive);
        i := i + 1;
        if name.Unrelated? { continue; }
        var pid := PidOf(name);
        if pid <= 0 {
          names := names - {name};
          continue;
        }
        if pid in alive {
          live := live + [pid];
        } else {
          names := names - {name};
        }
      }
      assert listing[..i] == listing && listing[i..] == [];
    }

    /** Registers before it counts, and counts itself even when the census missed it.  `switchedOff` is the
        environment variable that turns the bound off; without `usable` the directory or the lease cannot be
        written, which costs the bound and never the run. */
    method Claim(cores: int, pid: int, read: Option<seq<Name>>, alive: set<int>, switchedOff: bool, usable: bool)
      returns (budget: Option<nat>, liveRuns: nat)
      requires read.Some? ==> Enumerates(read.value, names + {Lease(pid)})
      modifies this
      ensures switchedOff || !usable ==> budget == None && liveRuns == 1 && names == old(names)
      ensures !switchedOff && usable && read.None? ==>
                budget == None && liveRuns == 1 && names == old(names) + {Lease(pid)}
      ensures !switchedOff && usable && read.Some? ==>
                && liveRuns == |LivePids(read.value, alive)| + (if pid in LivePids(read.value, alive) then 0 else 1)
                && budget == WorkerBudget(cores, liveRuns)
                && names == (set n | n in old(names) + {Lease(pid)} && !Condemned(n, alive))
                && (0 < pid && pid in alive ==> Lease(pid) in names && liveRuns == |LivePids(read.value, alive)|)
    {
      if switchedOff || !usable { return None, 1; }
      names := names + {Lease(pid)};
      var live := CountLiveLeases(read, alive);
      if read.Some? && 0 < pid && pid in alive { OwnLeaseIsCounted(read.value, alive, pid); }
      liveRuns := if pid in live then |live| else |live| + 1;
      budget := WorkerBudget(cores, liveRuns);
    }

    /** Giving the lease back; a file that cannot be removed is left to the census of another run. */
    method Release(pid: int, removable: bool)
      modifies this
      ensures names == if removable then old(names) - {Lease(pid)} else old(names)
    {
      if removable { names := names - {Lease(pid)}; }
    }
  }

  ghost predicate Enumerates(listing: seq<Name>, names: set<Name>) {
    Distinct(listing) && forall n :: n in listing <==> n in names
  }

  lemma {:induction false} OwnLeaseIsCounted(listing: seq<Name>, alive: set<int>, pid: int)
    requires Lease(pid) in listing && 0 < pid && pid in alive
    ensures pid in LivePids(listing, alive)
  {
    if listing[0] != Lease(pid) {
      OwnLeaseIsCounted(listing[1..], alive, pid);
    }
  }

  /** Whether the name stands for this process. */
  predicate StandsFor(name: Name, pid: int) {
    match name
    case Lease(p) => p == pid
    case Stray(_, number) => number == pid
    case Unrelated(_) => false
  }

  function NamesOf(listing: seq<Name>, pid: int): nat {
    if listing == [] then 0
    else NamesOf(listing[..|listing| - 1], pid) + if StandsFor(listing[|listing| - 1], pid) then 1 else 0
  }

  lemma {:induction false} OneMoreName(listing: seq<Name>, name: Name, alive: set<int>)
    ensures LivePids(listing + [name], alive) == LivePids(listing, alive) + LivePids([name], alive)
  {
    if listing == [] {
      assert [] + [name] == [name];
    } else {
      ConcatFirst(listing, [name]);
      OneMoreName(listing[1..], name, alive);
      FirstAndRest(listing, alive);
      FirstAndRest(listing + [name], alive);
      hide LivePids;
    }
  }

  /** The census counts a process as often as names stand for it, when it is alive and its id is positive. */
  lemma {:induction false} CensusIff(listing: seq<Name>, alive: set<int>, pid: int)
    ensures multiset(LivePids(listing, alive))[pid] == if 0 < pid && pid in alive then NamesOf(listing, pid) else 0
  {
    if listing == [] {
      NobodyLive(alive);
    } else {
      hide LivePids;
      var init, last := listing[..|listing| - 1], listing[|listing| - 1];
      CensusIff(init, alive, pid);
      assert listing == init + [last];
      assert NamesOf(listing, pid) == NamesOf(init, pid) + if StandsFor(last, pid) then 1 else 0;
      OneCounted(init, last, alive, pid);
    }
  }

  lemma OneCounted(init: seq<Name>, last: Name, alive: set<int>, pid: int)
    ensures multiset(LivePids(init + [last], alive))[pid]
         == multiset(LivePids(init, alive))[pid]
            + if 0 < pid && pid in alive && StandsFor(last, pid) then 1 else 0
  {
    hide LivePids;
    OneMoreName(init, last, alive);
    OneName(last, alive);
    if Counts(last, alive) {
      OneMoreCopy(LivePids(init, alive), PidOf(last), pid);
    } else {
      assert LivePids(init, alive) + [] == LivePids(init, alive);
    }
  }

  /** It removes exactly the leases that stand for no live process; other files are left alone. */
  lemma CondemnedIff(name: Name, alive: set<int>)
    ensures Condemned(name, alive) <==>
              match name
              case Lease(p) => p <= 0 || p !in alive
              case Stray(_, number) => number <= 0 || number !in alive
              case Unrelated(_) => false
  {
  }
}
