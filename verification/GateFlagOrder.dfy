/** When the order of the cross-gate flags depends on the order in which the reports were received. */
module GateFlagOrder {
  import opened Prelude
  import opened GateSchema
  import opened Sorting
  import opened Precedence
  import opened GateReduce
  import opened GateReduceLaws

  predicate Cites(r: Report, ref: string) { ref in RefsIn(r) }

  /** Two different flagged references that the collation does not tell apart. */
  ghost predicate TiedRefs(kept: seq<Report>, collate: string -> real, x: string, y: string) {
    x != y && collate(x) == collate(y) && |Citing(kept, x)| >= 2 && |Citing(kept, y)| >= 2
  }

  /** Every report that cites either of them cites `x` first. */
  ghost predicate LedBy(kept: seq<Report>, x: string, y: string) {
    forall r :: r in kept && (Cites(r, x) || Cites(r, y)) ==> Before(RefsIn(r), x, y)
  }

  /** Flagged references that tie are cited in the same order by all reports. */
  ghost predicate LedAlike(kept: seq<Report>, collate: string -> real) {
    forall x, y :: TiedRefs(kept, collate, x, y) ==> LedBy(kept, x, y) || LedBy(kept, y, x)
  }

  // ----- From reports to flags -----

  lemma {:induction false} DedupKeepsOrder(s: seq<string>, x: string, y: string)
    requires x != y
    ensures Before(Dedup(s), x, y) <==> Before(s, x, y)
  {
    if s != [] {
      var init, last := s[..|s| - 1], s[|s| - 1];
      DedupKeepsOrder(init, x, y);
      DedupIsDistinct(init);
      BeforeConcat(Dedup(init), [last], x, y);
      BeforeOne(last, x, y);
      OneIsFirst(init, x, y);
      BeforeOccurs(init, y, x);
    }
  }

  function FlagOf(kept: seq<Report>, ref: string): Flag { Flag(ref, InOrder(Citing(kept, ref))) }

  /** Flags stand in the order in which their references first occur. */
  lemma FlagsKeepOrder(kept: seq<Report>, x: string, y: string)
    requires x != y && |Citing(kept, x)| >= 2 && |Citing(kept, y)| >= 2
    ensures Before(Flagged(kept), FlagOf(kept, x), FlagOf(kept, y)) <==> Before(Collect(kept, RefsIn), x, y)
  {
    hide Citing, Dedup, Collect, Before, InOrder, RefsIn;
    var refs := Collect(kept, RefsIn);
    CollectKeepsOrder(Dedup(refs), FlagFor(kept), x, y, FlagOf(kept, x), FlagOf(kept, y));
    DedupKeepsOrder(refs, x, y);
  }

  lemma {:induction false} FlagsFrom(kept: seq<Report>, refs: seq<string>, flag: Flag)
    requires Distinct(refs)
    ensures flag in Collect(refs, FlagFor(kept)) ==>
              flag.ref in refs && |Citing(kept, flag.ref)| >= 2 && flag == FlagOf(kept, flag.ref)
    ensures Distinct(Collect(refs, FlagFor(kept)))
  {
    if refs != [] {
      var init, last := refs[..|refs| - 1], refs[|refs| - 1];
      DistinctTail(refs);
      FlagsFrom(kept, init, flag);
      FlagsFrom(kept, init, FlagOf(kept, last));
    }
  }

  lemma FlaggedIs(kept: seq<Report>, flag: Flag)
    ensures Distinct(Flagged(kept))
    ensures flag in Flagged(kept) ==> |Citing(kept, flag.ref)| >= 2 && flag == FlagOf(kept, flag.ref)
  {
    DedupIsDistinct(Collect(kept, RefsIn));
    FlagsFrom(kept, Dedup(Collect(kept, RefsIn)), flag);
  }

  /** Whichever reference leads in every citing report comes first, however the reports are arranged. */
  lemma {:induction false} LeaderIsFirst(kept: seq<Report>, x: string, y: string)
    requires x != y && LedBy(kept, x, y)
    ensures Before(Collect(kept, RefsIn), x, y) || (x !in Collect(kept, RefsIn) && y !in Collect(kept, RefsIn))
  {
    if kept != [] {
      var init, r := kept[..|kept| - 1], kept[|kept| - 1];
      assert kept == init + [r];
      LeaderIsFirst(init, x, y);
      BeforeConcat(Collect(init, RefsIn), RefsIn(r), x, y);
    }
  }

  lemma FlaggedOccurs(kept: seq<Report>, ref: string)
    requires Citing(kept, ref) != {}
    ensures ref in Collect(kept, RefsIn)
  {
    var g :| g in Citing(kept, ref);
    var r :| r in kept && ref in RefsIn(r) && GateOf(r) == g;
    var i :| 0 <= i < |kept| && kept[i] == r;
    CollectMember(kept, RefsIn, ref);
    assert ref in RefsIn(kept[i]);
  }

  /** The report received first settles the order. */
  lemma FirstSettles(first: Report, rest: seq<Report>, x: string, y: string)
    requires x != y && Before(RefsIn(first), x, y)
    ensures Before(Collect([first] + rest, RefsIn), x, y)
  {
    CollectConcat([first], rest, RefsIn);
    CollectOne(first, RefsIn);
    BeforeConcat(RefsIn(first), Collect(rest, RefsIn), x, y);
  }

  // ----- Alike led, alike sorted -----

  lemma SameCiting(a: seq<Report>, b: seq<Report>, ref: string)
    requires multiset(a) == multiset(b)
    ensures Citing(a, ref) == Citing(b, ref) && FlagOf(a, ref) == FlagOf(b, ref)
  {
    SameMembers(a, b);
    CitingIsASet(a, b, ref);
  }

  lemma SameLeader(a: seq<Report>, b: seq<Report>, x: string, y: string)
    requires multiset(a) == multiset(b)
    ensures LedBy(a, x, y) <==> LedBy(b, x, y)
  {
    SameMembers(a, b);
    assert forall r :: r in a <==> r in Elements(a);
    assert forall r :: r in b <==> r in Elements(b);
  }

  lemma LedSameWay(a: seq<Report>, b: seq<Report>, x: string, y: string)
    requires multiset(a) == multiset(b) && x != y && LedBy(a, x, y)
    requires |Citing(a, x)| >= 2 && |Citing(a, y)| >= 2
    ensures Before(Flagged(a), FlagOf(a, x), FlagOf(a, y)) && Before(Flagged(b), FlagOf(a, x), FlagOf(a, y))
  {
    SameCiting(a, b, x);
    SameCiting(a, b, y);
    SameLeader(a, b, x, y);
    FlaggedOccurs(a, x);
    FlaggedOccurs(b, x);
    LeaderIsFirst(a, x, y);
    LeaderIsFirst(b, x, y);
    FlagsKeepOrder(a, x, y);
    FlagsKeepOrder(b, x, y);
  }

  lemma LedAlikeSortAlike(a: seq<Report>, b: seq<Report>, collate: string -> real)
    requires multiset(a) == multiset(b) && LedAlike(a, collate)
    ensures Sort(Flagged(a), ByRef(collate)) == Sort(Flagged(b), ByRef(collate))
  {
    var leq, fs, gs := ByRef(collate), Flagged(a), Flagged(b);
    FlagsPermute(a, b);
    forall f, g | f in fs && g in fs && f != g && leq(f, g) && leq(g, f)
      ensures Before(fs, f, g) <==> Before(gs, f, g)
    {
      FlaggedIs(a, f);
      FlaggedIs(a, g);
      assert TiedRefs(a, collate, f.ref, g.ref);
      OneIsFirst(fs, f, g);
      OneIsFirst(gs, f, g);
      if LedBy(a, f.ref, g.ref) { LedSameWay(a, b, f.ref, g.ref); } else { LedSameWay(a, b, g.ref, f.ref); }
    }
    if fs != [] { FlaggedIs(a, fs[0]); FlaggedIs(b, fs[0]); }
    SameMembers(fs, gs);
    if fs == [] { assert gs == []; }
    SortAlikeIfOrdered(fs, gs, leq);
  }

  // ----- Unlike led, unlike sorted -----

  function Fronted(reports: seq<Report>, i: nat): seq<Report>
    requires i < |reports|
  {
    [reports[i]] + (reports[..i] + reports[i + 1..])
  }

  lemma FrontedPermutes(reports: seq<Report>, i: nat)
    requires i < |reports|
    ensures multiset(Fronted(reports, i)) == multiset(reports)
  {
    CutOut(reports, i);
  }

  /** A counted report that is received first is counted first. */
  lemma FrontedIsKeptFirst(reports: seq<Report>, expected: seq<GateName>, first: Report, rest: seq<Report>)
    requires reports == [first] + rest && first in Kept(reports, expected)
    ensures exists more :: Kept(reports, expected) == [first] + more
  {
    KeptMember(reports, expected, first);
    var f, h := Admitted(reports), Expected(expected);
    CollectConcat([first], rest, f);
    CollectOne(first, f);
    CollectConcat([first], Collect(rest, f), h);
    CollectOne(first, h);
    assert Kept(reports, expected) == [first] + Collect(Collect(rest, f), h);
  }

  /** Some permutation of the reports puts `r` first among those that count. */
  lemma PutFirst(reports: seq<Report>, expected: seq<GateName>, r: Report) returns (b: seq<Report>, more: seq<Report>)
    requires r in Kept(reports, expected)
    ensures multiset(b) == multiset(reports) && Kept(b, expected) == [r] + more
  {
    KeptMember(reports, expected, r);
    var i :| 0 <= i < |reports| && reports[i] == r;
    b := Fronted(reports, i);
    FrontedPermutes(reports, i);
    SameRejections(reports, b, r);
    KeptMember(b, expected, r);
    FrontedIsKeptFirst(b, expected, r, reports[..i] + reports[i + 1..]);
    more :| Kept(b, expected) == [r] + more;
  }

  lemma CollationIsTotal(collate: string -> real)
    ensures TotalPreorder(ByRef(collate))
  {
  }

  /** A report that cites `x` before `y`, received first, and another that does not, received first: two orders. */
  lemma TwoOrders(a: seq<Report>, b: seq<Report>, collate: string -> real, x: string, y: string)
    requires multiset(a) == multiset(b) && TiedRefs(a, collate, x, y)
    requires Before(Collect(a, RefsIn), x, y) && Before(Collect(b, RefsIn), y, x)
    ensures Sort(Flagged(a), ByRef(collate)) != Sort(Flagged(b), ByRef(collate))
  {
    SameCiting(a, b, x);
    SameCiting(a, b, y);
    FlagsPermute(a, b);
    FlagsKeepOrder(a, x, y);
    FlagsKeepOrder(b, y, x);
    CollationIsTotal(collate);
    SortUnlike(Flagged(a), Flagged(b), ByRef(collate), FlagOf(a, x), FlagOf(a, y));
  }

  /** A report that cites one of two references without `x` in the lead has `y` in the lead. */
  lemma OtherLeads(kept: seq<Report>, x: string, y: string) returns (r: Report)
    requires x != y && !LedBy(kept, x, y)
    ensures r in kept && Before(RefsIn(r), y, x)
  {
    r :| r in kept && (Cites(r, x) || Cites(r, y)) && !Before(RefsIn(r), x, y);
    OneIsFirst(RefsIn(r), x, y);
  }

  lemma UnlikeLedDiffers(reports: seq<Report>, expected: seq<GateName>, collate: string -> real)
      returns (b: seq<Report>, c: seq<Report>)
    requires !LedAlike(Kept(reports, expected), collate)
    ensures multiset(b) == multiset(reports) == multiset(c)
    ensures Sort(Flagged(Kept(b, expected)), ByRef(collate)) != Sort(Flagged(Kept(c, expected)), ByRef(collate))
  {
    var kept := Kept(reports, expected);
    var x, y :| TiedRefs(kept, collate, x, y) && !LedBy(kept, x, y) && !LedBy(kept, y, x);
    var r := OtherLeads(kept, y, x);
    var r' := OtherLeads(kept, x, y);
    var more, more';
    b, more := PutFirst(reports, expected, r);
    c, more' := PutFirst(reports, expected, r');
    FirstSettles(r, more, x, y);
    FirstSettles(r', more', y, x);
    KeptPermutes(reports, b, expected);
    KeptPermutes(reports, c, expected);
    SameCiting(kept, Kept(b, expected), x);
    SameCiting(kept, Kept(b, expected), y);
    TwoOrders(Kept(b, expected), Kept(c, expected), collate, x, y);
  }

  // ----- Main result -----

  /** The flags come out in the same order for every permutation of the reports exactly when any two flagged
      references that the collation does not tell apart are cited in the same order by every counted report. */
  lemma FlagOrderIff(reports: seq<Report>, expected: seq<GateName>, collate: string -> real)
    ensures (forall b :: multiset(b) == multiset(reports) ==>
               Sort(Flagged(Kept(b, expected)), ByRef(collate))
                 == Sort(Flagged(Kept(reports, expected)), ByRef(collate)))
       <==> LedAlike(Kept(reports, expected), collate)
  {
    if LedAlike(Kept(reports, expected), collate) {
      forall b | multiset(b) == multiset(reports)
        ensures Sort(Flagged(Kept(b, expected)), ByRef(collate))
             == Sort(Flagged(Kept(reports, expected)), ByRef(collate))
      {
        KeptPermutes(reports, b, expected);
        LedAlikeSortAlike(Kept(reports, expected), Kept(b, expected), collate);
      }
    } else {
      var b, c := UnlikeLedDiffers(reports, expected, collate);
    }
  }

  /** The whole report: every permutation of the reports gives it up to the order of its lists, and with the very same
      flags exactly when flagged references that tie are led alike. */
  lemma ReportOrderIff(round: int, expected: seq<GateName>, reports: seq<Report>, ciRun: Option<CiRun>,
                       headSha: Option<string>, collate: string -> real)
    requires Reduced(round, expected, reports, ciRun, headSha, collate).Ok?
    ensures forall b :: multiset(b) == multiset(reports) ==>
              var x, y := Reduced(round, expected, reports, ciRun, headSha, collate),
                          Reduced(round, expected, b, ciRun, headSha, collate);
              y.Ok? && SameUpToOrder(x.value, y.value)
    ensures (forall b :: multiset(b) == multiset(reports) ==>
               var x, y := Reduced(round, expected, reports, ciRun, headSha, collate),
                           Reduced(round, expected, b, ciRun, headSha, collate);
               y.Ok? && y.value.crossGateFlags == x.value.crossGateFlags)
       <==> LedAlike(Kept(reports, expected), collate)
  {
    hide Reduced, Kept, Flagged, Sort, LedAlike, SameUpToOrder;
    forall b | multiset(b) == multiset(reports)
      ensures var x, y := Reduced(round, expected, reports, ciRun, headSha, collate),
                          Reduced(round, expected, b, ciRun, headSha, collate);
              y.Ok? && SameUpToOrder(x.value, y.value)
              && y.value.crossGateFlags == Sort(Flagged(Kept(b, expected)), ByRef(collate))
    {
      PermutationInvariant(round, expected, reports, b, ciRun, headSha, collate);
      FlagsAre(round, expected, b, ciRun, headSha, collate);
    }
    FlagsAre(round, expected, reports, ciRun, headSha, collate);
    FlagOrderIff(reports, expected, collate);
  }

  lemma FlagsAre(round: int, expected: seq<GateName>, reports: seq<Report>, ciRun: Option<CiRun>,
                 headSha: Option<string>, collate: string -> real)
    ensures var r := Reduced(round, expected, reports, ciRun, headSha, collate);
            r.Ok? ==> r.value.crossGateFlags == Sort(Flagged(Kept(reports, expected)), ByRef(collate))
  {
  }

  /** A passing report of an opinion gate with two low findings. */
  function TwoFindings(g: OpinionGate, first: string, second: string): Report {
    Report(Opinion(g), Pass, Integer(5), NoReason, Some([Finding(Low, first, ""), Finding(Low, second, "")]), None)
  }

  lemma RefsOfTwo(g: OpinionGate, first: string, second: string)
    requires first != "" && second != ""
    ensures RefsIn(TwoFindings(g, first, second)) == [first, second]
  {
    var a, b := Finding(Low, first, ""), Finding(Low, second, "");
    CollectConcat([a], [b], RefEntry);
    CollectOne(a, RefEntry);
    CollectOne(b, RefEntry);
    assert [a, b] == [a] + [b];
  }

  lemma TwoAreSound(x: string, y: string)
    ensures Sound([Opinion(Security), Opinion(Tester)], [TwoFindings(Security, x, y), TwoFindings(Tester, y, x)])
  {
  }

  lemma BothCite(kept: seq<Report>, ref: string)
    requires |kept| == 2 && GateOf(kept[0]) != GateOf(kept[1]) && Cites(kept[0], ref) && Cites(kept[1], ref)
    ensures |Citing(kept, ref)| == 2
  {
    assert kept[0] in kept && kept[1] in kept;
    assert Citing(kept, ref) == {GateOf(kept[0]), GateOf(kept[1])};
  }

  /** The smallest case in which it does: two references that tie, two reports that cite them in opposite order. */
  lemma TiesCanShow(x: string, y: string, collate: string -> real)
    requires x != y && x != "" && y != "" && collate(x) == collate(y)
    ensures var reports, expected := [TwoFindings(Security, x, y), TwoFindings(Tester, y, x)],
                                     [Opinion(Security), Opinion(Tester)];
            Sound(expected, reports)
            && exists b :: multiset(b) == multiset(reports)
                 && Sort(Flagged(Kept(b, expected)), ByRef(collate))
                    != Sort(Flagged(Kept(reports, expected)), ByRef(collate))
  {
    hide Sound, Kept, Flagged, Sort, Citing, RefsIn;
    var reports, expected := [TwoFindings(Security, x, y), TwoFindings(Tester, y, x)],
                             [Opinion(Security), Opinion(Tester)];
    TwoAreSound(x, y);
    SoundReportsAllCount(expected, reports);
    RefsOfTwo(Security, x, y);
    RefsOfTwo(Tester, y, x);
    BothCite(reports, x);
    BothCite(reports, y);
    NotLedAlike(reports, collate, x, y);
    FlagOrderIff(reports, expected, collate);
  }

  lemma NotLedAlike(kept: seq<Report>, collate: string -> real, x: string, y: string)
    requires |kept| == 2 && RefsIn(kept[0]) == [x, y] && RefsIn(kept[1]) == [y, x] && TiedRefs(kept, collate, x, y)
    ensures !LedAlike(kept, collate)
  {
    assert kept[0] in kept && kept[1] in kept;
    assert [x, y][..1] == [x] && [y, x][..1] == [y];
    BeforeOne(x, x, y);
    BeforeOne(y, y, x);
    OneIsFirst([x, y], x, y);
    OneIsFirst([y, x], x, y);
  }
}
