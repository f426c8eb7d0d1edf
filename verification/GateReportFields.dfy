/** What each field of a reduced report says, in terms of the reports and their findings alone. */
module GateReportFields {
  import opened Prelude
  import opened Text
  import opened GateSchema
  import opened Sorting
  import opened GateReduce
  import opened GateReduceLaws
  import opened GateFlagOrder

  /** Two reports name the gate. */
  ghost predicate Twice(reports: seq<Report>, g: GateName) {
    exists i, j :: 0 <= i < j < |reports| && GateOf(reports[i]) == GateOf(reports[j]) == g
  }

  lemma TwiceIff(reports: seq<Report>, g: GateName)
    ensures Twice(reports, g) <==> Occurrences(reports, g) > 1
  {
    if Twice(reports, g) {
      var i, j :| 0 <= i < j < |reports| && GateOf(reports[i]) == GateOf(reports[j]) == g;
      OccursTwice(reports, i, j);
    } else {
      OccursOnce(reports, g);
    }
  }

  /** A report counts exactly when it is well formed, the only one of its gate, and expected if it is an opinion. */
  lemma CountedIff(reports: seq<Report>, expected: seq<GateName>, r: Report)
    ensures r in Kept(reports, expected)
       <==> r in reports && WellFormed(r) && (r.gate.Opinion? ==> r.gate in expected) && !Twice(reports, GateOf(r))
  {
    hide Kept, Occurrences, WellFormed, Validate;
    KeptMember(reports, expected, r);
    TwiceIff(reports, GateOf(r));
    ValidIffWellFormed(r);
    WellFormedIsReport(r);
  }

  lemma WellFormedIsReport(r: Report)
    ensures WellFormed(r) ==> r.Report?
  {
  }

  lemma CountedAreReports(reports: seq<Report>, expected: seq<GateName>)
    ensures forall r :: r in Kept(reports, expected) ==> r.Report? && !r.gate.Unknown? && r.findings.Some?
  {
    hide Kept;
    forall r | r in Kept(reports, expected)
      ensures r.Report? && !r.gate.Unknown? && r.findings.Some?
    {
      CountedIff(reports, expected, r);
    }
  }

  /** The report filed under a gate is the one counted report of that gate. */
  lemma FiledIff(reports: seq<Report>, expected: seq<GateName>, g: GateName, r: Report)
    ensures Lookup(Kept(reports, expected), g) == Some(r) <==> r in Kept(reports, expected) && GateOf(r) == g
  {
    hide Kept;
    AdmittedOnePerGate(reports, expected);
    LookupHolds(Kept(reports, expected), g);
    if r in Kept(reports, expected) && GateOf(r) == g {
      assert Occurrences(Kept(reports, expected), g) <= 1;
      LookupFound(Kept(reports, expected), g, r);
    }
  }

  lemma FieldsAre(round: int, expected: seq<GateName>, reports: seq<Report>, ciRun: Option<CiRun>,
                  headSha: Option<string>, collate: string -> real)
    ensures var x, kept := Reduced(round, expected, reports, ciRun, headSha, collate), Kept(reports, expected);
            x.Ok? ==>
              && x.value.round == round && x.value.verifierPass == VerifierPass(kept, ciRun, headSha)
              && x.value.gateScores == ScoresIn(kept) && x.value.blockingFindings == Collect(kept, BlockingIn)
              && x.value.crossGateFlags == Sort(Flagged(kept), ByRef(collate))
              && x.value.malformed == AllMalformed(reports, expected)
              && x.value.selfDeclaredNa == Collect(expected, SelfNaOf(kept))
  {
    hide Kept, AllMalformed, VerifierPass, ScoresIn, Collect, Sort, Flagged, Scored, DecisionOf, Mean, Lowest;
  }

  /** The verifier's verdict: no counted FAIL of the verifier, and a counted PASS or a green run on the head. */
  lemma PassIff(round: int, expected: seq<GateName>, reports: seq<Report>, ciRun: Option<CiRun>,
                headSha: Option<string>, collate: string -> real)
    ensures var x, kept := Reduced(round, expected, reports, ciRun, headSha, collate), Kept(reports, expected);
            x.Ok? ==>
              x.value.round == round
              && (x.value.verifierPass <==>
                    && (forall r :: r in kept && r.Report? && r.gate == Verifier ==> r.verdict != Fail)
                    && (|| GreenOnHead(ciRun, headSha)
                        || exists r :: r in kept && r.Report? && r.gate == Verifier && r.verdict == Pass))
  {
    FieldsAre(round, expected, reports, ciRun, headSha, collate);
    hide Reduced, Kept;
    forall r
      ensures Lookup(Kept(reports, expected), Verifier) == Some(r) <==>
                r in Kept(reports, expected) && GateOf(r) == Verifier
    {
      FiledIff(reports, expected, Verifier, r);
    }
  }

  lemma ListedScore(kept: seq<Report>, g: OpinionGate)
    ensures g in ScoresIn(kept) && ScoresIn(kept)[g] == ScoreOf(Lookup(kept, Opinion(g)))
  {
    assert OPINION_GATES[Rank(g)] == g;
  }

  /** Each gate's score is the one its counted report gives with a PASS or a FAIL. */
  lemma GateScoreIff(round: int, expected: seq<GateName>, reports: seq<Report>, ciRun: Option<CiRun>,
                     headSha: Option<string>, collate: string -> real, g: OpinionGate, n: int)
    ensures var x, kept := Reduced(round, expected, reports, ciRun, headSha, collate), Kept(reports, expected);
            x.Ok? ==>
              g in x.value.gateScores
              && (x.value.gateScores[g] == Some(n) <==>
                    exists r :: r in kept && r.Report? && r.gate == Opinion(g)
                                && (r.verdict == Pass || r.verdict == Fail) && r.score == Integer(n))
  {
    FieldsAre(round, expected, reports, ciRun, headSha, collate);
    ListedScore(Kept(reports, expected), g);
    hide Reduced, Kept, ScoresIn, Lookup;
    forall r
      ensures Lookup(Kept(reports, expected), Opinion(g)) == Some(r) <==>
                r in Kept(reports, expected) && GateOf(r) == Opinion(g)
    {
      FiledIff(reports, expected, Opinion(g), r);
    }
  }

  /** The blocking findings are those of the counted reports, each under its gate. */
  lemma BlockingIff(round: int, expected: seq<GateName>, reports: seq<Report>, ciRun: Option<CiRun>,
                    headSha: Option<string>, collate: string -> real, f: Finding, g: GateName)
    ensures var x, kept := Reduced(round, expected, reports, ciRun, headSha, collate), Kept(reports, expected);
            x.Ok? ==>
              (GateFinding(f, g) in x.value.blockingFindings <==>
                 && f.Finding? && f.severity == Blocking
                 && exists r :: r in kept && r.Report? && r.gate == g && r.findings.Some? && f in r.findings.value)
  {
    FieldsAre(round, expected, reports, ciRun, headSha, collate);
    hide Reduced, Kept;
    var kept := Kept(reports, expected);
    CollectMember(kept, BlockingIn, GateFinding(f, g));
    CountedAreReports(reports, expected);
    forall r
      ensures GateFinding(f, g) in BlockingIn(r) <==>
                GateOf(r) == g && f.Finding? && f.severity == Blocking && f in FindingsOf(r)
    {
      OneBlocking(r, f, g);
    }
    hide BlockingIn;
  }

  lemma OneBlocking(r: Report, f: Finding, g: GateName)
    ensures GateFinding(f, g) in BlockingIn(r) <==>
              GateOf(r) == g && f.Finding? && f.severity == Blocking && f in FindingsOf(r)
  {
    CollectMember(FindingsOf(r), BlockingEntry(GateOf(r)), GateFinding(f, g));
  }

  /** The self-declared exemptions are those of counted reports of expected gates, with the reason given. */
  lemma SelfNaIff(round: int, expected: seq<GateName>, reports: seq<Report>, ciRun: Option<CiRun>,
                  headSha: Option<string>, collate: string -> real, g: GateName, reason: NaReason)
    ensures var x, kept := Reduced(round, expected, reports, ciRun, headSha, collate), Kept(reports, expected);
            x.Ok? ==>
              (SelfNa(g, reason) in x.value.selfDeclaredNa <==>
                 && g in expected
                 && exists r :: r in kept && r.Report? && r.gate == g && r.verdict == NotApplicable
                                && r.naReason == reason)
  {
    FieldsAre(round, expected, reports, ciRun, headSha, collate);
    hide Reduced, Kept, SelfNaOf;
    CollectMember(expected, SelfNaOf(Kept(reports, expected)), SelfNa(g, reason));
    forall e
      ensures SelfNa(g, reason) in SelfNaOf(Kept(reports, expected))(e) ==> e == g
    {
      OwnGateOnly(Kept(reports, expected), e, g, reason);
    }
    OneSelfNa(reports, expected, g, reason);
  }

  lemma OwnGateOnly(kept: seq<Report>, e: GateName, g: GateName, reason: NaReason)
    ensures SelfNa(g, reason) in SelfNaOf(kept)(e) ==> e == g
  {
  }

  lemma OneSelfNa(reports: seq<Report>, expected: seq<GateName>, g: GateName, reason: NaReason)
    ensures SelfNa(g, reason) in SelfNaOf(Kept(reports, expected))(g) <==>
              exists r :: r in Kept(reports, expected) && r.Report? && r.gate == g && r.verdict == NotApplicable
                          && r.naReason == reason
  {
    hide Kept, Lookup;
    CountedAreReports(reports, expected);
    forall r
      ensures Lookup(Kept(reports, expected), g) == Some(r) <==> r in Kept(reports, expected) && GateOf(r) == g
    {
      FiledIff(reports, expected, g, r);
    }
  }

  /** What is wrong with a report, with its evidence: its gate reported twice; else the validator's problem; else
      nobody expected the gate's opinion. */
  ghost predicate Complaint(reports: seq<Report>, expected: seq<GateName>, r: Report, p: Problem) {
    if Twice(reports, GateOf(r)) then p == DuplicateReport
    else if Validate(r).Some? then p == Validate(r).value
    else GateOf(r).Opinion? && GateOf(r) !in expected && p == UnexpectedGate
  }

  lemma RejectedIff(reports: seq<Report>, m: Malformed)
    ensures m in Collect(reports, Rejected(reports)) <==>
              exists r :: r in reports && GateOf(r) == m.gate && Rejection(reports, r) == Some(m.problem)
                          && m.evidenceRef == if r.Report? then r.evidenceRef else None
  {
    hide Rejection, Collect;
    CollectHas(reports, Rejected(reports), m);
  }

  lemma UnexpectedIff(reports: seq<Report>, expected: seq<GateName>, m: Malformed)
    ensures m in Collect(OPINION_GATES, Unexpected(Collect(reports, Admitted(reports)), expected)) <==>
              && m.gate.Opinion? && m.gate !in expected && m.problem == UnexpectedGate
              && exists r :: r in reports && GateOf(r) == m.gate && Rejection(reports, r).None?
                             && m.evidenceRef == if r.Report? then r.evidenceRef else None
  {
    hide Rejection, Collect, Lookup;
    var admitted := Collect(reports, Admitted(reports));
    CollectMember(OPINION_GATES, Unexpected(admitted, expected), m);
    if m.gate.Opinion? {
      assert OPINION_GATES[Rank(m.gate.gate)] == m.gate.gate;
      forall r { AdmittedFiled(reports, expected, m.gate, r); }
    }
  }

  /** Exactly these complaints are listed. */
  lemma ComplaintIff(reports: seq<Report>, expected: seq<GateName>, m: Malformed)
    ensures m in AllMalformed(reports, expected) <==>
              exists r :: r in reports && GateOf(r) == m.gate && Complaint(reports, expected, r, m.problem)
                          && m.evidenceRef == if r.Report? then r.evidenceRef else None
  {
    hide Validate, Occurrences, Collect, Twice;
    RejectedIff(reports, m);
    UnexpectedIff(reports, expected, m);
    forall r { TwiceIff(reports, GateOf(r)); }
  }

  lemma AdmittedFiled(reports: seq<Report>, expected: seq<GateName>, g: GateName, r: Report)
    ensures Lookup(Collect(reports, Admitted(reports)), g) == Some(r)
       <==> r in reports && GateOf(r) == g && Rejection(reports, r).None?
  {
    hide Rejection;
    var admitted := Collect(reports, Admitted(reports));
    AdmittedOnePerGate(reports, expected);
    LookupHolds(admitted, g);
    forall q
      ensures q in admitted <==> q in reports && Rejection(reports, q).None?
    {
      AdmittedMember(reports, q);
    }
    if r in admitted && GateOf(r) == g {
      assert Occurrences(admitted, g) <= 1;
      LookupFound(admitted, g, r);
    }
  }

  // ----- The flags -----

  /** The name of a gate as the report writes it. */
  function GateText(g: GateName): string {
    match g
    case Verifier => "verifier"
    case Opinion(Security) => "security"
    case Opinion(RedHat) => "red_hat"
    case Opinion(Tester) => "tester"
    case Opinion(CodeReviewer) => "code_reviewer"
    case Unknown(_) => ""
  }

  ghost predicate Alphabetical(gates: seq<GateName>) {
    forall i, j :: 0 <= i < j < |gates| ==>
      gates[i] != gates[j] && CodeLeq(GateText(gates[i]), GateText(gates[j]))
  }

  /** A counted report of the gate has a finding with this reference. */
  ghost predicate CitedIn(kept: seq<Report>, g: GateName, ref: string) {
    exists r, f :: r in kept && r.Report? && r.gate == g && r.findings.Some? && f in r.findings.value
                   && f.Finding? && f.ref == ref
  }

  lemma AlphabetIsAlphabetical()
    ensures Alphabetical(ALPHABETICAL)
  {
    assert forall a, b :: a != "" && b != "" && a[0] < b[0] ==> CodeLeq(a, b);
    hide CodeLeq;
  }

  lemma {:induction false} FilterKeepsAlphabet(gates: seq<GateName>, f: GateName -> seq<GateName>)
    requires Alphabetical(gates) && forall g :: f(g) == [g] || f(g) == []
    ensures Alphabetical(Collect(gates, f)) && forall g :: g in Collect(gates, f) <==> g in gates && f(g) == [g]
  {
    hide CodeLeq, GateText;
    if gates == [] {
      assert Collect(gates, f) == [];
    } else {
      hide Collect;
      var init, last := gates[..|gates| - 1], gates[|gates| - 1];
      FilterKeepsAlphabet(init, f);
      assert gates == init + [last];
      CollectSnoc(init, last, f);
      if f(last) == [last] {
        LastOfAlphabet(init, last, Collect(init, f));
      } else {
        assert Collect(init, f) + [] == Collect(init, f);
      }
    }
  }

  lemma LastOfAlphabet(init: seq<GateName>, last: GateName, some: seq<GateName>)
    requires Alphabetical(init + [last]) && Alphabetical(some) && forall g :: g in some ==> g in init
    ensures Alphabetical(some + [last])
  {
    hide CodeLeq, GateText;
    forall k | 0 <= k < |some|
      ensures some[k] != last && CodeLeq(GateText(some[k]), GateText(last))
    {
      assert some[k] in init;
      var i :| 0 <= i < |init| && init[i] == some[k];
      assert (init + [last])[i] == some[k] && (init + [last])[|init|] == last;
    }
  }

  lemma InOrderIs(gates: set<GateName>)
    requires forall g :: g in gates ==> !g.Unknown?
    ensures Alphabetical(InOrder(gates)) && Elements(InOrder(gates)) == gates
  {
    AlphabetIsAlphabetical();
    var f := (g: GateName) => if g in gates then [g] else [];
    FilterKeepsAlphabet(ALPHABETICAL, f);
    forall g | g in gates
      ensures g in ALPHABETICAL
    {
      InAlphabet(g);
    }
  }

  lemma InAlphabet(g: GateName)
    requires !g.Unknown?
    ensures g in ALPHABETICAL
  {
    assert ALPHABETICAL[match g case Opinion(CodeReviewer) => 0 case Opinion(RedHat) => 1 case Opinion(Security) => 2
                        case Opinion(Tester) => 3 case Verifier => 4] == g;
  }

  lemma CitingIs(reports: seq<Report>, expected: seq<GateName>, ref: string)
    requires ref != ""
    ensures forall g :: g in Citing(Kept(reports, expected), ref) <==> CitedIn(Kept(reports, expected), g, ref)
    ensures forall g :: g in Citing(Kept(reports, expected), ref) ==> !g.Unknown?
  {
    hide Kept;
    CountedAreReports(reports, expected);
    forall r | r in Kept(reports, expected)
      ensures ref in RefsIn(r) <==> exists f :: f in FindingsOf(r) && f.Finding? && f.ref == ref
    {
      CollectMember(FindingsOf(r), RefEntry, ref);
    }
  }

  /** A flag lists, alphabetically and each once, exactly the gates whose counted reports cite its reference, two at
      least; and every reference that two gates cite has a flag. */
  lemma FlagsSay(round: int, expected: seq<GateName>, reports: seq<Report>, ciRun: Option<CiRun>,
                 headSha: Option<string>, collate: string -> real)
    ensures var x, kept := Reduced(round, expected, reports, ciRun, headSha, collate), Kept(reports, expected);
            x.Ok? ==>
              && (forall flag :: flag in x.value.crossGateFlags ==>
                    && flag.ref != "" && |flag.gates| >= 2 && Alphabetical(flag.gates)
                    && forall g :: g in flag.gates <==> CitedIn(kept, g, flag.ref))
              && forall ref, g, h :: ref != "" && g != h && CitedIn(kept, g, ref) && CitedIn(kept, h, ref) ==>
                   exists flag :: flag in x.value.crossGateFlags && flag.ref == ref
  {
    FieldsAre(round, expected, reports, ciRun, headSha, collate);
    hide Reduced, Kept, Sort, CitedIn, Citing, Alphabetical, InOrder;
    var kept := Kept(reports, expected);
    SortPermutes(Flagged(kept), ByRef(collate), collate);
    var flags := Sort(Flagged(kept), ByRef(collate));
    forall flag | flag in flags
      ensures flag.ref != "" && |flag.gates| >= 2 && Alphabetical(flag.gates)
      ensures forall g :: g in flag.gates <==> CitedIn(kept, g, flag.ref)
    {
      InPermutation(Flagged(kept), flags, flag);
      OneFlagSays(reports, expected, flag);
    }
    forall ref, g, h | ref != "" && g != h && CitedIn(kept, g, ref) && CitedIn(kept, h, ref)
      ensures exists flag :: flag in flags && flag.ref == ref
    {
      var flag := CitedTwiceIsFlagged(reports, expected, ref, g, h);
      InPermutation(Flagged(kept), flags, flag);
    }
  }

  lemma SortPermutes(flags: seq<Flag>, leq: (Flag, Flag) -> bool, collate: string -> real)
    requires leq == ByRef(collate)
    ensures multiset(Sort(flags, leq)) == multiset(flags)
  {
    SortSorts(flags, ByRef(collate));
  }

  lemma OneFlagSays(reports: seq<Report>, expected: seq<GateName>, flag: Flag)
    requires flag in Flagged(Kept(reports, expected))
    ensures flag.ref != "" && |flag.gates| >= 2 && Alphabetical(flag.gates)
    ensures forall g :: g in flag.gates <==> CitedIn(Kept(reports, expected), g, flag.ref)
  {
    hide Kept, CitedIn, Alphabetical, InOrder, Flagged, RefsIn, Citing;
    var kept := Kept(reports, expected);
    FlaggedIs(kept, flag);
    CitedRefsAreFilled(kept, flag.ref);
    CitingIs(reports, expected, flag.ref);
    InOrderIs(Citing(kept, flag.ref));
    ElementsFit(flag.gates);
    assert forall g :: g in flag.gates <==> g in Elements(flag.gates);
  }

  lemma CitedRefsAreFilled(kept: seq<Report>, ref: string)
    requires Citing(kept, ref) != {}
    ensures ref != ""
  {
    var g :| g in Citing(kept, ref);
    var r :| r in kept && ref in RefsIn(r) && GateOf(r) == g;
    CollectMember(FindingsOf(r), RefEntry, ref);
  }

  lemma CitedTwiceIsFlagged(reports: seq<Report>, expected: seq<GateName>, ref: string, g: GateName, h: GateName)
    returns (flag: Flag)
    requires ref != "" && g != h
    requires CitedIn(Kept(reports, expected), g, ref) && CitedIn(Kept(reports, expected), h, ref)
    ensures flag in Flagged(Kept(reports, expected)) && flag.ref == ref
  {
    hide Kept, CitedIn, InOrder;
    var kept := Kept(reports, expected);
    CitingIs(reports, expected, ref);
    SubsetFits({g, h}, Citing(kept, ref));
    flag := Flag(ref, InOrder(Citing(kept, ref)));
    var r :| r in kept && ref in RefsIn(r);
    var refs := Collect(kept, RefsIn);
    CollectMember(kept, RefsIn, ref);
    DedupIsDistinct(refs);
    CollectMember(Dedup(refs), FlagFor(kept), flag);
  }

  /** The flags stand by reference, each reference once. */
  lemma FlagsAreSorted(round: int, expected: seq<GateName>, reports: seq<Report>, ciRun: Option<CiRun>,
                       headSha: Option<string>, collate: string -> real)
    ensures var x := Reduced(round, expected, reports, ciRun, headSha, collate);
            x.Ok? ==>
              var flags := x.value.crossGateFlags;
              forall i, j :: 0 <= i < j < |flags| ==>
                collate(flags[i].ref) <= collate(flags[j].ref) && flags[i].ref != flags[j].ref
  {
    FieldsAre(round, expected, reports, ciRun, headSha, collate);
    hide Reduced, Kept, Sort, Citing, InOrder, Flagged;
    var kept := Kept(reports, expected);
    var all, flags := Flagged(kept), Sort(Flagged(kept), ByRef(collate));
    CollationIsTotal(collate);
    SortSorts(all, ByRef(collate));
    forall flag { FlaggedIs(kept, flag); }
    PermutedDistinct(all, flags);
    forall i, j | 0 <= i < j < |flags|
      ensures flags[i].ref != flags[j].ref
    {
      InPermutation(all, flags, flags[i]);
      InPermutation(all, flags, flags[j]);
    }
  }

  // ----- The order of the lists, and the exception -----

  ghost function CountedOf(reports: seq<Report>, expected: seq<GateName>): Report -> seq<Report> {
    (r: Report) =>
      if WellFormed(r) && (r.gate.Opinion? ==> r.gate in expected) && !Twice(reports, GateOf(r)) then [r] else []
  }

  /** The reports that count, in the order received. */
  lemma CountedInOrder(reports: seq<Report>, expected: seq<GateName>)
    ensures Kept(reports, expected) == Collect(reports, CountedOf(reports, expected))
  {
    hide Collect, WellFormed, Validate, Occurrences;
    forall r
      ensures CountedOf(reports, expected)(r) == Collect(Admitted(reports)(r), Expected(expected))
    {
      TwiceIff(reports, GateOf(r));
      ValidIffWellFormed(r);
      WellFormedIsReport(r);
      CollectOne(r, Expected(expected));
      NothingCollected(expected);
    }
    CollectTwice(reports, Admitted(reports), Expected(expected), CountedOf(reports, expected));
  }

  lemma NothingCollected(expected: seq<GateName>)
    ensures Collect([], Expected(expected)) == []
  {
  }

  function BlockingFinding(g: GateName): Finding -> seq<GateFinding> {
    (f: Finding) => if f.Finding? && f.severity == Blocking then [GateFinding(f, g)] else []
  }

  function BlockingOf(): Report -> seq<GateFinding> {
    (r: Report) => if r.Report? && r.findings.Some? then Collect(r.findings.value, BlockingFinding(r.gate)) else []
  }

  function GapEntry(kept: seq<Report>, malformed: seq<Malformed>): GateName -> seq<Gap> {
    (g: GateName) =>
      if exists r :: r in kept && r.Report? && r.gate == g && r.verdict in {Pass, Fail, NotApplicable} then []
      else if exists m :: m in malformed && m.gate == g then [Gap(g, WasMalformed)]
      else [Gap(g, WasMissing)]
  }

  /** Blocking findings stand report by report in the order received, and as each report lists them; gaps in the order
      in which the gates were expected. */
  lemma ListsAreInOrder(round: int, expected: seq<GateName>, reports: seq<Report>, ciRun: Option<CiRun>,
                        headSha: Option<string>, collate: string -> real)
    ensures var x, kept := Reduced(round, expected, reports, ciRun, headSha, collate), Kept(reports, expected);
            x.Ok? ==>
              && x.value.blockingFindings == Collect(kept, BlockingOf())
              && x.value.gap == Collect(expected, GapEntry(kept, x.value.malformed))
  {
    var x, kept := Reduced(round, expected, reports, ciRun, headSha, collate), Kept(reports, expected);
    if x.Ok? {
      FieldsAre(round, expected, reports, ciRun, headSha, collate);
      GapsField(round, expected, reports, ciRun, headSha, collate);
      hide Reduced, Kept, AllMalformed, Collect;
      CountedAreReports(reports, expected);
      forall r | r in kept
        ensures BlockingIn(r) == BlockingOf()(r)
      {
        CollectAgrees(FindingsOf(r), BlockingEntry(GateOf(r)), BlockingFinding(r.gate));
      }
      CollectAgrees(kept, BlockingIn, BlockingOf());
      forall g
        ensures GapOf(kept, AllMalformed(reports, expected))(g) == GapEntry(kept, AllMalformed(reports, expected))(g)
      {
        OneGap(reports, expected, g);
      }
      CollectAgrees(expected, GapOf(kept, AllMalformed(reports, expected)),
                    GapEntry(kept, AllMalformed(reports, expected)));
    }
  }

  lemma GapsField(round: int, expected: seq<GateName>, reports: seq<Report>, ciRun: Option<CiRun>,
                  headSha: Option<string>, collate: string -> real)
    ensures var x := Reduced(round, expected, reports, ciRun, headSha, collate);
            x.Ok? ==>
              x.value.gap == Collect(expected, GapOf(Kept(reports, expected), AllMalformed(reports, expected)))
  {
    hide Kept, AllMalformed, VerifierPass, ScoresIn, Collect, Sort, Flagged, Scored, DecisionOf, Mean, Lowest;
  }

  lemma OneGap(reports: seq<Report>, expected: seq<GateName>, g: GateName)
    ensures var kept, malformed := Kept(reports, expected), AllMalformed(reports, expected);
            GapOf(kept, malformed)(g) == GapEntry(kept, malformed)(g)
  {
    hide Kept, AllMalformed, Lookup;
    var kept, malformed := Kept(reports, expected), AllMalformed(reports, expected);
    forall r { FiledIff(reports, expected, g, r); }
    assert Mentions(malformed, g) <==> exists m :: m in malformed && m.gate == g;
  }

  ghost function RejectedEntry(reports: seq<Report>): Report -> seq<Malformed> {
    (r: Report) =>
      var evidence := if r.Report? then r.evidenceRef else None;
      if Twice(reports, GateOf(r)) then [Malformed(GateOf(r), DuplicateReport, evidence)]
      else match Validate(r) case None => [] case Some(p) => [Malformed(GateOf(r), p, evidence)]
  }

  /** Entries about unexpected opinion gates, of the first `n` and in gate order. */
  ghost predicate InGateOrder(entries: seq<Malformed>, n: nat) {
    && (forall k :: 0 <= k < |entries| ==>
          entries[k].gate.Opinion? && entries[k].problem == UnexpectedGate && Rank(entries[k].gate.gate) < n)
    && forall k, l :: 0 <= k < l < |entries| ==> Rank(entries[k].gate.gate) < Rank(entries[l].gate.gate)
  }

  lemma {:induction false} UnexpectedInOrder(admitted: seq<Report>, expected: seq<GateName>, n: nat)
    requires n <= |OPINION_GATES|
    ensures var entries := Collect(OPINION_GATES[..n], Unexpected(admitted, expected));
            InGateOrder(entries, n)
  {
    hide Lookup, InGateOrder;
    if n == 0 {
      assert OPINION_GATES[..0] == [];
      NoEntries();
    } else {
      UnexpectedInOrder(admitted, expected, n - 1);
      CollectNext(OPINION_GATES, n - 1, Unexpected(admitted, expected));
      hide Collect;
      var entries := Collect(OPINION_GATES[..n - 1], Unexpected(admitted, expected));
      OneMoreEntry(entries, Unexpected(admitted, expected)(OPINION_GATES[n - 1]), OPINION_GATES[n - 1]);
    }
  }

  lemma NoEntries()
    ensures InGateOrder([], 0)
  {
  }

  lemma OneMoreEntry(entries: seq<Malformed>, next: seq<Malformed>, g: OpinionGate)
    requires InGateOrder(entries, Rank(g)) && |next| <= 1
    requires next != [] ==> next[0].gate == Opinion(g) && next[0].problem == UnexpectedGate
    ensures InGateOrder(entries + next, Rank(g) + 1)
  {
    hide Rank;
  }

  /** Complaints stand report by report in the order received, then those about unexpected gates in gate order. */
  lemma ComplaintsInOrder(reports: seq<Report>, expected: seq<GateName>)
    ensures var all, head := AllMalformed(reports, expected), Collect(reports, RejectedEntry(reports));
            head <= all && InGateOrder(all[|head|..], |OPINION_GATES|)
  {
    hide Collect, Validate, Occurrences, InGateOrder;
    forall r
      ensures Rejected(reports)(r) == RejectedEntry(reports)(r)
    {
      TwiceIff(reports, GateOf(r));
    }
    CollectAgrees(reports, Rejected(reports), RejectedEntry(reports));
    var admitted := Collect(reports, Admitted(reports));
    UnexpectedInOrder(admitted, expected, |OPINION_GATES|);
    assert OPINION_GATES[..|OPINION_GATES|] == OPINION_GATES;
    var head, tail := Collect(reports, RejectedEntry(reports)), Collect(OPINION_GATES, Unexpected(admitted, expected));
    assert (head + tail)[|head|..] == tail;
  }

  /** The reducer throws exactly when a counted report has a null among its findings. */
  lemma ThrownIff(round: int, expected: seq<GateName>, reports: seq<Report>, ciRun: Option<CiRun>,
                  headSha: Option<string>, collate: string -> real)
    ensures Reduced(round, expected, reports, ciRun, headSha, collate).Err? <==>
              exists r :: r in Kept(reports, expected) && r.Report? && r.findings.Some?
                          && NullFinding in r.findings.value
  {
    hide Kept, AllMalformed, VerifierPass, ScoresIn, Collect, Sort, Flagged, Scored, DecisionOf, Mean, Lowest;
    var kept := Kept(reports, expected);
    assert ReadsNull(kept) <==> exists r :: r in kept && NullFinding in FindingsOf(r);
  }
}
