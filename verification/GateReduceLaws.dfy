/** What the reducer promises: the order of the reports does not matter, and bad evidence is never outvoted. */
module GateReduceLaws {
  import opened Prelude
  import opened GateSchema
  import opened Sorting
  import opened GateReduce

  // ----- At most one report is filed under a gate -----

  ghost predicate OnePerGate(kept: seq<Report>) {
    forall g :: Occurrences(kept, g) <= 1
  }

  lemma {:induction false} FilterShortens<T, U>(s: seq<T>, f: T -> seq<T>, h: T -> seq<U>)
    requires forall x :: x in s ==> f(x) == [x] || f(x) == []
    ensures |Collect(Collect(s, f), h)| <= |Collect(s, h)|
  {
    if s != [] {
      var init, x := s[..|s| - 1], s[|s| - 1];
      FilterShortens(init, f, h);
      CollectConcat(Collect(init, f), f(x), h);
      CollectOne(x, h);
    }
  }

  lemma {:induction false} LookupIsLast(kept: seq<Report>, g: GateName)
    ensures var own := Collect(kept, OfGate(g));
            Lookup(kept, g) == if own == [] then None else Some(own[|own| - 1])
  {
    if kept != [] {
      LookupIsLast(kept[..|kept| - 1], g);
    }
  }

  lemma {:induction false} OwnReports(kept: seq<Report>, g: GateName, r: Report)
    ensures r in Collect(kept, OfGate(g)) <==> r in kept && GateOf(r) == g
  {
    if kept != [] {
      OwnReports(kept[..|kept| - 1], g, r);
    }
  }

  lemma LookupFound(kept: seq<Report>, g: GateName, r: Report)
    requires r in kept && GateOf(r) == g && Occurrences(kept, g) <= 1
    ensures Lookup(kept, g) == Some(r)
  {
    LookupIsLast(kept, g);
    OwnReports(kept, g, r);
  }

  lemma {:induction false} LookupHolds(kept: seq<Report>, g: GateName)
    ensures Lookup(kept, g).Some? ==> Lookup(kept, g).value in kept && GateOf(Lookup(kept, g).value) == g
    ensures Lookup(kept, g).None? ==> forall r :: r in kept ==> GateOf(r) != g
  {
    if kept != [] {
      LookupHolds(kept[..|kept| - 1], g);
      assert kept == kept[..|kept| - 1] + [kept[|kept| - 1]];
    }
  }

  lemma {:induction false} AdmittedOnce(reports: seq<Report>, s: seq<Report>, g: GateName)
    ensures Occurrences(reports, g) > 1 ==> Collect(Collect(s, Admitted(reports)), OfGate(g)) == []
  {
    if s != [] {
      var init, x := s[..|s| - 1], s[|s| - 1];
      AdmittedOnce(reports, init, g);
      CollectConcat(Collect(init, Admitted(reports)), Admitted(reports)(x), OfGate(g));
      CollectOne(x, OfGate(g));
    }
  }

  lemma AdmittedOnePerGate(reports: seq<Report>, expected: seq<GateName>)
    ensures OnePerGate(Collect(reports, Admitted(reports))) && OnePerGate(Kept(reports, expected))
  {
    forall g
      ensures Occurrences(Collect(reports, Admitted(reports)), g) <= 1
      ensures Occurrences(Kept(reports, expected), g) <= 1
    {
      AdmittedOnce(reports, reports, g);
      FilterShortens(reports, Admitted(reports), OfGate(g));
      FilterShortens(Collect(reports, Admitted(reports)), Expected(expected), OfGate(g));
    }
  }

  // ----- Which reports are counted -----

  lemma AdmittedMember(reports: seq<Report>, r: Report)
    ensures r in Collect(reports, Admitted(reports)) <==> r in reports && Rejection(reports, r).None?
  {
    CollectMember(reports, Admitted(reports), r);
  }

  lemma KeptMember(reports: seq<Report>, expected: seq<GateName>, r: Report)
    ensures r in Kept(reports, expected)
       <==> r in reports && Rejection(reports, r).None? && IsExpected(expected, r)
  {
    AdmittedMember(reports, r);
    CollectMember(Collect(reports, Admitted(reports)), Expected(expected), r);
  }

  lemma {:induction false} BlockingMember(r: Report)
    ensures BlockingIn(r) != [] <==> HasBlocking(r)
  {
    var entry := BlockingEntry(GateOf(r));
    if HasBlocking(r) {
      var i :| 0 <= i < |r.findings.value| && IsBlocking(r.findings.value[i]);
      CollectMember(FindingsOf(r), entry, GateFinding(r.findings.value[i], GateOf(r)));
      assert GateFinding(r.findings.value[i], GateOf(r)) in entry(FindingsOf(r)[i]);
    } else if BlockingIn(r) != [] {
      CollectMember(FindingsOf(r), entry, BlockingIn(r)[0]);
    }
  }

  /** A report that must force a BLOCK: malformed, from an opinion gate nobody expected, or blocking. */
  predicate Bad(expected: seq<GateName>, r: Report) {
    Validate(r).Some? || !IsExpected(expected, r) || HasBlocking(r)
  }

  /** Every report is well formed, expected if it is an opinion, and did not fail; no gate reported twice; and no
      finding is null. */
  ghost predicate Sound(expected: seq<GateName>, reports: seq<Report>) {
    && (forall r :: r in reports ==>
          && WellFormed(r) && r.verdict != Fail && NullFinding !in r.findings.value
          && (r.gate.Opinion? ==> r.gate in expected))
    && (forall i, j :: 0 <= i < j < |reports| ==> GateOf(reports[i]) != GateOf(reports[j]))
  }

  lemma SoundReportIsNotBad(expected: seq<GateName>, r: Report)
    ensures !Bad(expected, r) && NullFinding !in FindingsOf(r)
       <==> && WellFormed(r) && r.verdict != Fail && NullFinding !in r.findings.value
            && (r.gate.Opinion? ==> r.gate in expected)
  {
    ValidIffWellFormed(r);
    if r.Report? && r.findings.Some? {
      assert HasBlocking(r) <==> exists f :: f in r.findings.value && f.Finding? && f.severity == Blocking;
    }
  }

  lemma {:induction false} OccursOnce(reports: seq<Report>, g: GateName)
    ensures (forall i, j :: 0 <= i < j < |reports| ==> !(GateOf(reports[i]) == GateOf(reports[j]) == g))
            ==> Occurrences(reports, g) <= 1
  {
    if reports != [] {
      var init, x := reports[..|reports| - 1], reports[|reports| - 1];
      OccursOnce(init, g);
      if GateOf(x) == g && Collect(init, OfGate(g)) != [] {
        OwnReports(init, g, Collect(init, OfGate(g))[0]);
      }
    }
  }

  lemma OccursTwice(reports: seq<Report>, i: nat, j: nat)
    requires i < j < |reports| && GateOf(reports[i]) == GateOf(reports[j])
    ensures Occurrences(reports, GateOf(reports[i])) > 1
  {
    var f := OfGate(GateOf(reports[i]));
    var u, v, w := reports[..i], reports[i + 1..j], reports[j + 1..];
    Pieces(reports, i, j);
    TiesInOrder(u, reports[i], v, reports[j], w, f);
    assert v + [reports[j]] + w == v + ([reports[j]] + w);
    CollectConcat(v, [reports[j]] + w, f);
    CollectConcat([reports[j]], w, f);
    CollectOne(reports[j], f);
  }

  // ----- No outvoting -----

  ghost predicate Eligible(r: Result<GateReport, Thrown>) {
    r.Ok? && r.value.decision == PassEligible
  }

  lemma RejectionBlocks(reports: seq<Report>, expected: seq<GateName>, r: Report)
    requires r in reports && Rejection(reports, r).Some?
    ensures AllMalformed(reports, expected) != []
  {
    var m := Malformed(GateOf(r), Rejection(reports, r).value, EvidenceOf(r));
    CollectMember(reports, Rejected(reports), m);
  }

  lemma UnexpectedBlocks(reports: seq<Report>, expected: seq<GateName>, r: Report)
    requires r in reports && Rejection(reports, r).None? && !IsExpected(expected, r)
    ensures AllMalformed(reports, expected) != []
  {
    var admitted := Collect(reports, Admitted(reports));
    var f := Unexpected(admitted, expected);
    AdmittedMember(reports, r);
    AdmittedOnePerGate(reports, expected);
    LookupFound(admitted, GateOf(r), r);
    var g := GateOf(r).gate;
    CollectMember(OPINION_GATES, f, f(g)[0]);
    assert OPINION_GATES[match g case Security => 0 case RedHat => 1 case Tester => 2 case CodeReviewer => 3] == g;
  }

  lemma BadReportBlocks(round: int, expected: seq<GateName>, reports: seq<Report>, ciRun: Option<CiRun>,
                        headSha: Option<string>, collate: string -> real, r: Report)
    requires r in reports && (Bad(expected, r) || NullFinding in FindingsOf(r))
    ensures !Eligible(Reduced(round, expected, reports, ciRun, headSha, collate))
  {
    hide AllMalformed, Kept, Collect, IsExpected, HasBlocking, Validate, Occurrences, Mean, Sort, ScoresIn, Scored,
      VerifierPass, Flagged;
    if Rejection(reports, r).Some? {
      RejectionBlocks(reports, expected, r);
    } else if !IsExpected(expected, r) {
      UnexpectedBlocks(reports, expected, r);
    } else {
      KeptMember(reports, expected, r);
      if HasBlocking(r) { BlockingIsCounted(Kept(reports, expected), r); }
    }
  }

  lemma BlockingIsCounted(kept: seq<Report>, r: Report)
    requires r in kept && HasBlocking(r)
    ensures Collect(kept, BlockingIn) != []
  {
    BlockingMember(r);
    CollectMember(kept, BlockingIn, BlockingIn(r)[0]);
  }

  lemma TwoReportsBlock(round: int, expected: seq<GateName>, reports: seq<Report>, ciRun: Option<CiRun>,
                        headSha: Option<string>, collate: string -> real, i: nat, j: nat)
    requires i < j < |reports| && GateOf(reports[i]) == GateOf(reports[j])
    ensures !Eligible(Reduced(round, expected, reports, ciRun, headSha, collate))
  {
    OccursTwice(reports, i, j);
    RejectionBlocks(reports, expected, reports[i]);
  }

  /** Bad evidence cannot be outvoted: whatever other reports join it and whatever run CI offers, a set of
      reports that holds a malformed, unexpected or blocking report never becomes eligible. */
  lemma NoOutvoting(round: int, expected: seq<GateName>, reports: seq<Report>, more: seq<Report>,
                    ciRun: Option<CiRun>, headSha: Option<string>, collate: string -> real, r: Report)
    requires r in reports && Bad(expected, r) && multiset(reports) <= multiset(more)
    ensures !Eligible(Reduced(round, expected, more, ciRun, headSha, collate))
  {
    assert r in multiset(reports);
    assert r in multiset(more);
    BadReportBlocks(round, expected, more, ciRun, headSha, collate, r);
  }

  // ----- The scores that enter the mean and the minimum -----

  /** The score that a report contributes: an opinion gate's, when it says PASS or FAIL. */
  function ScoreGiven(r: Report): seq<int> {
    if r.Report? && r.gate.Opinion? && (r.verdict == Pass || r.verdict == Fail) && r.score.Integer?
    then [r.score.value] else []
  }

  function ScoresGiven(reports: seq<Report>): seq<int> {
    Collect(reports, ScoreGiven)
  }

  function GivenBy(reports: seq<Report>, g: OpinionGate): seq<int> {
    Collect(Collect(reports, OfGate(Opinion(g))), ScoreGiven)
  }

  lemma OneMoreGiven(init: seq<Report>, x: Report, g: OpinionGate, n: int)
    ensures multiset(GivenBy(init + [x], g))[n]
         == multiset(GivenBy(init, g))[n] + if GateOf(x) == Opinion(g) then multiset(ScoreGiven(x))[n] else 0
  {
    hide ScoreGiven;
    CollectSnoc(init, x, OfGate(Opinion(g)));
    CollectConcat(Collect(init, OfGate(Opinion(g))), OfGate(Opinion(g))(x), ScoreGiven);
    CollectOne(x, ScoreGiven);
    assert Collect([], ScoreGiven) == [];
  }

  lemma NothingGiven(g: OpinionGate)
    ensures GivenBy([], g) == [] && ScoresGiven([]) == []
  {
    assert Collect([], OfGate(Opinion(g))) == [];
  }

  lemma OneMoreScore(init: seq<Report>, x: Report, n: int)
    ensures multiset(ScoresGiven(init + [x]))[n] == multiset(ScoresGiven(init))[n] + multiset(ScoreGiven(x))[n]
  {
    CollectSnoc(init, x, ScoreGiven);
  }

  lemma OneGate(x: Report)
    ensures ScoreGiven(x) == []
         || GateOf(x) in {Opinion(Security), Opinion(RedHat), Opinion(Tester), Opinion(CodeReviewer)}
  {
    if GateOf(x).Opinion? {
      match GateOf(x).gate
      case Security =>
      case RedHat =>
      case Tester =>
      case CodeReviewer =>
    }
  }

  lemma {:induction false} GivenGateByGate(reports: seq<Report>, n: int)
    ensures multiset(ScoresGiven(reports))[n]
         == multiset(GivenBy(reports, Security))[n] + multiset(GivenBy(reports, RedHat))[n]
            + multiset(GivenBy(reports, Tester))[n] + multiset(GivenBy(reports, CodeReviewer))[n]
  {
    if reports == [] {
      NothingGiven(Security);
      NothingGiven(RedHat);
      NothingGiven(Tester);
      NothingGiven(CodeReviewer);
    } else {
      var init, x := reports[..|reports| - 1], reports[|reports| - 1];
      assert reports == init + [x];
      OneGate(x);
      OneMoreScore(init, x, n);
      hide Collect, GivenBy, ScoreGiven, ScoresGiven, GateOf;
      GivenGateByGate(init, n);
      OneMoreGiven(init, x, Security, n);
      OneMoreGiven(init, x, RedHat, n);
      OneMoreGiven(init, x, Tester, n);
      OneMoreGiven(init, x, CodeReviewer, n);
    }
  }

  /** What is read off the one report filed under a gate is what the gate's reports give. */
  lemma FiledScoreIsGiven(kept: seq<Report>, g: OpinionGate)
    requires OnePerGate(kept)
    ensures ScoreEntry(kept)(g) == GivenBy(kept, g)
  {
    var own := Collect(kept, OfGate(Opinion(g)));
    assert |own| == Occurrences(kept, Opinion(g)) <= 1;
    LookupIsLast(kept, Opinion(g));
    assert Collect([], ScoreGiven) == [];
    hide Collect, Lookup, OnePerGate, OfGate;
    if own != [] {
      OwnReports(kept, Opinion(g), own[0]);
      assert own == [own[0]];
      CollectOne(own[0], ScoreGiven);
    }
  }

  lemma ScoredGateByGate(kept: seq<Report>)
    ensures Scored(kept)
         == ScoreEntry(kept)(Security) + ScoreEntry(kept)(RedHat)
            + ScoreEntry(kept)(Tester) + ScoreEntry(kept)(CodeReviewer)
  {
    var f := ScoreEntry(kept);
    assert OPINION_GATES == [Security] + [RedHat] + [Tester] + [CodeReviewer];
    CollectConcat([Security] + [RedHat] + [Tester], [CodeReviewer], f);
    CollectConcat([Security] + [RedHat], [Tester], f);
    CollectConcat([Security], [RedHat], f);
    CollectOne(Security, f);
    CollectOne(RedHat, f);
    CollectOne(Tester, f);
    CollectOne(CodeReviewer, f);
  }

  /** Exactly the scores that the counted reports give enter, each once. */
  lemma ScoredIsGiven(kept: seq<Report>)
    requires OnePerGate(kept)
    ensures multiset(Scored(kept)) == multiset(ScoresGiven(kept))
  {
    hide Collect, ScoreEntry, GivenBy, Scored, OnePerGate;
    ScoredGateByGate(kept);
    forall n: int
      ensures multiset(ScoresGiven(kept))[n]
           == multiset(GivenBy(kept, Security))[n] + multiset(GivenBy(kept, RedHat))[n]
              + multiset(GivenBy(kept, Tester))[n] + multiset(GivenBy(kept, CodeReviewer))[n]
    {
      GivenGateByGate(kept, n);
    }
    FiledScoreIsGiven(kept, Security);
    FiledScoreIsGiven(kept, RedHat);
    FiledScoreIsGiven(kept, Tester);
    FiledScoreIsGiven(kept, CodeReviewer);
  }

  lemma HighEnoughPermutes(s: seq<int>, t: seq<int>)
    requires multiset(s) == multiset(t)
    ensures HighEnough(s) <==> HighEnough(t)
  {
    SumPermutes(s, t);
    forall x: int
      ensures x in s <==> x in t
    {
      InPermutation(s, t, x);
    }
  }

  lemma AggregateFields(round: int, expected: seq<GateName>, reports: seq<Report>, ciRun: Option<CiRun>,
                        headSha: Option<string>, collate: string -> real)
    ensures var x, scored := Reduced(round, expected, reports, ciRun, headSha, collate),
                             Scored(Kept(reports, expected));
            x.Ok? ==> x.value.overallScore == Mean(scored) && x.value.lowestDimension == Lowest(scored)
  {
    hide Collect, Kept, Scored, Sort, Flagged, ScoresIn, VerifierPass, DecisionOf, Mean, Lowest;
  }

  /** The two aggregates of a report: the mean and the least of the scores that the counted reports give. */
  lemma AggregatesAre(round: int, expected: seq<GateName>, reports: seq<Report>, ciRun: Option<CiRun>,
                      headSha: Option<string>, collate: string -> real)
    ensures var x, given := Reduced(round, expected, reports, ciRun, headSha, collate),
                            ScoresGiven(Kept(reports, expected));
            x.Ok? ==>
              && (x.value.overallScore.None? <==> given == []) && (x.value.lowestDimension.None? <==> given == [])
              && (given != [] ==>
                    && x.value.overallScore.value * |given| as real == Sum(given) as real
                    && x.value.lowestDimension.value in given
                    && forall n :: n in given ==> x.value.lowestDimension.value <= n)
  {
    AggregateFields(round, expected, reports, ciRun, headSha, collate);
    hide Reduced, Collect, Kept, ScoresGiven, Scored, Sum, OnePerGate, Min;
    var kept := Kept(reports, expected);
    var scored, given := Scored(kept), ScoresGiven(kept);
    AdmittedOnePerGate(reports, expected);
    ScoredIsGiven(kept);
    SumPermutes(scored, given);
    if given != [] {
      MinIsLeast(scored);
      QuotientTimes(Sum(scored) as real, |scored| as real);
      forall n: int
        ensures n in scored <==> n in given
      {
        InPermutation(scored, given, n);
      }
    }
  }

  // ----- Exactly when a round is eligible -----

  lemma SoundReportsAllCount(expected: seq<GateName>, reports: seq<Report>)
    requires Sound(expected, reports)
    ensures Kept(reports, expected) == reports && AllMalformed(reports, expected) == []
    ensures Collect(reports, BlockingIn) == [] && !ReadsNull(reports)
  {
    hide Collect, Occurrences;
    forall r | r in reports
      ensures Rejection(reports, r).None? && BlockingIn(r) == [] && IsExpected(expected, r)
      ensures NullFinding !in FindingsOf(r)
    {
      SoundReportIsNotBad(expected, r);
      OccursOnce(reports, GateOf(r));
      BlockingMember(r);
    }
    CollectAll(reports, Admitted(reports));
    CollectAll(reports, Expected(expected));
    CollectIsEmpty(reports, Rejected(reports));
    CollectIsEmpty(reports, BlockingIn);
    forall g | g in OPINION_GATES
      ensures Unexpected(reports, expected)(g) == []
    {
      LookupHolds(reports, Opinion(g));
    }
    CollectIsEmpty(OPINION_GATES, Unexpected(reports, expected));
  }

  /** A run of CI with an id that completed with success on exactly the head, whose name is not empty. */
  ghost predicate GreenOnHead(ciRun: Option<CiRun>, headSha: Option<string>) {
    && ciRun.Some? && headSha.Some? && headSha.value != "" && ciRun.value.headSha == headSha
    && ciRun.value.id.Some? && ciRun.value.id.value != ""
    && ciRun.value.status == Some("completed") && ciRun.value.conclusion == Some("success")
  }

  /** A verifier report that passed, or a confirmed run of CI on the head. */
  ghost predicate Verified(reports: seq<Report>, ciRun: Option<CiRun>, headSha: Option<string>) {
    GreenOnHead(ciRun, headSha) || exists r :: r in reports && r.Report? && r.gate == Verifier && r.verdict == Pass
  }

  predicate HighEnough(scores: seq<int>) {
    scores != [] && Sum(scores) >= 4 * |scores| && forall n :: n in scores ==> n >= 3
  }

  lemma {:induction false} MinIsLeast(s: seq<int>)
    requires s != []
    ensures Min(s) in s && forall i :: 0 <= i < |s| ==> Min(s) <= s[i]
  {
    if |s| > 1 { MinIsLeast(s[..|s| - 1]); }
  }

  lemma MeanAtLeastFour(s: seq<int>)
    requires s != []
    ensures Mean(s).value >= 4.0 <==> Sum(s) >= 4 * |s|
  {
    hide Sum;
    var n, m := |s| as real, Mean(s).value;
    QuotientTimes(Sum(s) as real, n);
    if m < 4.0 { TimesIsLess(m, 4.0, n); } else if m > 4.0 { TimesIsLess(4.0, m, n); }
  }

  lemma QuotientTimes(a: real, n: real)
    requires 0.0 < n
    ensures (a / n) * n == a
  {
  }

  lemma TimesIsLess(a: real, b: real, n: real)
    requires a < b && 0.0 < n
    ensures a * n < b * n
  {
    assert (b - a) * n > 0.0;
  }

  lemma DecisionIff(verifierPass: bool, blocking: nat, malformed: nat, scores: seq<int>)
    ensures DecisionOf(verifierPass, blocking, malformed, scores) == PassEligible
       <==> verifierPass && blocking == 0 && malformed == 0 && HighEnough(scores)
  {
    if scores != [] {
      MinIsLeast(scores);
      MeanAtLeastFour(scores);
    }
  }

  /** The decision, said about the reports as received: every report is well formed, expected and free of
      blocking findings, no gate reported twice, the work was verified, and the scores are high enough. */
  lemma EligibleIff(round: int, expected: seq<GateName>, reports: seq<Report>, ciRun: Option<CiRun>,
                    headSha: Option<string>, collate: string -> real)
    ensures Eligible(Reduced(round, expected, reports, ciRun, headSha, collate))
       <==> Sound(expected, reports) && Verified(reports, ciRun, headSha) && HighEnough(ScoresGiven(reports))
  {
    if Sound(expected, reports) {
      SoundReportsAllCount(expected, reports);
      SoundVerifier(expected, reports, ciRun, headSha);
      DecisionIff(VerifierPass(reports, ciRun, headSha), 0, 0, Scored(reports));
      AdmittedOnePerGate(reports, expected);
      ScoredIsGiven(reports);
      HighEnoughPermutes(Scored(reports), ScoresGiven(reports));
    } else if exists i, j :: 0 <= i < j < |reports| && GateOf(reports[i]) == GateOf(reports[j]) {
      var i, j :| 0 <= i < j < |reports| && GateOf(reports[i]) == GateOf(reports[j]);
      TwoReportsBlock(round, expected, reports, ciRun, headSha, collate, i, j);
    } else {
      forall r | r in reports
        ensures !Bad(expected, r) && NullFinding !in FindingsOf(r)
           <==> && WellFormed(r) && r.verdict != Fail && NullFinding !in r.findings.value
                && (r.gate.Opinion? ==> r.gate in expected)
      {
        SoundReportIsNotBad(expected, r);
      }
      var r :| r in reports && (Bad(expected, r) || NullFinding in FindingsOf(r));
      BadReportBlocks(round, expected, reports, ciRun, headSha, collate, r);
    }
  }

  lemma SoundVerifier(expected: seq<GateName>, reports: seq<Report>, ciRun: Option<CiRun>, headSha: Option<string>)
    requires Sound(expected, reports)
    ensures VerifierPass(reports, ciRun, headSha) <==> Verified(reports, ciRun, headSha)
  {
    LookupHolds(reports, Verifier);
    OccursOnce(reports, Verifier);
    forall r | r in reports && GateOf(r) == Verifier
      ensures Lookup(reports, Verifier) == Some(r) && r.verdict != Fail
    {
      LookupFound(reports, Verifier, r);
    }
  }

  // ----- The order of the reports does not matter -----

  lemma SameRejections(a: seq<Report>, b: seq<Report>, r: Report)
    requires multiset(a) == multiset(b)
    ensures Rejection(a, r) == Rejection(b, r)
  {
    CollectPermutes(a, b, OfGate(GateOf(r)));
    SameMembers(Collect(a, OfGate(GateOf(r))), Collect(b, OfGate(GateOf(r))));
  }

  lemma KeptPermutes(a: seq<Report>, b: seq<Report>, expected: seq<GateName>)
    requires multiset(a) == multiset(b)
    ensures multiset(Collect(a, Admitted(a))) == multiset(Collect(b, Admitted(b)))
    ensures multiset(Kept(a, expected)) == multiset(Kept(b, expected))
    ensures multiset(Collect(a, Rejected(a))) == multiset(Collect(b, Rejected(b)))
  {
    forall r
      ensures Rejection(a, r) == Rejection(b, r)
    {
      SameRejections(a, b, r);
    }
    CollectPermutes(a, b, Admitted(a));
    CollectAgrees(b, Admitted(a), Admitted(b));
    CollectPermutes(a, b, Rejected(a));
    CollectAgrees(b, Rejected(a), Rejected(b));
    CollectPermutes(Collect(a, Admitted(a)), Collect(b, Admitted(b)), Expected(expected));
  }

  lemma SameLookup(a: seq<Report>, b: seq<Report>, g: GateName)
    requires multiset(a) == multiset(b) && OnePerGate(a)
    ensures Lookup(a, g) == Lookup(b, g)
  {
    assert |Collect(a, OfGate(g))| == Occurrences(a, g) <= 1;
    hide Collect, Lookup, OfGate, OnePerGate;
    CollectPermutes(a, b, OfGate(g));
    ShortPermutation(Collect(a, OfGate(g)), Collect(b, OfGate(g)));
    LookupIsLast(a, g);
    LookupIsLast(b, g);
  }

  lemma ShortPermutation<T>(a: seq<T>, b: seq<T>)
    requires multiset(a) == multiset(b) && |a| <= 1
    ensures a == b
  {
    SameMembers(a, b);
    if a != [] {
      assert multiset(a)[a[0]] == 1;
      assert multiset(b)[b[0]] == 1;
    }
  }

  lemma MentionsPermute(m: seq<Malformed>, m': seq<Malformed>, g: GateName)
    requires multiset(m) == multiset(m')
    ensures Mentions(m, g) <==> Mentions(m', g)
  {
    if Mentions(m, g) {
      var i :| 0 <= i < |m| && m[i].gate == g;
      InPermutation(m, m', m[i]);
    }
    if Mentions(m', g) {
      var i :| 0 <= i < |m'| && m'[i].gate == g;
      InPermutation(m, m', m'[i]);
    }
  }

  lemma MalformedPermutes(a: seq<Report>, b: seq<Report>, expected: seq<GateName>)
    requires multiset(a) == multiset(b)
    ensures multiset(AllMalformed(a, expected)) == multiset(AllMalformed(b, expected))
    ensures forall g :: Mentions(AllMalformed(a, expected), g) <==> Mentions(AllMalformed(b, expected), g)
  {
    hide Collect, Admitted, Rejected, Unexpected, Kept, Occurrences, Mentions, Lookup;
    KeptPermutes(a, b, expected);
    AdmittedOnePerGate(a, expected);
    var x, y := Collect(a, Admitted(a)), Collect(b, Admitted(b));
    forall g
      ensures Unexpected(x, expected)(g) == Unexpected(y, expected)(g)
    {
      SameUnexpected(x, y, expected, g);
    }
    CollectAgrees(OPINION_GATES, Unexpected(x, expected), Unexpected(y, expected));
    forall g
      ensures Mentions(AllMalformed(a, expected), g) <==> Mentions(AllMalformed(b, expected), g)
    {
      MentionsPermute(AllMalformed(a, expected), AllMalformed(b, expected), g);
    }
  }

  lemma SameUnexpected(x: seq<Report>, y: seq<Report>, expected: seq<GateName>, g: OpinionGate)
    requires multiset(x) == multiset(y) && OnePerGate(x)
    ensures Unexpected(x, expected)(g) == Unexpected(y, expected)(g)
  {
    hide Lookup;
    SameLookup(x, y, Opinion(g));
  }

  // ----- Cross-gate flags -----

  lemma CitingIsASet(a: seq<Report>, b: seq<Report>, ref: string)
    requires Elements(a) == Elements(b)
    ensures Citing(a, ref) == Citing(b, ref)
  {
    assert forall r :: r in a <==> r in Elements(a);
    assert forall r :: r in b <==> r in Elements(b);
  }

  lemma FlagsPermute(a: seq<Report>, b: seq<Report>)
    requires multiset(a) == multiset(b)
    ensures multiset(Flagged(a)) == multiset(Flagged(b))
  {
    var refs, refs' := Collect(a, RefsIn), Collect(b, RefsIn);
    SameMembers(a, b);
    CollectPermutes(a, b, RefsIn);
    SameMembers(refs, refs');
    DedupIsDistinct(refs);
    DedupIsDistinct(refs');
    forall x
      ensures x in Dedup(refs) <==> x in Dedup(refs')
    {
      assert x in refs <==> x in Elements(refs);
      assert x in refs' <==> x in Elements(refs');
    }
    DistinctPermute(Dedup(refs), Dedup(refs'));
    forall ref
      ensures FlagFor(a)(ref) == FlagFor(b)(ref)
    {
      CitingIsASet(a, b, ref);
    }
    CollectPermutes(Dedup(refs), Dedup(refs'), FlagFor(a));
    CollectAgrees(Dedup(refs'), FlagFor(a), FlagFor(b));
  }

  // ----- Main result -----

  /** The same report up to the order in which its findings, flags and complaints are listed. */
  ghost predicate SameUpToOrder(x: GateReport, y: GateReport) {
    && x.(blockingFindings := [], malformed := [], crossGateFlags := [])
       == y.(blockingFindings := [], malformed := [], crossGateFlags := [])
    && multiset(x.blockingFindings) == multiset(y.blockingFindings)
    && multiset(x.malformed) == multiset(y.malformed)
    && multiset(x.crossGateFlags) == multiset(y.crossGateFlags)
  }

  /** Permuting the reports changes neither the decision, the scores, the gap nor the self-declared N/A; the
      complaints are the same multiset; and the flags are equal whenever no two flagged references tie. */
  lemma PermutationInvariant(round: int, expected: seq<GateName>, a: seq<Report>, b: seq<Report>,
                             ciRun: Option<CiRun>, headSha: Option<string>, collate: string -> real)
    requires multiset(a) == multiset(b)
    ensures var x, y := Reduced(round, expected, a, ciRun, headSha, collate),
                        Reduced(round, expected, b, ciRun, headSha, collate);
            && (x.Ok? <==> y.Ok?)
            && (x.Ok? ==> SameUpToOrder(x.value, y.value))
            && ((x.Ok? && NoTies(Flagged(Kept(a, expected)), ByRef(collate)))
                ==> x.value.crossGateFlags == y.value.crossGateFlags)
  {
    var k, k' := Kept(a, expected), Kept(b, expected);
    SameReadsNull(a, b, expected);
    SameByGate(a, b, expected);
    KeptPermutes(a, b, expected);
    MalformedPermutes(a, b, expected);
    SameMembers(AllMalformed(a, expected), AllMalformed(b, expected));
    CollectPermutes(k, k', BlockingIn);
    SameMembers(Collect(k, BlockingIn), Collect(k', BlockingIn));
    FlagsPermute(k, k');
    SortSorts(Flagged(k), ByRef(collate));
    SortSorts(Flagged(k'), ByRef(collate));
    if NoTies(Flagged(k), ByRef(collate)) {
      NoTiesNoOrder(Flagged(k), Flagged(k'), ByRef(collate));
    }
  }

  lemma SameReadsNull(a: seq<Report>, b: seq<Report>, expected: seq<GateName>)
    requires multiset(a) == multiset(b)
    ensures ReadsNull(Kept(a, expected)) <==> ReadsNull(Kept(b, expected))
  {
    var k, k' := Kept(a, expected), Kept(b, expected);
    KeptPermutes(a, b, expected);
    SameMembers(k, k');
    assert ReadsNull(k) <==> exists r :: r in Elements(k) && NullFinding in FindingsOf(r);
    assert ReadsNull(k') <==> exists r :: r in Elements(k') && NullFinding in FindingsOf(r);
  }

  lemma SameKeptLookup(a: seq<Report>, b: seq<Report>, expected: seq<GateName>)
    requires multiset(a) == multiset(b)
    ensures forall g :: Lookup(Kept(a, expected), g) == Lookup(Kept(b, expected), g)
  {
    var k, k' := Kept(a, expected), Kept(b, expected);
    KeptPermutes(a, b, expected);
    AdmittedOnePerGate(a, expected);
    forall g
      ensures Lookup(k, g) == Lookup(k', g)
    {
      SameLookup(k, k', g);
    }
  }

  lemma SameGaps(k: seq<Report>, k': seq<Report>, m: seq<Malformed>, m': seq<Malformed>, expected: seq<GateName>)
    requires forall g :: Lookup(k, g) == Lookup(k', g)
    requires forall g :: Mentions(m, g) <==> Mentions(m', g)
    ensures Collect(expected, SelfNaOf(k)) == Collect(expected, SelfNaOf(k'))
    ensures Collect(expected, GapOf(k, m)) == Collect(expected, GapOf(k', m'))
    ensures Scored(k) == Scored(k')
  {
    CollectAgrees(OPINION_GATES, ScoreEntry(k), ScoreEntry(k'));
    CollectAgrees(expected, GapOf(k, m), GapOf(k', m'));
    CollectAgrees(expected, SelfNaOf(k), SelfNaOf(k'));
  }

  lemma SameScores(k: seq<Report>, k': seq<Report>)
    requires forall g :: Lookup(k, g) == Lookup(k', g)
    ensures ScoresIn(k) == ScoresIn(k')
  {
  }

  /** What is looked up by gate is the same. */
  lemma SameByGate(a: seq<Report>, b: seq<Report>, expected: seq<GateName>)
    requires multiset(a) == multiset(b)
    ensures var k, k' := Kept(a, expected), Kept(b, expected);
            && ScoresIn(k) == ScoresIn(k') && Scored(k) == Scored(k')
            && (forall ciRun, headSha :: VerifierPass(k, ciRun, headSha) <==> VerifierPass(k', ciRun, headSha))
            && Collect(expected, SelfNaOf(k)) == Collect(expected, SelfNaOf(k'))
            && Collect(expected, GapOf(k, AllMalformed(a, expected)))
               == Collect(expected, GapOf(k', AllMalformed(b, expected)))
  {
    hide Kept, AllMalformed, Collect, ScoresIn, Scored, Mentions, SelfNaOf, GapOf, Lookup;
    MalformedPermutes(a, b, expected);
    SameKeptLookup(a, b, expected);
    SameScores(Kept(a, expected), Kept(b, expected));
    SameGaps(Kept(a, expected), Kept(b, expected), AllMalformed(a, expected), AllMalformed(b, expected), expected);
  }
}
