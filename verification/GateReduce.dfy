/** The reducer that turns the gate reports of one round into a decision. */
module GateReduce {
  import opened Prelude
  import opened GateSchema
  import opened Sorting

  datatype CiRun = CiRun(id: Option<string>, headSha: Option<string>, status: Option<string>,
                         conclusion: Option<string>)

  predicate NonEmpty(s: Option<string>) {
    s.Some? && s.value != ""
  }

  /** A completed, successful run with an id, on exactly the head under review. */
  predicate CiRunPasses(ciRun: Option<CiRun>, headSha: Option<string>) {
    && ciRun.Some? && NonEmpty(ciRun.value.id) && NonEmpty(headSha) && ciRun.value.headSha == headSha
    && ciRun.value.status == Some("completed") && ciRun.value.conclusion == Some("success")
  }

  datatype Malformed = Malformed(gate: GateName, problem: Problem, evidenceRef: Option<string>)

  datatype GapReason = WasMalformed | WasMissing

  datatype Gap = Gap(gate: GateName, reason: GapReason)

  datatype SelfNa = SelfNa(gate: GateName, reason: NaReason)

  datatype GateFinding = GateFinding(finding: Finding, gate: GateName)

  datatype Flag = Flag(ref: string, gates: seq<GateName>)

  datatype Decision = PassEligible | Block

  datatype Thrown = NullFindingRead

  datatype GateReport = GateReport(
    round: int, verifierPass: bool, gateScores: map<OpinionGate, Option<int>>, overallScore: Option<real>,
    lowestDimension: Option<int>, blockingFindings: seq<GateFinding>, gap: seq<Gap>, crossGateFlags: seq<Flag>,
    decision: Decision, malformed: seq<Malformed>, selfDeclaredNa: seq<SelfNa>)
  {
    predicate Incomplete() { |gap| > 0 }
  }

  // ----- What each field means -----

  function OfGate(g: GateName): Report -> seq<Report> {
    (r: Report) => if GateOf(r) == g then [r] else []
  }

  function Occurrences(reports: seq<Report>, g: GateName): nat {
    |Collect(reports, OfGate(g))|
  }

  /** Why a report is not counted: its gate reported more than once, or it is not well formed. */
  function Rejection(reports: seq<Report>, r: Report): Option<Problem> {
    if Occurrences(reports, GateOf(r)) > 1 then Some(DuplicateReport) else Validate(r)
  }

  function EvidenceOf(r: Report): Option<string> {
    if r.Report? then r.evidenceRef else None
  }

  function Rejected(reports: seq<Report>): Report -> seq<Malformed> {
    (r: Report) =>
      match Rejection(reports, r)
      case None => []
      case Some(p) => [Malformed(GateOf(r), p, EvidenceOf(r))]
  }

  function Admitted(reports: seq<Report>): Report -> seq<Report> {
    (r: Report) => if Rejection(reports, r).None? then [r] else []
  }

  predicate IsExpected(expected: seq<GateName>, r: Report) {
    !GateOf(r).Opinion? || GateOf(r) in expected
  }

  function Expected(expected: seq<GateName>): Report -> seq<Report> {
    (r: Report) => if IsExpected(expected, r) then [r] else []
  }

  /** The reports that count, in the order received. */
  function Kept(reports: seq<Report>, expected: seq<GateName>): seq<Report> {
    Collect(Collect(reports, Admitted(reports)), Expected(expected))
  }

  /** The report filed under `g`. */
  function Lookup(kept: seq<Report>, g: GateName): Option<Report> {
    if kept == [] then None
    else if GateOf(kept[|kept| - 1]) == g then Some(kept[|kept| - 1])
    else Lookup(kept[..|kept| - 1], g)
  }

  function Unexpected(admitted: seq<Report>, expected: seq<GateName>): OpinionGate -> seq<Malformed> {
    (g: OpinionGate) =>
      if Opinion(g) in expected then []
      else match Lookup(admitted, Opinion(g))
        case None => []
        case Some(r) => [Malformed(Opinion(g), UnexpectedGate, EvidenceOf(r))]
  }

  function AllMalformed(reports: seq<Report>, expected: seq<GateName>): seq<Malformed> {
    Collect(reports, Rejected(reports))
      + Collect(OPINION_GATES, Unexpected(Collect(reports, Admitted(reports)), expected))
  }

  function VerifierPass(kept: seq<Report>, ciRun: Option<CiRun>, headSha: Option<string>): bool {
    match Lookup(kept, Verifier)
    case None => CiRunPasses(ciRun, headSha)
    case Some(r) =>
      !(r.Report? && r.verdict == Fail) && ((r.Report? && r.verdict == Pass) || CiRunPasses(ciRun, headSha))
  }

  function ScoreOf(r: Option<Report>): Option<int> {
    if r.Some? && r.value.Report? && (r.value.verdict == Pass || r.value.verdict == Fail) && r.value.score.Integer?
    then Some(r.value.score.value) else None
  }

  function ScoresIn(kept: seq<Report>): map<OpinionGate, Option<int>> {
    map g | g in OPINION_GATES :: ScoreOf(Lookup(kept, Opinion(g)))
  }

  function ScoreEntry(kept: seq<Report>): OpinionGate -> seq<int> {
    (g: OpinionGate) => match ScoreOf(Lookup(kept, Opinion(g))) case None => [] case Some(n) => [n]
  }

  /** The scores that enter the mean, in gate order. */
  function Scored(kept: seq<Report>): seq<int> {
    Collect(OPINION_GATES, ScoreEntry(kept))
  }

  function Min(s: seq<int>): int
    requires s != []
  {
    if |s| == 1 then s[0]
    else
      var m := Min(s[..|s| - 1]);
      if s[|s| - 1] < m then s[|s| - 1] else m
  }

  function Mean(s: seq<int>): Option<real> {
    if s == [] then None else Some(Sum(s) as real / |s| as real)
  }

  function Lowest(s: seq<int>): Option<int> {
    if s == [] then None else Some(Min(s))
  }

  function SelfNaOf(kept: seq<Report>): GateName -> seq<SelfNa> {
    (g: GateName) =>
      match Lookup(kept, g)
      case None => []
      case Some(r) => if r.Report? && r.verdict == NotApplicable then [SelfNa(g, r.naReason)] else []
  }

  predicate Contributes(r: Option<Report>) {
    r.Some? && r.value.Report? && r.value.verdict in {Pass, Fail, NotApplicable}
  }

  predicate Mentions(malformed: seq<Malformed>, g: GateName) {
    exists i :: 0 <= i < |malformed| && malformed[i].gate == g
  }

  function GapOf(kept: seq<Report>, malformed: seq<Malformed>): GateName -> seq<Gap> {
    (g: GateName) =>
      if Contributes(Lookup(kept, g)) then []
      else [Gap(g, if Mentions(malformed, g) then WasMalformed else WasMissing)]
  }

  function FindingsOf(r: Report): seq<Finding> {
    if r.Report? && r.findings.Some? then r.findings.value else []
  }

  predicate ReadsNull(kept: seq<Report>) {
    exists i :: 0 <= i < |kept| && NullFinding in FindingsOf(kept[i])
  }

  function BlockingEntry(g: GateName): Finding -> seq<GateFinding> {
    (f: Finding) => if IsBlocking(f) then [GateFinding(f, g)] else []
  }

  function BlockingIn(r: Report): seq<GateFinding> {
    Collect(FindingsOf(r), BlockingEntry(GateOf(r)))
  }

  function RefEntry(f: Finding): seq<string> {
    if f.Finding? && f.ref != "" then [f.ref] else []
  }

  function RefsIn(r: Report): seq<string> {
    Collect(FindingsOf(r), RefEntry)
  }

  function Citing(kept: seq<Report>, ref: string): set<GateName> {
    set r | r in kept && ref in RefsIn(r) :: GateOf(r)
  }

  /** The gates as text, in the order in which `sort` puts their names. */
  const ALPHABETICAL := [Opinion(CodeReviewer), Opinion(RedHat), Opinion(Security), Opinion(Tester), Verifier]

  function InOrder(gates: set<GateName>): seq<GateName> {
    Collect(ALPHABETICAL, (g: GateName) => if g in gates then [g] else [])
  }

  function FlagFor(kept: seq<Report>): string -> seq<Flag> {
    (ref: string) => if |Citing(kept, ref)| >= 2 then [Flag(ref, InOrder(Citing(kept, ref)))] else []
  }

  function Flagged(kept: seq<Report>): seq<Flag> {
    Collect(Dedup(Collect(kept, RefsIn)), FlagFor(kept))
  }

  /** The collation of the host: `collate` ranks strings, and different strings may rank equal. */
  function ByRef(collate: string -> real): (Flag, Flag) -> bool {
    (a: Flag, b: Flag) => collate(a.ref) <= collate(b.ref)
  }

  function DecisionOf(verifierPass: bool, blocking: nat, malformed: nat, scores: seq<int>): Decision {
    if !verifierPass || blocking > 0 || malformed > 0 || scores == [] || Mean(scores).value < 4.0 || Min(scores) < 3
    then Block else PassEligible
  }

  /** The report concluded from the reports that count and the complaints about the others. */
  function Concluded(round: int, expected: seq<GateName>, kept: seq<Report>, malformed: seq<Malformed>,
                     ciRun: Option<CiRun>, headSha: Option<string>, collate: string -> real)
    : Result<GateReport, Thrown>
  {
    if ReadsNull(kept) then Err(NullFindingRead)
    else
      var pass, scores := VerifierPass(kept, ciRun, headSha), Scored(kept);
      var blocking := Collect(kept, BlockingIn);
      Ok(GateReport(round, pass, ScoresIn(kept), Mean(scores), Lowest(scores), blocking,
                    Collect(expected, GapOf(kept, malformed)), Sort(Flagged(kept), ByRef(collate)),
                    DecisionOf(pass, |blocking|, |malformed|, scores), malformed, Collect(expected, SelfNaOf(kept))))
  }

  function Reduced(round: int, expected: seq<GateName>, reports: seq<Report>, ciRun: Option<CiRun>,
                   headSha: Option<string>, collate: string -> real): Result<GateReport, Thrown> {
    Concluded(round, expected, Kept(reports, expected), AllMalformed(reports, expected), ciRun, headSha, collate)
  }

  // ----- The loops -----

  method CountGates(reports: seq<Report>) returns (seenCounts: map<GateName, nat>)
    ensures forall g :: (if g in seenCounts then seenCounts[g] else 0) == Occurrences(reports, g)
  {
    seenCounts := map[];
    for i := 0 to |reports|
      invariant forall g :: (if g in seenCounts then seenCounts[g] else 0) == Occurrences(reports[..i], g)
    {
      var gateName := GateOf(reports[i]);
      forall g
        ensures Occurrences(reports[..i + 1], g) == Occurrences(reports[..i], g) + if g == gateName then 1 else 0
      {
        CollectNext(reports, i, OfGate(g));
      }
      seenCounts := seenCounts[gateName := (if gateName in seenCounts then seenCounts[gateName] else 0) + 1];
    }
    assert reports[..|reports|] == reports;
  }

  /** Files every report under its gate, or lists what is wrong with it.  `byGate` holds the values of the
      map in insertion order; each is filed under its own gate. */
  method Admit(reports: seq<Report>) returns (malformed: seq<Malformed>, byGate: seq<Report>)
    ensures malformed == Collect(reports, Rejected(reports)) && byGate == Collect(reports, Admitted(reports))
  {
    var seenCounts := CountGates(reports);
    malformed, byGate := [], [];
    for i := 0 to |reports|
      invariant malformed == Collect(reports[..i], Rejected(reports))
      invariant byGate == Collect(reports[..i], Admitted(reports))
    {
      CollectNext(reports, i, Rejected(reports));
      CollectNext(reports, i, Admitted(reports));
      var report, gateName := reports[i], GateOf(reports[i]);
      var duplicate := gateName in seenCounts && seenCounts[gateName] > 1;
      if duplicate {
        malformed := malformed + [Malformed(gateName, DuplicateReport, EvidenceOf(report))];
        continue;
      }
      var problem := Validate(report);
      if problem.Some? {
        malformed := malformed + [Malformed(gateName, problem.value, EvidenceOf(report))];
        continue;
      }
      byGate := byGate + [report];
    }
    assert reports[..|reports|] == reports;
  }

  function Without(g: GateName): Report -> seq<Report> {
    (r: Report) => if GateOf(r) == g then [] else [r]
  }

  /** What is left when the first `n` opinion gates have been looked at. */
  function LeftAfter(expected: seq<GateName>, n: nat): Report -> seq<Report> {
    (r: Report) => if GateOf(r).Opinion? && GateOf(r) !in expected && Rank(GateOf(r).gate) < n then [] else [r]
  }

  lemma DropOne(s: seq<Report>, expected: seq<GateName>, g: OpinionGate)
    ensures Opinion(g) in expected ==>
              Collect(s, LeftAfter(expected, Rank(g) + 1)) == Collect(s, LeftAfter(expected, Rank(g)))
    ensures Opinion(g) !in expected ==>
              Collect(s, LeftAfter(expected, Rank(g) + 1))
                == Collect(Collect(s, LeftAfter(expected, Rank(g))), Without(Opinion(g)))
  {
    var f, next := LeftAfter(expected, Rank(g)), LeftAfter(expected, Rank(g) + 1);
    if Opinion(g) in expected {
      CollectAgrees(s, next, f);
    } else {
      forall r | r in s
        ensures next(r) == Collect(f(r), Without(Opinion(g)))
      {
        CollectOne(r, Without(Opinion(g)));
      }
      CollectTwice(s, f, Without(Opinion(g)), next);
    }
  }

  lemma LookupNext(s: seq<Report>, x: Report, g: GateName)
    ensures Lookup(s + [x], g) == if GateOf(x) == g then Some(x) else Lookup(s, g)
  {
    assert (s + [x])[..|s|] == s;
  }

  lemma OtherIsDropped(expected: seq<GateName>, g: OpinionGate, x: Report)
    ensures LeftAfter(expected, Rank(g))(x) == [x] || (LeftAfter(expected, Rank(g))(x) == [] && GateOf(x) != Opinion(g))
  {
  }

  lemma {:induction false} NotDroppedYet(s: seq<Report>, expected: seq<GateName>, g: OpinionGate)
    ensures Lookup(Collect(s, LeftAfter(expected, Rank(g))), Opinion(g)) == Lookup(s, Opinion(g))
  {
    if s != [] {
      hide Lookup, LeftAfter;
      var init, x, f := s[..|s| - 1], s[|s| - 1], LeftAfter(expected, Rank(g));
      NotDroppedYet(init, expected, g);
      assert s == init + [x];
      LookupNext(init, x, Opinion(g));
      LookupNext(Collect(init, f), x, Opinion(g));
      OtherIsDropped(expected, g, x);
      assert f(x) == [] ==> Collect(init, f) + f(x) == Collect(init, f);
    }
  }

  lemma {:induction false} NothingToDrop(s: seq<Report>, g: GateName)
    requires Lookup(s, g).None?
    ensures Collect(s, Without(g)) == s
  {
    if s != [] {
      hide Lookup;
      var init, x := s[..|s| - 1], s[|s| - 1];
      assert s == init + [x];
      LookupNext(init, x, g);
      NothingToDrop(init, g);
    }
  }

  lemma AllLookedAt(s: seq<Report>, expected: seq<GateName>)
    ensures Collect(s, LeftAfter(expected, |OPINION_GATES|)) == Collect(s, Expected(expected))
    ensures Collect(s, LeftAfter(expected, 0)) == s
  {
    hide Collect;
    forall r: Report
      ensures LeftAfter(expected, |OPINION_GATES|)(r) == Expected(expected)(r)
      ensures LeftAfter(expected, 0)(r) == [r]
    {
    }
    CollectAgrees(s, LeftAfter(expected, |OPINION_GATES|), Expected(expected));
    CollectAll(s, LeftAfter(expected, 0));
  }

  /** A report from an opinion gate that was not expected is taken out again and listed as malformed. */
  method DropUnexpected(expected: seq<GateName>, admitted: seq<Report>)
    returns (malformed: seq<Malformed>, byGate: seq<Report>)
    ensures malformed == Collect(OPINION_GATES, Unexpected(admitted, expected))
    ensures byGate == Collect(admitted, Expected(expected))
  {
    malformed, byGate := [], admitted;
    AllLookedAt(admitted, expected);
    for i := 0 to |OPINION_GATES|
      invariant malformed == Collect(OPINION_GATES[..i], Unexpected(admitted, expected))
      invariant byGate == Collect(admitted, LeftAfter(expected, i))
    {
      var gate := OPINION_GATES[i];
      CollectNext(OPINION_GATES, i, Unexpected(admitted, expected));
      assert Rank(gate) == i;
      DropOne(admitted, expected, gate);
      NotDroppedYet(admitted, expected, gate);
      if Opinion(gate) in expected { continue; }
      var report := Lookup(byGate, Opinion(gate));
      if report.None? {
        NothingToDrop(byGate, Opinion(gate));
        continue;
      }
      malformed := malformed + [Malformed(Opinion(gate), UnexpectedGate, EvidenceOf(report.value))];
      byGate := Collect(byGate, Without(Opinion(gate)));
    }
    assert OPINION_GATES[..|OPINION_GATES|] == OPINION_GATES;
  }

  method ScoreByGate(byGate: seq<Report>) returns (gateScores: map<OpinionGate, Option<int>>)
    ensures gateScores == ScoresIn(byGate)
  {
    hide ScoreOf, Lookup;
    gateScores := map g | g in OPINION_GATES :: None;
    for i := 0 to |OPINION_GATES|
      invariant gateScores.Keys == ScoresIn(byGate).Keys
      invariant forall g :: g in gateScores ==>
                  gateScores[g] == if Rank(g) < i then ScoreOf(Lookup(byGate, Opinion(g))) else None
    {
      var gate := OPINION_GATES[i];
      assert Rank(gate) == i;
      var score := ScoreOf(Lookup(byGate, Opinion(gate)));
      if score.Some? {
        gateScores := gateScores[gate := score];
      }
    }
  }

  method CollectScores(byGate: seq<Report>) returns (scoredGates: seq<int>)
    ensures scoredGates == Scored(byGate)
  {
    scoredGates := [];
    for i := 0 to |OPINION_GATES|
      invariant scoredGates == Collect(OPINION_GATES[..i], ScoreEntry(byGate))
    {
      CollectNext(OPINION_GATES, i, ScoreEntry(byGate));
      var score := ScoreOf(Lookup(byGate, Opinion(OPINION_GATES[i])));
      if score.Some? {
        scoredGates := scoredGates + [score.value];
      }
    }
    assert OPINION_GATES[..|OPINION_GATES|] == OPINION_GATES;
  }

  method SelfDeclared(expected: seq<GateName>, byGate: seq<Report>) returns (selfDeclaredNa: seq<SelfNa>)
    ensures selfDeclaredNa == Collect(expected, SelfNaOf(byGate))
  {
    selfDeclaredNa := [];
    for i := 0 to |expected|
      invariant selfDeclaredNa == Collect(expected[..i], SelfNaOf(byGate))
    {
      CollectNext(expected, i, SelfNaOf(byGate));
      var report := Lookup(byGate, expected[i]);
      if report.Some? && report.value.Report? && report.value.verdict == NotApplicable {
        selfDeclaredNa := selfDeclaredNa + [SelfNa(expected[i], report.value.naReason)];
      }
    }
    assert expected[..|expected|] == expected;
  }

  method FindGaps(expected: seq<GateName>, byGate: seq<Report>, malformed: seq<Malformed>) returns (gap: seq<Gap>)
    ensures gap == Collect(expected, GapOf(byGate, malformed))
  {
    gap := [];
    for i := 0 to |expected|
      invariant gap == Collect(expected[..i], GapOf(byGate, malformed))
    {
      CollectNext(expected, i, GapOf(byGate, malformed));
      var gate := expected[i];
      var wasMalformed := exists m :: 0 <= m < |malformed| && malformed[m].gate == gate;
      if Contributes(Lookup(byGate, gate)) { continue; }
      gap := gap + [Gap(gate, if wasMalformed then WasMalformed else WasMissing)];
    }
    assert expected[..|expected|] == expected;
  }

  /** None when reading a null finding throws. */
  method BlockingFindingsIn(report: Report) returns (r: Option<seq<GateFinding>>)
    ensures r == if NullFinding in FindingsOf(report) then None else Some(BlockingIn(report))
  {
    var found: seq<GateFinding> := [];
    var findings := FindingsOf(report);
    for j := 0 to |findings|
      invariant found == Collect(findings[..j], BlockingEntry(GateOf(report)))
      invariant NullFinding !in findings[..j]
    {
      CollectNext(findings, j, BlockingEntry(GateOf(report)));
      if findings[j] == NullFinding { return None; }
      if findings[j].severity == Blocking {
        found := found + [GateFinding(findings[j], GateOf(report))];
      }
    }
    assert findings[..|findings|] == findings;
    return Some(found);
  }

  method BlockingFindings(byGate: seq<Report>) returns (r: Option<seq<GateFinding>>)
    ensures r.None? <==> ReadsNull(byGate)
    ensures r.Some? ==> r.value == Collect(byGate, BlockingIn)
  {
    hide FindingsOf, BlockingIn;
    var blockingFindings: seq<GateFinding> := [];
    for i := 0 to |byGate|
      invariant blockingFindings == Collect(byGate[..i], BlockingIn)
      invariant forall k :: 0 <= k < i ==> NullFinding !in FindingsOf(byGate[k])
    {
      CollectNext(byGate, i, BlockingIn);
      var found := BlockingFindingsIn(byGate[i]);
      if found.None? { return None; }
      blockingFindings := blockingFindings + found.value;
    }
    assert byGate[..|byGate|] == byGate;
    return Some(blockingFindings);
  }

  lemma CitingNext(before: seq<Report>, r: Report, ref: string)
    ensures Citing(before + [r], ref) == Citing(before, ref) + if ref in RefsIn(r) then {GateOf(r)} else {}
  {
    assert forall x :: x in before + [r] <==> x in before || x == r;
  }

  function CitedBy(byRef: map<string, set<GateName>>, ref: string): set<GateName> {
    if ref in byRef then byRef[ref] else {}
  }

  function CiteRef(byRef: map<string, set<GateName>>, ref: string, g: GateName): map<string, set<GateName>> {
    byRef[ref := CitedBy(byRef, ref) + {g}]
  }

  function CiteRefs(byRef: map<string, set<GateName>>, refs: seq<string>, g: GateName): map<string, set<GateName>> {
    if refs == [] then byRef else CiteRef(CiteRefs(byRef, refs[..|refs| - 1], g), refs[|refs| - 1], g)
  }

  function CiteReports(byGate: seq<Report>): map<string, set<GateName>> {
    if byGate == [] then map[]
    else
      var r := byGate[|byGate| - 1];
      CiteRefs(CiteReports(byGate[..|byGate| - 1]), RefsIn(r), GateOf(r))
  }

  lemma CiteRefIs(byRef: map<string, set<GateName>>, ref: string, g: GateName, x: string)
    ensures CitedBy(CiteRef(byRef, ref, g), x) == CitedBy(byRef, x) + if x == ref then {g} else {}
  {
  }

  lemma {:induction false} CiteRefsIs(byRef: map<string, set<GateName>>, refs: seq<string>, g: GateName, x: string)
    ensures CitedBy(CiteRefs(byRef, refs, g), x) == CitedBy(byRef, x) + if x in refs then {g} else {}
    ensures x in CiteRefs(byRef, refs, g) <==> x in byRef || x in refs
  {
    if refs != [] {
      var init, last := refs[..|refs| - 1], refs[|refs| - 1];
      assert refs == init + [last];
      CiteRefsIs(byRef, init, g, x);
      CiteRefIs(CiteRefs(byRef, init, g), last, g, x);
    }
  }

  lemma {:induction false} CiteReportsIs(byGate: seq<Report>, x: string)
    ensures CitedBy(CiteReports(byGate), x) == Citing(byGate, x)
    ensures x in CiteReports(byGate) <==> x in Collect(byGate, RefsIn)
  {
    if byGate != [] {
      var init, r := byGate[..|byGate| - 1], byGate[|byGate| - 1];
      assert byGate == init + [r];
      CiteReportsIs(init, x);
      CiteRefsIs(CiteReports(init), RefsIn(r), GateOf(r), x);
      CitingNext(init, r, x);
    }
  }

  lemma CiteStep(byRef0: map<string, set<GateName>>, cited: seq<string>, seen: seq<string>, ref: string, g: GateName)
    requires forall x :: x in byRef0 <==> x in cited
    ensures var byRef := CiteRefs(byRef0, seen, g);
            && CiteRefs(byRef0, seen + [ref], g) == CiteRef(byRef, ref, g)
            && Dedup(cited + (seen + [ref])) == Dedup(cited + seen) + if ref in byRef then [] else [ref]
  {
    assert (seen + [ref])[..|seen|] == seen;
    assert cited + (seen + [ref]) == cited + seen + [ref];
    CiteRefsIs(byRef0, seen, g, ref);
    DedupNext(cited + seen, ref);
  }

  /** The citations of one report, on top of those of the reports before it. */
  method CiteFrom(report: Report, byRef0: map<string, set<GateName>>, ghost cited: seq<string>, order0: seq<string>)
    returns (byRef: map<string, set<GateName>>, order: seq<string>)
    requires NullFinding !in FindingsOf(report)
    requires order0 == Dedup(cited) && forall x :: x in byRef0 <==> x in cited
    ensures order == Dedup(cited + RefsIn(report)) && byRef == CiteRefs(byRef0, RefsIn(report), GateOf(report))
  {
    byRef, order := byRef0, order0;
    var findings := FindingsOf(report);
    ghost var seen: seq<string> := [];
    assert cited + seen == cited;
    for j := 0 to |findings|
      invariant seen == Collect(findings[..j], RefEntry)
      invariant order == Dedup(cited + seen)
      invariant byRef == CiteRefs(byRef0, seen, GateOf(report))
    {
      CollectNext(findings, j, RefEntry);
      var ref := findings[j].ref;
      if ref == "" { continue; }
      CiteStep(byRef0, cited, seen, ref, GateOf(report));
      if ref !in byRef {
        order := order + [ref];
      }
      byRef := CiteRef(byRef, ref, GateOf(report));
      seen := seen + [ref];
    }
    assert findings[..|findings|] == findings;
  }

  /** The gates that cite each reference, references in the order of their first citation. */
  method CitationsByRef(byGate: seq<Report>) returns (byRef: map<string, set<GateName>>, order: seq<string>)
    requires !ReadsNull(byGate)
    ensures order == Dedup(Collect(byGate, RefsIn)) && byRef == CiteReports(byGate)
  {
    byRef, order := map[], [];
    for i := 0 to |byGate|
      invariant order == Dedup(Collect(byGate[..i], RefsIn))
      invariant byRef == CiteReports(byGate[..i])
    {
      forall x
        ensures x in byRef <==> x in Collect(byGate[..i], RefsIn)
      {
        CiteReportsIs(byGate[..i], x);
      }
      byRef, order := CiteFrom(byGate[i], byRef, Collect(byGate[..i], RefsIn), order);
      CollectNext(byGate, i, RefsIn);
      assert byGate[..i + 1][..i] == byGate[..i];
    }
    assert byGate[..|byGate|] == byGate;
  }

  method CrossGateFlags(byGate: seq<Report>, collate: string -> real) returns (crossGateFlags: seq<Flag>)
    requires !ReadsNull(byGate)
    ensures crossGateFlags == Sort(Flagged(byGate), ByRef(collate))
  {
    var byRef, order := CitationsByRef(byGate);
    crossGateFlags := [];
    for i := 0 to |order|
      invariant crossGateFlags == Collect(order[..i], FlagFor(byGate))
    {
      CollectNext(order, i, FlagFor(byGate));
      var gates := if order[i] in byRef then byRef[order[i]] else {};
      CiteReportsIs(byGate, order[i]);
      if |gates| >= 2 {
        crossGateFlags := crossGateFlags + [Flag(order[i], InOrder(gates))];
      }
    }
    assert order[..|order|] == order;
    crossGateFlags := Sort(crossGateFlags, ByRef(collate));
  }

  method ReduceGateReport(round: int, expectedOpinionGates: seq<GateName>, reports: seq<Report>,
                          ciRun: Option<CiRun>, headSha: Option<string>, collate: string -> real)
    returns (r: Result<GateReport, Thrown>)
    ensures r == Reduced(round, expectedOpinionGates, reports, ciRun, headSha, collate)
  {
    var malformed, admitted := Admit(reports);
    var unexpected, byGate := DropUnexpected(expectedOpinionGates, admitted);
    r := Conclude(round, expectedOpinionGates, byGate, malformed + unexpected, ciRun, headSha, collate);
  }

  method Decide(verifierPass: bool, blocking: nat, malformed: nat, scoredGates: seq<int>) returns (decision: Decision)
    ensures decision == DecisionOf(verifierPass, blocking, malformed, scoredGates)
  {
    decision := PassEligible;
    if !verifierPass || blocking > 0 || malformed > 0 || scoredGates == []
       || Mean(scoredGates).value < 4.0 || Min(scoredGates) < 3 {
      decision := Block;
    }
  }

  method Conclude(round: int, expectedOpinionGates: seq<GateName>, byGate: seq<Report>, malformed: seq<Malformed>,
                  ciRun: Option<CiRun>, headSha: Option<string>, collate: string -> real)
    returns (r: Result<GateReport, Thrown>)
    ensures r == Concluded(round, expectedOpinionGates, byGate, malformed, ciRun, headSha, collate)
  {
    hide Collect, Sort, Flagged, ScoresIn, Scored, Lookup, ReadsNull, CiRunPasses, GapOf, SelfNaOf, ByRef, BlockingIn,
      DecisionOf, Mean, Lowest;
    var verifierReport := Lookup(byGate, Verifier);
    var ciRunPass := CiRunPasses(ciRun, headSha);
    var localFail := verifierReport.Some? && verifierReport.value.Report? && verifierReport.value.verdict == Fail;
    var localPass := verifierReport.Some? && verifierReport.value.Report? && verifierReport.value.verdict == Pass;
    var verifierPass := !localFail && (localPass || ciRunPass);
    assert verifierPass == VerifierPass(byGate, ciRun, headSha);
    var gateScores := ScoreByGate(byGate);
    var scoredGates := CollectScores(byGate);
    var selfDeclaredNa := SelfDeclared(expectedOpinionGates, byGate);
    var gap := FindGaps(expectedOpinionGates, byGate, malformed);
    var blockingFindings := BlockingFindings(byGate);
    if blockingFindings.None? { return Err(NullFindingRead); }
    var crossGateFlags := CrossGateFlags(byGate, collate);
    var decision := Decide(verifierPass, |blockingFindings.value|, |malformed|, scoredGates);
    return Ok(GateReport(round, verifierPass, gateScores, Mean(scoredGates), Lowest(scoredGates),
                         blockingFindings.value, gap, crossGateFlags, decision, malformed, selfDeclaredNa));
  }
}
