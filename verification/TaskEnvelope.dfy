/** Where each expected gate stands in a reduced round, and the task-run status projected from it. */
module TaskEnvelope {
  import opened Prelude
  import opened GateSchema
  import opened GateReduce
  import opened GateReduceLaws

  datatype Standing = IsScored(score: int) | DeclaredNa | GapMalformed | GapMissing

  /** Said about the reports as received: missing when no report names the gate, malformed when several do or
      the one that does is not well formed, else what that one report says. */
  ghost function StandingOf(reports: seq<Report>, g: GateName): Standing {
    var own := Collect(reports, OfGate(g));
    if own == [] then GapMissing
    else if |own| > 1 || Validate(own[0]).Some? || own[0].NotAnObject? then GapMalformed
    else if own[0].verdict == NotApplicable then DeclaredNa
    else if own[0].score.Integer? then IsScored(own[0].score.value)
    else GapMalformed
  }

  lemma ListedIfRejected(reports: seq<Report>, expected: seq<GateName>, r: Report)
    requires r in reports && Rejection(reports, r).Some?
    ensures Mentions(AllMalformed(reports, expected), GateOf(r))
  {
    var m := Malformed(GateOf(r), Rejection(reports, r).value, EvidenceOf(r));
    CollectMember(reports, Rejected(reports), m);
    var rejected := Collect(reports, Rejected(reports));
    var i :| 0 <= i < |rejected| && rejected[i] == m;
    assert AllMalformed(reports, expected)[i] == m;
  }

  lemma RejectedIfListed(reports: seq<Report>, expected: seq<GateName>, g: GateName)
    requires g in expected && Mentions(AllMalformed(reports, expected), g)
    ensures exists r :: r in reports && GateOf(r) == g && Rejection(reports, r).Some?
  {
    hide Rejection, Collect, Admitted;
    var unexpected := Unexpected(Collect(reports, Admitted(reports)), expected);
    var all := AllMalformed(reports, expected);
    var i :| 0 <= i < |all| && all[i].gate == g;
    var m := all[i];
    CollectMember(reports, Rejected(reports), m);
    CollectMember(OPINION_GATES, unexpected, m);
    var k :| 0 <= k < |reports| && m in Rejected(reports)(reports[k]);
    assert reports[k] in reports;
  }

  lemma NotFiled(reports: seq<Report>, expected: seq<GateName>, g: GateName)
    requires forall r :: r in reports && GateOf(r) == g ==> Rejection(reports, r).Some?
    ensures Lookup(Kept(reports, expected), g) == None
  {
    LookupHolds(Kept(reports, expected), g);
    if Lookup(Kept(reports, expected), g).Some? {
      KeptMember(reports, expected, Lookup(Kept(reports, expected), g).value);
    }
  }

  /** The report filed under an expected gate, and whether the gate is listed as malformed. */
  ghost predicate Stands(filed: Option<Report>, listed: bool, standing: Standing) {
    match standing
    case IsScored(n) =>
      filed.Some? && filed.value.Report? && filed.value.verdict in {Pass, Fail} && ScoreOf(filed) == Some(n)
    case DeclaredNa => filed.Some? && filed.value.Report? && filed.value.verdict == NotApplicable
    case GapMalformed => filed.None? && listed
    case GapMissing => filed.None? && !listed
  }

  lemma RejectedGateStands(reports: seq<Report>, expected: seq<GateName>, g: GateName)
    requires g in expected && forall r :: r in reports && GateOf(r) == g ==> Rejection(reports, r).Some?
    ensures Lookup(Kept(reports, expected), g).None?
    ensures Mentions(AllMalformed(reports, expected), g) <==> exists r :: r in reports && GateOf(r) == g
  {
    NotFiled(reports, expected, g);
    if Mentions(AllMalformed(reports, expected), g) { RejectedIfListed(reports, expected, g); }
    if exists r :: r in reports && GateOf(r) == g {
      var r :| r in reports && GateOf(r) == g;
      ListedIfRejected(reports, expected, r);
    }
  }

  lemma CountedGateStands(reports: seq<Report>, expected: seq<GateName>, r: Report)
    requires r in reports && IsExpected(expected, r) && Rejection(reports, r).None?
    ensures Lookup(Kept(reports, expected), GateOf(r)) == Some(r) && WellFormed(r)
  {
    KeptMember(reports, expected, r);
    AdmittedOnePerGate(reports, expected);
    assert Occurrences(Kept(reports, expected), GateOf(r)) <= 1;
    LookupFound(Kept(reports, expected), GateOf(r), r);
    ValidIffWellFormed(r);
  }

  lemma StandingIsRight(reports: seq<Report>, expected: seq<GateName>, g: GateName)
    requires g in expected && g.Opinion?
    ensures Stands(Lookup(Kept(reports, expected), g), Mentions(AllMalformed(reports, expected), g),
                   StandingOf(reports, g))
  {
    var own := Collect(reports, OfGate(g));
    forall r
      ensures r in own <==> r in reports && GateOf(r) == g
    {
      OwnReports(reports, g, r);
    }
    if own == [] {
      RejectedGateStands(reports, expected, g);
    } else if |own| > 1 || Validate(own[0]).Some? {
      assert own[0] in reports;
      RejectedGateStands(reports, expected, g);
    } else {
      assert own[0] in own;
      CountedGateStands(reports, expected, own[0]);
    }
  }

  /** Each expected opinion gate is exactly one of scored, self-declared N/A, a malformed gap and a missing
      gap, and which one follows from its own reports alone. */
  lemma EachExpectedGateStandsOnce(round: int, expected: seq<GateName>, reports: seq<Report>, ciRun: Option<CiRun>,
                                   headSha: Option<string>, collate: string -> real, o: OpinionGate)
    requires Opinion(o) in expected
    ensures var x := Reduced(round, expected, reports, ciRun, headSha, collate);
            var g, standing := Opinion(o), StandingOf(reports, Opinion(o));
            x.Ok? ==>
              && x.value.gateScores[o] == (if standing.IsScored? then Some(standing.score) else None)
              && ((exists e :: e in x.value.selfDeclaredNa && e.gate == g) <==> standing == DeclaredNa)
              && (Gap(g, WasMalformed) in x.value.gap <==> standing == GapMalformed)
              && (Gap(g, WasMissing) in x.value.gap <==> standing == GapMissing)
  {
    StandsInLists(reports, expected, o);
    FieldsOf(round, expected, reports, ciRun, headSha, collate);
  }

  lemma FieldsOf(round: int, expected: seq<GateName>, reports: seq<Report>, ciRun: Option<CiRun>,
                 headSha: Option<string>, collate: string -> real)
    ensures var x := Reduced(round, expected, reports, ciRun, headSha, collate);
            x.Ok? ==>
              && x.value.gateScores == ScoresIn(Kept(reports, expected))
              && x.value.gap == Collect(expected, GapOf(Kept(reports, expected), AllMalformed(reports, expected)))
              && x.value.selfDeclaredNa == Collect(expected, SelfNaOf(Kept(reports, expected)))
  {
  }

  lemma StandsInLists(reports: seq<Report>, expected: seq<GateName>, o: OpinionGate)
    requires Opinion(o) in expected
    ensures var kept, malformed, g := Kept(reports, expected), AllMalformed(reports, expected), Opinion(o);
            var standing := StandingOf(reports, g);
            && o in ScoresIn(kept)
            && ScoresIn(kept)[o] == (if standing.IsScored? then Some(standing.score) else None)
            && ((exists e :: e in Collect(expected, SelfNaOf(kept)) && e.gate == g) <==> standing == DeclaredNa)
            && (Gap(g, WasMalformed) in Collect(expected, GapOf(kept, malformed)) <==> standing == GapMalformed)
            && (Gap(g, WasMissing) in Collect(expected, GapOf(kept, malformed)) <==> standing == GapMissing)
  {
    var kept, malformed := Kept(reports, expected), AllMalformed(reports, expected);
    StandingIsRight(reports, expected, Opinion(o));
    GapMember(expected, kept, malformed, Opinion(o));
    SelfNaMember(expected, kept, Opinion(o));
    ScoreListed(kept, o);
  }

  lemma ScoreListed(kept: seq<Report>, o: OpinionGate)
    ensures o in ScoresIn(kept) && ScoresIn(kept)[o] == ScoreOf(Lookup(kept, Opinion(o)))
  {
    assert OPINION_GATES[Rank(o)] == o;
  }

  lemma GapMember(expected: seq<GateName>, kept: seq<Report>, malformed: seq<Malformed>, g: GateName)
    requires g in expected
    ensures forall reason :: Gap(g, reason) in Collect(expected, GapOf(kept, malformed))
              <==> !Contributes(Lookup(kept, g)) && (reason == WasMalformed <==> Mentions(malformed, g))
  {
    forall reason
      ensures Gap(g, reason) in Collect(expected, GapOf(kept, malformed))
         <==> !Contributes(Lookup(kept, g)) && (reason == WasMalformed <==> Mentions(malformed, g))
    {
      CollectMember(expected, GapOf(kept, malformed), Gap(g, reason));
      var i :| 0 <= i < |expected| && expected[i] == g;
      assert Gap(g, reason) in GapOf(kept, malformed)(g)
        <==> !Contributes(Lookup(kept, g)) && (reason == WasMalformed <==> Mentions(malformed, g));
    }
  }

  lemma SelfNaMember(expected: seq<GateName>, kept: seq<Report>, g: GateName)
    requires g in expected
    ensures (exists e :: e in Collect(expected, SelfNaOf(kept)) && e.gate == g)
       <==> Lookup(kept, g).Some? && Lookup(kept, g).value.Report? && Lookup(kept, g).value.verdict == NotApplicable
  {
    var all := Collect(expected, SelfNaOf(kept));
    var i :| 0 <= i < |expected| && expected[i] == g;
    if Lookup(kept, g).Some? && Lookup(kept, g).value.Report? && Lookup(kept, g).value.verdict == NotApplicable {
      var e := SelfNa(g, Lookup(kept, g).value.naReason);
      CollectMember(expected, SelfNaOf(kept), e);
      assert e in SelfNaOf(kept)(expected[i]);
    }
    if exists e :: e in all && e.gate == g {
      var e :| e in all && e.gate == g;
      CollectMember(expected, SelfNaOf(kept), e);
    }
  }

  // ----- The projection -----

  datatype Status = Complete | Blocked | Escalated

  datatype Projection = Projection(status: Status, pendingHumanDecision: bool)

  function ProjectTaskRunStatus(r: GateReport, maxRounds: int): Projection {
    if r.decision == PassEligible then Projection(Complete, r.Incomplete())
    else if r.round >= maxRounds then Projection(Escalated, true)
    else Projection(Blocked, false)
  }

  /** The status of a run: complete when the round is eligible, else escalated to a human once the rounds are used up,
      else blocked; a human is waited for after an escalation, and before a complete round with a gap is promoted. */
  lemma StatusIff(round: int, expected: seq<GateName>, reports: seq<Report>, ciRun: Option<CiRun>,
                  headSha: Option<string>, collate: string -> real, maxRounds: int)
    ensures var x := Reduced(round, expected, reports, ciRun, headSha, collate);
            x.Ok? ==>
              var p := ProjectTaskRunStatus(x.value, maxRounds);
              && (p.status == Complete <==> Eligible(x))
              && (p.status == Escalated <==> !Eligible(x) && round >= maxRounds)
              && (p.pendingHumanDecision <==> p.status == Escalated || (p.status == Complete && x.value.gap != []))
  {
    hide Kept, AllMalformed, VerifierPass, ScoresIn, Collect, Flagged, Scored, DecisionOf, Mean, Lowest;
  }

  lemma NoGapMeansEveryGateStands(expected: seq<GateName>, kept: seq<Report>, malformed: seq<Malformed>)
    ensures Collect(expected, GapOf(kept, malformed)) == []
       <==> forall i :: 0 <= i < |expected| ==> Contributes(Lookup(kept, expected[i]))
  {
    if Collect(expected, GapOf(kept, malformed)) == [] {
      forall i | 0 <= i < |expected|
        ensures Contributes(Lookup(kept, expected[i]))
      {
        GapMember(expected, kept, malformed, expected[i]);
        assert Gap(expected[i], if Mentions(malformed, expected[i]) then WasMalformed else WasMissing)
            !in Collect(expected, GapOf(kept, malformed));
      }
    } else {
      CollectMember(expected, GapOf(kept, malformed), Collect(expected, GapOf(kept, malformed))[0]);
    }
  }

  /** A run is complete with nothing left for a human exactly when the round is eligible and every expected
      opinion gate either scored its work or declared itself not applicable. */
  lemma CompleteIff(round: int, expected: seq<GateName>, reports: seq<Report>, ciRun: Option<CiRun>,
                    headSha: Option<string>, collate: string -> real, maxRounds: int)
    requires forall i :: 0 <= i < |expected| ==> expected[i].Opinion?
    ensures var x := Reduced(round, expected, reports, ciRun, headSha, collate);
            x.Ok? && ProjectTaskRunStatus(x.value, maxRounds) == Projection(Complete, false)
            <==> && Sound(expected, reports) && Verified(reports, ciRun, headSha) && HighEnough(ScoresGiven(reports))
                 && forall i :: 0 <= i < |expected| ==>
                      StandingOf(reports, expected[i]).IsScored? || StandingOf(reports, expected[i]).DeclaredNa?
  {
    var kept, malformed := Kept(reports, expected), AllMalformed(reports, expected);
    EligibleIff(round, expected, reports, ciRun, headSha, collate);
    NoGapMeansEveryGateStands(expected, kept, malformed);
    forall i | 0 <= i < |expected|
      ensures Contributes(Lookup(kept, expected[i]))
         <==> StandingOf(reports, expected[i]).IsScored? || StandingOf(reports, expected[i]).DeclaredNa?
    {
      StandingIsRight(reports, expected, expected[i]);
    }
  }

  /** Then no expected gate failed, and the scores average at least four with none below three. */
  lemma CompleteMeansPassed(round: int, expected: seq<GateName>, reports: seq<Report>, ciRun: Option<CiRun>,
                            headSha: Option<string>, collate: string -> real, maxRounds: int)
    requires forall i :: 0 <= i < |expected| ==> expected[i].Opinion?
    ensures var x := Reduced(round, expected, reports, ciRun, headSha, collate);
            x.Ok? && ProjectTaskRunStatus(x.value, maxRounds) == Projection(Complete, false) ==>
              && x.value.overallScore.Some? && x.value.overallScore.value >= 4.0
              && x.value.lowestDimension.Some? && x.value.lowestDimension.value >= 3
              && forall i, r :: 0 <= i < |expected| && r in reports && GateOf(r) == expected[i] ==>
                   r.Report? && (r.verdict == Pass || r.verdict == NotApplicable)
  {
    hide Kept, AllMalformed, Sound, Verified, HighEnough, VerifierPass, ScoresIn, Flagged, Collect, WellFormed;
    var x := Reduced(round, expected, reports, ciRun, headSha, collate);
    if x.Ok? && ProjectTaskRunStatus(x.value, maxRounds) == Projection(Complete, false) {
      EligibleIff(round, expected, reports, ciRun, headSha, collate);
      SoundReportsAllCount(expected, reports);
      AdmittedOnePerGate(reports, expected);
      HighScores(reports);
      SoundReportsPass(expected, reports);
    }
  }

  lemma HighScores(reports: seq<Report>)
    requires OnePerGate(reports) && HighEnough(ScoresGiven(reports))
    ensures var scores := Scored(reports);
            scores != [] && Mean(scores).value >= 4.0 && Min(scores) >= 3
  {
    ScoredIsGiven(reports);
    HighEnoughPermutes(Scored(reports), ScoresGiven(reports));
    MinIsLeast(Scored(reports));
    MeanAtLeastFour(Scored(reports));
  }

  lemma SoundReportsPass(expected: seq<GateName>, reports: seq<Report>)
    requires Sound(expected, reports)
    ensures forall r :: r in reports && GateOf(r).Opinion? ==>
              r.Report? && (r.verdict == Pass || r.verdict == NotApplicable)
  {
    forall r | r in reports
      ensures WellFormed(r) && !HasBlocking(r)
    {
      ValidIffWellFormed(r);
    }
  }
}
