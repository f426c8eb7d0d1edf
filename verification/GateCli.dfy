/** The command that gathers the evidence for a round and reduces it. */
module GateCli {
  import opened Prelude
  import opened GateSchema
  import opened GateReduce
  import opened GateReduceLaws
  import ObserveFolds
  import Text
  import VerifierReport
  import OpinionProvenance
  import WorkflowProvenance

  /** The run as GitHub describes it. */
  datatype FetchedRun = FetchedRun(
    headSha: Option<string>, status: Option<string>, conclusion: Option<string>,
    workflowName: Option<string>, workflowDatabaseId: Option<int>, gateWorkflowId: Option<int>)

  const GATE_WORKFLOW_NAME := "gate"

  datatype Input = Input(
    taskId: Option<string>, round: Option<int>,
    expectedOpinionGates: Option<seq<GateName>>, reports: Option<seq<Report>>,
    gateResults: Option<string>, commit: Option<string>, sessionTranscript: Option<string>, workflowDir: Option<string>,
    ciRun: Option<CiRun>)

  /** Everything the command asks of the world.  None is a file that cannot be read, a run that cannot be
      fetched, a commit that git cannot resolve. */
  datatype World = World(
    file: string -> Option<string>,
    transcript: string -> Option<seq<ObserveFolds.Event>>,
    workflow: string -> Option<WorkflowProvenance.Run>,
    fetchRun: string -> Option<FetchedRun>,
    commitTime: string -> Option<int>,
    patterns: VerifierReport.Patterns,
    cites: (string, string) -> bool,
    upper: string -> string,
    norm: string -> string,
    collate: string -> real)

  datatype CliError = MissingField | HandWrittenVerifierToo | UnreadableGateResults | UnreadableTranscript
                    | UnreadableWorkflow | UnboundReports(reports: seq<Report>) | Crashed

  // ----- Evidence -----

  predicate IsRunId(id: string) {
    id != "" && forall i :: 0 <= i < |id| ==> '0' <= id[i] <= '9'
  }

  predicate IsGateRun(f: FetchedRun) {
    f.gateWorkflowId.Some? && f.workflowDatabaseId == f.gateWorkflowId && f.workflowName == Some(GATE_WORKFLOW_NAME)
  }

  predicate Agrees(typed: Option<string>, fetched: Option<string>) {
    typed.Some? ==> typed == fetched
  }

  /** A typed run is a claim; what is counted is what was fetched. */
  function ConfirmCiRun(w: World, typed: CiRun): Option<CiRun> {
    if typed.id.None? || !IsRunId(typed.id.value) then None
    else match w.fetchRun(typed.id.value)
      case None => None
      case Some(f) =>
        if !IsGateRun(f) then None
        else if !Agrees(typed.headSha, f.headSha) || !Agrees(typed.status, f.status)
            || !Agrees(typed.conclusion, f.conclusion)
        then None
        else Some(CiRun(typed.id, f.headSha, f.status, f.conclusion))
  }

  function CountedRun(w: World, input: Input): Option<CiRun> {
    match input.ciRun case None => None case Some(typed) => ConfirmCiRun(w, typed)
  }

  function OrEmpty(s: Option<string>): string {
    match s case None => "" case Some(t) => t
  }

  predicate IsGreenGateResultsFor(w: World, path: string, commit: Option<string>) {
    NonEmpty(commit) && w.file(path).Some?
    && VerifierReport.VerifierReportOf(w.patterns, w.file(path).value, Some(path), commit.value).verdict == Pass
  }

  predicate CiRunPassesOn(run: Option<CiRun>, commit: Option<string>) {
    run.Some? && NonEmpty(commit) && run.value.headSha == commit
    && run.value.status == Some("completed") && run.value.conclusion == Some("success")
  }

  /** A hand-written verifier PASS counts only when its reference resolves to evidence. */
  predicate ResolvesToEvidence(w: World, input: Input, run: Option<CiRun>, ref: string) {
    ref != ""
    && (IsGreenGateResultsFor(w, ref, input.commit)
        || (CiRunPassesOn(run, input.commit) && run.value.id.Some? && w.cites(ref, run.value.id.value)))
  }

  function Downgraded(r: Report): Report
    requires r.Report?
  {
    r.(verdict := Unverified,
       findings := Some((if r.findings.Some? then r.findings.value else [])
                        + [Finding(High, if NonEmpty(r.evidenceRef) then r.evidenceRef.value else "evidence",
                                   "no such evidence")]))
  }

  function Resolve(w: World, input: Input, run: Option<CiRun>): Report -> seq<Report> {
    (r: Report) =>
      if GateOf(r) != Verifier || r.NotAnObject? || r.verdict != Pass
         || ResolvesToEvidence(w, input, run, OrEmpty(r.evidenceRef)) then [r]
      else [Downgraded(r)]
  }

  /** The transcript binds the report, or the workflow run does. */
  predicate IsBound(w: World, input: Input, events: seq<ObserveFolds.Event>, run: Option<WorkflowProvenance.Run>,
                    r: Report) {
    || OpinionProvenance.BindingOf(events, GateOf(r)) != OpinionProvenance.Unbound
    || (run.Some?
        && WorkflowProvenance.CheckWorkflowProvenance(run.value, w.upper(OrEmpty(input.taskId)), r,
                                                      w.commitTime(OrEmpty(input.commit)), w.norm).Some?)
  }

  function UnboundIn(w: World, input: Input, events: seq<ObserveFolds.Event>, run: Option<WorkflowProvenance.Run>)
    : Report -> seq<Report>
  {
    (r: Report) => if GateOf(r).Opinion? && !IsBound(w, input, events, run, r) then [r] else []
  }

  predicate HasVerifier(reports: seq<Report>) {
    exists i :: 0 <= i < |reports| && GateOf(reports[i]) == Verifier
  }

  // ----- The command -----

  method GatherVerifier(input: Input, w: World, reports0: seq<Report>) returns (r: Result<seq<Report>, CliError>)
    ensures r == WithVerifier(input, w, reports0)
  {
    if input.gateResults.None? { return Ok(reports0); }
    if HasVerifier(reports0) { return Err(HandWrittenVerifierToo); }
    var text := w.file(input.gateResults.value);
    if text.None? { return Err(UnreadableGateResults); }
    var verifier := VerifierReport.BuildVerifierReport(w.patterns, text.value, input.gateResults,
                                                       OrEmpty(input.commit));
    return Ok([verifier] + reports0);
  }

  function WithVerifier(input: Input, w: World, reports: seq<Report>): Result<seq<Report>, CliError> {
    match input.gateResults
    case None => Ok(reports)
    case Some(path) =>
      if HasVerifier(reports) then Err(HandWrittenVerifierToo)
      else match w.file(path)
        case None => Err(UnreadableGateResults)
        case Some(text) =>
          Ok([VerifierReport.VerifierReportOf(w.patterns, text, input.gateResults, OrEmpty(input.commit))] + reports)
  }

  method FindUnbound(input: Input, w: World, events: seq<ObserveFolds.Event>, run: Option<WorkflowProvenance.Run>,
                     reports: seq<Report>) returns (unbound: seq<Report>)
    ensures unbound == Collect(reports, UnboundIn(w, input, events, run))
  {
    unbound := [];
    for i := 0 to |reports|
      invariant unbound == Collect(reports[..i], UnboundIn(w, input, events, run))
    {
      CollectNext(reports, i, UnboundIn(w, input, events, run));
      var report := reports[i];
      if !GateOf(report).Opinion? { continue; }
      var provenance := OpinionProvenance.CheckOpinionProvenance(events, GateOf(report));
      if provenance != OpinionProvenance.Unbound { continue; }
      if run.Some? && WorkflowProvenance.CheckWorkflowProvenance(run.value, w.upper(OrEmpty(input.taskId)), report,
                                                                 w.commitTime(OrEmpty(input.commit)), w.norm).Some? {
        continue;
      }
      unbound := unbound + [report];
    }
    assert reports[..|reports|] == reports;
  }

  method RunGateReportCli(input: Input, w: World) returns (r: Result<GateReport, CliError>)
    ensures r == CliResult(input, w)
  {
    if input.taskId.None? || input.round.None? || input.expectedOpinionGates.None? || input.reports.None? {
      return Err(MissingField);
    }
    var gathered := GatherVerifier(input, w, input.reports.value);
    if gathered.Err? { return gathered.PropagateError(); }
    var reports := gathered.value;
    var events: seq<ObserveFolds.Event> := [];
    if input.sessionTranscript.Some? {
      var read := w.transcript(input.sessionTranscript.value);
      if read.None? { return Err(UnreadableTranscript); }
      events := read.value;
    }
    var run: Option<WorkflowProvenance.Run> := None;
    if input.workflowDir.Some? {
      run := w.workflow(input.workflowDir.value);
      if run.None? { return Err(UnreadableWorkflow); }
    }
    var unbound := FindUnbound(input, w, events, run, reports);
    if |unbound| > 0 { return Err(UnboundReports(unbound)); }
    var ciRun: Option<CiRun> := None;
    if input.ciRun.Some? { ciRun := ConfirmCiRun(w, input.ciRun.value); }
    if input.gateResults.None? { reports := Collect(reports, Resolve(w, input, ciRun)); }
    var reduced := ReduceGateReport(input.round.value, input.expectedOpinionGates.value, reports, ciRun, input.commit,
                                    w.collate);
    match reduced {
      case Ok(g) => return Ok(g);
      case Err(_) => return Err(Crashed);
    }
  }

  function EventsOf(input: Input, w: World): Option<seq<ObserveFolds.Event>> {
    match input.sessionTranscript case None => Some([]) case Some(path) => w.transcript(path)
  }

  /** The reports that reach the reducer. */
  function Resolved(input: Input, w: World, reports: seq<Report>): seq<Report> {
    if input.gateResults.None? then Collect(reports, Resolve(w, input, CountedRun(w, input))) else reports
  }

  function CliResult(input: Input, w: World): Result<GateReport, CliError> {
    if input.taskId.None? || input.round.None? || input.expectedOpinionGates.None? || input.reports.None?
    then Err(MissingField)
    else match WithVerifier(input, w, input.reports.value)
      case Err(e) => Err(e)
      case Ok(reports) =>
        if EventsOf(input, w).None? then Err(UnreadableTranscript)
        else if input.workflowDir.Some? && w.workflow(input.workflowDir.value).None? then Err(UnreadableWorkflow)
        else
          var run := if input.workflowDir.Some? then w.workflow(input.workflowDir.value) else None;
          var unbound := Collect(reports, UnboundIn(w, input, EventsOf(input, w).value, run));
          if unbound != [] then Err(UnboundReports(unbound))
          else match Reduced(input.round.value, input.expectedOpinionGates.value, Resolved(input, w, reports),
                             CountedRun(w, input), input.commit, w.collate)
            case Ok(g) => Ok(g)
            case Err(_) => Err(Crashed)
  }

  // ----- What an eligible round rests on -----

  /** A typed run is counted exactly when its id is all digits, GitHub knows the run as one of the gate workflow, and
      every field that was typed is what GitHub says; and what is counted is what GitHub says. */
  lemma ConfirmedIff(w: World, typed: CiRun)
    ensures ConfirmCiRun(w, typed).Some? <==>
              && typed.id.Some? && typed.id.value != ""
              && (forall i :: 0 <= i < |typed.id.value| ==> '0' <= typed.id.value[i] <= '9')
              && w.fetchRun(typed.id.value).Some?
              && var f := w.fetchRun(typed.id.value).value;
                 && f.gateWorkflowId.Some? && f.workflowDatabaseId == f.gateWorkflowId && f.workflowName == Some("gate")
                 && (typed.headSha.None? || typed.headSha == f.headSha)
                 && (typed.status.None? || typed.status == f.status)
                 && (typed.conclusion.None? || typed.conclusion == f.conclusion)
    ensures ConfirmCiRun(w, typed).Some? ==>
              var f := w.fetchRun(typed.id.value).value;
              ConfirmCiRun(w, typed).value == CiRun(typed.id, f.headSha, f.status, f.conclusion)
  {
  }

  /** A readable results file whose steps all passed, that ends with DONE, and whose stamp names the commit, a
      clean tree, and the chunks that ran. */
  ghost predicate GreenResults(w: World, path: string, commit: string) {
    && w.file(path).Some?
    && var lines := Text.Lines(w.file(path).value);
       && VerifierReport.HasStep(w.patterns, lines) && !VerifierReport.HasFailedStep(w.patterns, lines)
       && VerifierReport.EndsWithDone(lines)
       && VerifierReport.FirstStamp(w.patterns, lines).Some?
       && VerifierReport.TiedTo(w.patterns, lines, commit)
  }

  /** GitHub itself says that this run of the gate workflow completed and succeeded on the commit. */
  ghost predicate ConfirmedGreenRun(w: World, id: string, commit: string) {
    && id != "" && (forall i :: 0 <= i < |id| ==> '0' <= id[i] <= '9') && w.fetchRun(id).Some?
    && var f := w.fetchRun(id).value;
       && f.gateWorkflowId.Some? && f.workflowDatabaseId == f.gateWorkflowId && f.workflowName == Some("gate")
       && f.headSha == Some(commit) && f.status == Some("completed") && f.conclusion == Some("success")
  }

  /** What is typed about the run is left out or says the same. */
  ghost predicate TypedAlike(typed: CiRun, commit: string) {
    && (typed.headSha.None? || typed.headSha == Some(commit))
    && (typed.status.None? || typed.status == Some("completed"))
    && (typed.conclusion.None? || typed.conclusion == Some("success"))
  }

  /** The evidence that the input itself names: its results file, the file that a passing verifier report in it
      refers to, or its run. */
  ghost predicate EvidenceNamed(w: World, input: Input, commit: string)
    requires input.reports.Some?
  {
    || (input.gateResults.Some? && GreenResults(w, input.gateResults.value, commit))
    || (input.gateResults.None?
        && exists r :: r in input.reports.value && GateOf(r) == Verifier && r.Report? && r.verdict == Pass
                       && r.evidenceRef.Some? && GreenResults(w, r.evidenceRef.value, commit))
    || (input.ciRun.Some? && input.ciRun.value.id.Some? && ConfirmedGreenRun(w, input.ciRun.value.id.value, commit)
        && TypedAlike(input.ciRun.value, commit))
  }

  /** A reviewer of the report's gate completed, returned, or vouches for it. */
  ghost predicate Reviewed(w: World, input: Input, r: Report) {
    var role := OpinionProvenance.RoleForGate(GateOf(r));
    && role.Some?
    && ((EventsOf(input, w).Some?
         && exists agent :: OpinionProvenance.CompletedDispatch(EventsOf(input, w).value, role.value, agent))
        || (EventsOf(input, w).Some?
            && exists id :: OpinionProvenance.ReturnedDispatch(EventsOf(input, w).value, role.value, id))
        || (input.workflowDir.Some? && w.workflow(input.workflowDir.value).Some?
            && w.commitTime(OrEmpty(input.commit)).Some?
            && exists a :: WorkflowProvenance.Vouches(w.workflow(input.workflowDir.value).value,
                                                      w.upper(OrEmpty(input.taskId)), role.value, r,
                                                      w.commitTime(OrEmpty(input.commit)).value, w.norm, a)))
  }

  lemma GreenMeansGreen(w: World, path: string, evidenceRef: Option<string>, commit: string)
    requires commit != "" && w.file(path).Some?
    requires VerifierReport.VerifierReportOf(w.patterns, w.file(path).value, evidenceRef, commit).verdict == Pass
    ensures GreenResults(w, path, commit)
  {
    VerifierReport.VerdictIff(w.patterns, w.file(path).value, evidenceRef, commit);
  }

  lemma CountedRunIsConfirmed(w: World, input: Input, commit: string)
    requires CountedRun(w, input).Some?
    requires CountedRun(w, input).value.headSha == Some(commit)
             && CountedRun(w, input).value.status == Some("completed")
    requires CountedRun(w, input).value.conclusion == Some("success")
    ensures input.ciRun.Some? && input.ciRun.value.id.Some? && ConfirmedGreenRun(w, input.ciRun.value.id.value, commit)
    ensures TypedAlike(input.ciRun.value, commit)
  {
    ConfirmedIff(w, input.ciRun.value);
  }

  lemma PassMeansEvidence(input: Input, w: World, reports: seq<Report>, r: Report)
    requires NonEmpty(input.commit) && input.reports.Some?
    requires WithVerifier(input, w, input.reports.value) == Ok(reports)
    requires r in Resolved(input, w, reports) && GateOf(r) == Verifier && r.Report? && r.verdict == Pass
    ensures EvidenceNamed(w, input, input.commit.value)
  {
    hide GreenResults, ConfirmedGreenRun, CountedRun, Collect;
    var ciRun := CountedRun(w, input);
    if input.gateResults.Some? {
      GreenMeansGreen(w, input.gateResults.value, input.gateResults, input.commit.value);
    } else {
      CollectMember(reports, Resolve(w, input, ciRun), r);
      var i :| 0 <= i < |reports| && r in Resolve(w, input, ciRun)(reports[i]);
      HandWrittenMeansEvidence(input, w, r);
    }
  }

  /** A report that counts as verified at the reducer was verified in fact, by evidence that the input names. */
  lemma VerifiedMeansEvidence(input: Input, w: World, reports: seq<Report>)
    requires NonEmpty(input.commit) && input.reports.Some?
    requires WithVerifier(input, w, input.reports.value) == Ok(reports)
    requires Verified(Resolved(input, w, reports), CountedRun(w, input), input.commit)
    ensures EvidenceNamed(w, input, input.commit.value)
  {
    hide WithVerifier, Resolved, CountedRun, GreenResults, ConfirmedGreenRun;
    if CiRunPasses(CountedRun(w, input), input.commit) {
      CountedRunIsConfirmed(w, input, input.commit.value);
    } else {
      var r :| r in Resolved(input, w, reports) && GateOf(r) == Verifier && r.Report? && r.verdict == Pass;
      PassMeansEvidence(input, w, reports, r);
    }
  }

  /** A hand-written PASS that stands refers to green results, or the run of the input is green. */
  lemma HandWrittenMeansEvidence(input: Input, w: World, r: Report)
    requires NonEmpty(input.commit) && input.reports.Some? && input.gateResults.None?
    requires r in input.reports.value && GateOf(r) == Verifier && r.Report? && r.verdict == Pass
    requires ResolvesToEvidence(w, input, CountedRun(w, input), OrEmpty(r.evidenceRef))
    ensures EvidenceNamed(w, input, input.commit.value)
  {
    hide GreenResults, ConfirmedGreenRun, CountedRun;
    var ref := OrEmpty(r.evidenceRef);
    if IsGreenGateResultsFor(w, ref, input.commit) {
      GreenMeansGreen(w, ref, Some(ref), input.commit.value);
    } else {
      CountedRunIsConfirmed(w, input, input.commit.value);
    }
  }

  /** Exactly when a hand-written PASS of the verifier stands: its reference names a green results file for the commit,
      or cites the counted run, which is green on the commit.  Otherwise the report is kept as UNVERIFIED, with one
      more finding; and no other report is touched. */
  lemma ResolveIff(w: World, input: Input, r: Report)
    ensures var run, out := CountedRun(w, input), Resolve(w, input, CountedRun(w, input))(r);
            if r.Report? && r.gate == Verifier && r.verdict == Pass then
              if r.evidenceRef.Some? && r.evidenceRef.value != "" && input.commit.Some? && input.commit.value != ""
                 && (|| GreenResults(w, r.evidenceRef.value, input.commit.value)
                     || (GreenOnHead(run, input.commit) && w.cites(r.evidenceRef.value, run.value.id.value)))
              then out == [r]
              else
                && |out| == 1 && out[0].Report? && out[0].findings.Some?
                && out[0] == r.(verdict := Unverified, findings := out[0].findings)
                && var had, has := if r.findings.Some? then r.findings.value else [], out[0].findings.value;
                   |has| == |had| + 1 && has[..|had|] == had && has[|had|].Finding? && has[|had|].severity == High
            else out == [r]
  {
    hide GreenResults;
    if input.commit.Some? && input.commit.value != "" && r.Report? && r.evidenceRef.Some? {
      GreenIff(w, r.evidenceRef.value, input.commit.value);
    }
    if input.ciRun.Some? { ConfirmedIff(w, input.ciRun.value); }
  }

  lemma GreenIff(w: World, path: string, commit: string)
    requires commit != ""
    ensures GreenResults(w, path, commit)
       <==> && w.file(path).Some?
            && VerifierReport.VerifierReportOf(w.patterns, w.file(path).value, Some(path), commit).verdict == Pass
  {
    if w.file(path).Some? { VerifierReport.VerdictIff(w.patterns, w.file(path).value, Some(path), commit); }
  }

  lemma BoundMeansReviewed(input: Input, w: World, r: Report)
    requires GateOf(r).Opinion? && EventsOf(input, w).Some?
    requires IsBound(w, input, EventsOf(input, w).value,
                     if input.workflowDir.Some? then w.workflow(input.workflowDir.value) else None, r)
    ensures Reviewed(w, input, r)
  {
    var events := EventsOf(input, w).value;
    OpinionProvenance.BindingIsSound(events, GateOf(r));
    if OpinionProvenance.BindingOf(events, GateOf(r)) == OpinionProvenance.Unbound {
      WorkflowProvenance.BoundMeansVouched(w.workflow(input.workflowDir.value).value, w.upper(OrEmpty(input.taskId)), r,
                                           w.commitTime(OrEmpty(input.commit)), w.norm);
    }
  }

  lemma OpinionReportsReachReducer(input: Input, w: World, reports: seq<Report>, r: Report)
    requires input.reports.Some? && WithVerifier(input, w, input.reports.value) == Ok(reports)
    requires r in input.reports.value && GateOf(r).Opinion?
    ensures r in reports && r in Resolved(input, w, reports)
  {
    assert r in reports;
    var i :| 0 <= i < |reports| && reports[i] == r;
    CollectMember(reports, Resolve(w, input, CountedRun(w, input)), r);
  }

  lemma NoneUnbound(input: Input, w: World, run: Option<WorkflowProvenance.Run>, reports: seq<Report>, r: Report)
    requires EventsOf(input, w).Some? && Collect(reports, UnboundIn(w, input, EventsOf(input, w).value, run)) == []
    requires r in reports && GateOf(r).Opinion?
    ensures IsBound(w, input, EventsOf(input, w).value, run, r)
  {
    var unbound := UnboundIn(w, input, EventsOf(input, w).value, run);
    CollectMember(reports, unbound, r);
    var i :| 0 <= i < |reports| && reports[i] == r;
    assert r !in unbound(reports[i]);
  }

  lemma OpinionReportStands(input: Input, w: World, reports: seq<Report>, r: Report)
    requires input.reports.Some? && input.expectedOpinionGates.Some? && EventsOf(input, w).Some?
    requires WithVerifier(input, w, input.reports.value) == Ok(reports)
    requires Collect(reports, UnboundIn(w, input, EventsOf(input, w).value,
                       if input.workflowDir.Some? then w.workflow(input.workflowDir.value) else None)) == []
    requires Sound(input.expectedOpinionGates.value, Resolved(input, w, reports))
    requires r in input.reports.value && GateOf(r).Opinion?
    ensures Reviewed(w, input, r) && WellFormed(r) && r.verdict != Fail && GateOf(r) in input.expectedOpinionGates.value
  {
    hide WithVerifier, Resolved, Reviewed, Collect, IsBound, WellFormed;
    OpinionReportsReachReducer(input, w, reports, r);
    NoneUnbound(input, w, if input.workflowDir.Some? then w.workflow(input.workflowDir.value) else None, reports, r);
    BoundMeansReviewed(input, w, r);
  }

  /** End to end: when a round for a named commit comes out eligible, every opinion report was produced by a
      reviewer of its gate, is well formed, expected and did not fail; and the work was verified by green results
      stamped for that commit or by a gate run that GitHub confirms. */
  lemma EligibleMeansEvidence(input: Input, w: World)
    requires NonEmpty(input.commit)
    requires CliResult(input, w).Ok? && CliResult(input, w).value.decision == PassEligible
    ensures EvidenceNamed(w, input, input.commit.value)
    ensures forall r :: r in input.reports.value && GateOf(r).Opinion? ==>
              Reviewed(w, input, r) && WellFormed(r) && r.verdict != Fail
                && GateOf(r) in input.expectedOpinionGates.value
  {
    var reports := WithVerifier(input, w, input.reports.value).value;
    EligibleIff(input.round.value, input.expectedOpinionGates.value, Resolved(input, w, reports), CountedRun(w, input),
                input.commit, w.collate);
    VerifiedMeansEvidence(input, w, reports);
    forall r | r in input.reports.value && GateOf(r).Opinion?
      ensures Reviewed(w, input, r) && WellFormed(r) && r.verdict != Fail
              && GateOf(r) in input.expectedOpinionGates.value
    {
      OpinionReportStands(input, w, reports, r);
    }
  }

  // ----- Exactly when the command stops, and over what -----

  ghost predicate Complete(input: Input) {
    input.taskId.Some? && input.round.Some? && input.expectedOpinionGates.Some? && input.reports.Some?
  }

  ghost predicate NamesVerifier(reports: seq<Report>) {
    exists r :: r in reports && GateOf(r) == Verifier
  }

  /** The verifier's report is derived from the results file the input names, if it names one, and put before the other
      reports; with a hand-written one beside it, or an unreadable file, the command stops. */
  lemma GatheredIff(input: Input, w: World, reports: seq<Report>)
    ensures match WithVerifier(input, w, reports)
            case Ok(all) =>
              if input.gateResults.None? then all == reports
              else
                && !NamesVerifier(reports) && w.file(input.gateResults.value).Some?
                && |all| == |reports| + 1 && all[1..] == reports && all[0].Report?
                && var text := w.file(input.gateResults.value).value;
                   && VerifierReport.SaysOfTheRun(w.patterns, text, OrEmpty(input.commit), all[0].verdict)
                   && VerifierReport.Explains(w.patterns, text, input.gateResults, OrEmpty(input.commit), all[0])
            case Err(HandWrittenVerifierToo) => input.gateResults.Some? && NamesVerifier(reports)
            case Err(UnreadableGateResults) =>
              input.gateResults.Some? && !NamesVerifier(reports) && w.file(input.gateResults.value).None?
            case Err(_) => false
  {
    assert HasVerifier(reports) <==> NamesVerifier(reports);
    hide VerifierReport.SaysOfTheRun, VerifierReport.Explains, VerifierReport.VerifierReportOf, HasVerifier,
      NamesVerifier;
    if input.gateResults.Some? && w.file(input.gateResults.value).Some? {
      var text := w.file(input.gateResults.value).value;
      DerivedSays(w, text, input.gateResults, OrEmpty(input.commit));
    }
  }

  lemma DerivedSays(w: World, text: string, ref: Option<string>, sha: string)
    ensures var r := VerifierReport.VerifierReportOf(w.patterns, text, ref, sha);
            && r.Report? && VerifierReport.SaysOfTheRun(w.patterns, text, sha, r.verdict)
            && VerifierReport.Explains(w.patterns, text, ref, sha, r)
  {
    VerifierReport.VerdictIff(w.patterns, text, ref, sha);
    VerifierReport.FindingsExplain(w.patterns, text, ref, sha);
  }

  /** No transcript is named, or it can be read; and the same for the workflow directory. */
  ghost predicate Readable(input: Input, w: World) {
    && (input.sessionTranscript.Some? ==> w.transcript(input.sessionTranscript.value).Some?)
    && (input.workflowDir.Some? ==> w.workflow(input.workflowDir.value).Some?)
  }

  /** When an opinion report is not bound: no agent that ran in the gate's role last said that it completed, no dispatch
      of the role returned, and the workflow run, if there is one, does not bind the report either. */
  lemma UnboundIff(input: Input, w: World, events: seq<ObserveFolds.Event>, run: Option<WorkflowProvenance.Run>,
                   reports: seq<Report>, r: Report)
    ensures r in Collect(reports, UnboundIn(w, input, events, run)) <==>
              && r in reports && GateOf(r).Opinion?
              && var role := OpinionProvenance.RoleForGate(GateOf(r)).value;
                 && (forall a :: !OpinionProvenance.CompletedRun(events, role, a))
                 && (forall id :: !OpinionProvenance.ReturnedDispatch(events, role, id))
                 && (run.Some? ==>
                       var task, committed := w.upper(OrEmpty(input.taskId)), w.commitTime(OrEmpty(input.commit));
                       WorkflowProvenance.CheckWorkflowProvenance(run.value, task, r, committed, w.norm).None?)
  {
    hide OpinionProvenance.BindingOf, OpinionProvenance.CompletedRun, OpinionProvenance.ReturnedDispatch,
      WorkflowProvenance.CheckWorkflowProvenance;
    CollectMember(reports, UnboundIn(w, input, events, run), r);
    if GateOf(r).Opinion? {
      OpinionProvenance.FourRoles(GateOf(r));
      BoundByTranscriptIff(events, GateOf(r));
    }
  }

  lemma BoundByTranscriptIff(events: seq<ObserveFolds.Event>, gate: GateName)
    requires OpinionProvenance.RoleForGate(gate).Some?
    ensures var role := OpinionProvenance.RoleForGate(gate).value;
            OpinionProvenance.BindingOf(events, gate) == OpinionProvenance.Unbound <==>
              && (forall a :: !OpinionProvenance.CompletedRun(events, role, a))
              && (forall id :: !OpinionProvenance.ReturnedDispatch(events, role, id))
  {
    hide OpinionProvenance.CompletedRun, OpinionProvenance.ReturnedDispatch, OpinionProvenance.BindingOf;
    OpinionProvenance.BoundIff(events, gate);
  }

  ghost function RunOf(input: Input, w: World): Option<WorkflowProvenance.Run> {
    if input.workflowDir.Some? then w.workflow(input.workflowDir.value) else None
  }

  /** Why the command stops, in the order in which it looks; a result means that nothing stopped it, and that the
      reports were reduced with the run that was confirmed.  Without a transcript there are no events. */
  lemma StopsIff(input: Input, w: World)
    ensures EventsOf(input, w) == (if input.sessionTranscript.Some? then w.transcript(input.sessionTranscript.value)
                                   else Some([]))
    ensures match CliResult(input, w)
            case Err(MissingField) => !Complete(input)
            case Err(HandWrittenVerifierToo) =>
              Complete(input) && input.gateResults.Some? && NamesVerifier(input.reports.value)
            case Err(UnreadableGateResults) =>
              && Complete(input) && input.gateResults.Some? && !NamesVerifier(input.reports.value)
              && w.file(input.gateResults.value).None?
            case Err(UnreadableTranscript) =>
              Complete(input) && input.sessionTranscript.Some? && w.transcript(input.sessionTranscript.value).None?
            case Err(UnreadableWorkflow) =>
              Complete(input) && input.workflowDir.Some? && w.workflow(input.workflowDir.value).None?
            case Err(UnboundReports(unbound)) =>
              && Complete(input) && Readable(input, w) && WithVerifier(input, w, input.reports.value).Ok?
              && unbound != []
              && unbound == Collect(WithVerifier(input, w, input.reports.value).value,
                                    UnboundIn(w, input, EventsOf(input, w).value, RunOf(input, w)))
            case Err(Crashed) => Complete(input) && Readable(input, w)
            case Ok(g) =>
              && Complete(input) && Readable(input, w) && WithVerifier(input, w, input.reports.value).Ok?
              && var reports := Resolved(input, w, WithVerifier(input, w, input.reports.value).value);
                 Reduced(input.round.value, input.expectedOpinionGates.value, reports, CountedRun(w, input),
                         input.commit, w.collate) == Ok(g)
  {
    hide Reduced, Resolved, UnboundIn, WithVerifier, Collect, NamesVerifier;
    if Complete(input) { GatheredIff(input, w, input.reports.value); }
  }
}
