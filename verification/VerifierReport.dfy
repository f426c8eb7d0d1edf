/** The verifier's report, derived from the results file of a gate run. */
module VerifierReport {
  import opened Prelude
  import opened Text
  import opened GateSchema

  datatype Step = Step(name: string, rc: nat)

  /** `chunks` is None on a stamp that does not declare how many test chunks the run intended. */
  datatype Stamp = Stamp(sha: string, dirty: nat, chunks: Option<nat>)

  /** The regular expressions of the parser: what they make of one line, or of one step name. */
  datatype PatternTable = PatternTable(
    step: string -> Option<Step>, stamp: string -> Option<Stamp>, isTestChunk: string -> bool, lower: string -> string)

  /** An empty line is no step. */
  type Patterns = p: PatternTable | p.step("") == None
    witness PatternTable(_ => None, _ => None, _ => false, s => s)

  function StepsIn(p: Patterns): string -> seq<Step> {
    (line: string) => match p.step(line) case None => [] case Some(s) => [s]
  }

  function StepsOf(p: Patterns, text: string): seq<Step> {
    Collect(Lines(text), StepsIn(p))
  }

  function FirstStamp(p: Patterns, lines: seq<string>): Option<Stamp> {
    if lines == [] then None
    else
      var before := FirstStamp(p, lines[..|lines| - 1]);
      if before.Some? then before else p.stamp(Trim(lines[|lines| - 1]))
  }

  predicate IsFailed(s: Step) { s.rc != 0 }

  function FailedOf(s: Step): seq<Step> {
    if IsFailed(s) then [s] else []
  }

  function NonBlank(line: string): seq<string> {
    if Trim(line) != "" then [line] else []
  }

  /** The last line that is not blank says DONE. */
  predicate Complete(lines: seq<string>) {
    var kept := Collect(lines, NonBlank);
    kept != [] && Trim(kept[|kept| - 1]) == "DONE"
  }

  predicate SameCommit(p: Patterns, stamp: Stamp, expectedSha: string) {
    p.lower(expectedSha) <= stamp.sha || stamp.sha <= p.lower(expectedSha)
  }

  datatype BindingProblem = NoStamp | OtherCommit | ChunksMissing | DirtyTree

  function ChunkStep(p: Patterns): Step -> seq<Step> {
    (s: Step) => if p.isTestChunk(s.name) then [s] else []
  }

  function ChunksRun(p: Patterns, steps: seq<Step>): nat {
    |Collect(steps, ChunkStep(p))|
  }

  /** Why the run cannot be tied to the commit under review; an empty `expectedSha` asks for no tie. */
  function BindingProblems(p: Patterns, stamp: Option<Stamp>, steps: seq<Step>, expectedSha: string)
    : seq<BindingProblem>
  {
    (if expectedSha == "" then []
     else if stamp.None? then [NoStamp]
     else if !SameCommit(p, stamp.value, expectedSha) then [OtherCommit] else [])
    + (if stamp.Some? && stamp.value.chunks.Some? && ChunksRun(p, steps) != stamp.value.chunks.value
       then [ChunksMissing] else [])
    + (if stamp.Some? && stamp.value.dirty > 0 then [DirtyTree] else [])
  }

  function FailedFinding(s: Step): seq<Finding> {
    [Finding(Blocking, s.name, "gate step exited non-zero")]
  }

  function ProblemFinding(evidenceRef: Option<string>): BindingProblem -> seq<Finding> {
    (b: BindingProblem) =>
      [Finding(High, if evidenceRef.Some? then evidenceRef.value else "evidence", "evidence binding")]
  }

  method CheckBinding(p: Patterns, stamp: Option<Stamp>, steps: seq<Step>, expectedSha: string)
    returns (bindingProblems: seq<BindingProblem>)
    ensures bindingProblems == BindingProblems(p, stamp, steps, expectedSha)
  {
    bindingProblems := [];
    if expectedSha != "" {
      if stamp.None? {
        bindingProblems := bindingProblems + [NoStamp];
      } else if !(p.lower(expectedSha) <= stamp.value.sha) && !(stamp.value.sha <= p.lower(expectedSha)) {
        bindingProblems := bindingProblems + [OtherCommit];
      }
    }
    if stamp.Some? && stamp.value.chunks.Some? {
      var ran := ChunksRun(p, steps);
      if ran != stamp.value.chunks.value { bindingProblems := bindingProblems + [ChunksMissing]; }
    }
    if stamp.Some? && stamp.value.dirty > 0 { bindingProblems := bindingProblems + [DirtyTree]; }
  }

  lemma NoTextNoStep(p: Patterns)
    ensures StepsOf(p, "") == []
  {
    assert Normalised("") == "" && Lines("") == [""];
    CollectOne("", StepsIn(p));
  }

  /** The steps of the run, line by line. */
  method ParseGateResults(p: Patterns, text: string) returns (out: seq<Step>)
    ensures out == StepsOf(p, text)
  {
    if text == "" {
      NoTextNoStep(p);
      return [];
    }
    var lines := Lines(text);
    out := [];
    for i := 0 to |lines|
      invariant out == Collect(lines[..i], StepsIn(p))
    {
      CollectNext(lines, i, StepsIn(p));
      var m := p.step(lines[i]);
      if m.Some? {
        out := out + [m.value];
      }
    }
    assert lines[..|lines|] == lines;
  }

  lemma NoStampYet(p: Patterns)
    ensures FirstStamp(p, []) == None
  {
  }

  lemma FirstStampNext(p: Patterns, lines: seq<string>, i: nat)
    requires i < |lines|
    ensures FirstStamp(p, lines[..i + 1])
         == if FirstStamp(p, lines[..i]).Some? then FirstStamp(p, lines[..i]) else p.stamp(Trim(lines[i]))
  {
    assert lines[..i + 1][..i] == lines[..i];
  }

  /** The first line that is a stamp. */
  method ParseGateStamp(p: Patterns, text: string) returns (stamp: Option<Stamp>)
    ensures stamp == FirstStamp(p, Lines(text))
    ensures IsFirstStamp(p, Lines(text), stamp)
  {
    hide Trim, SplitOn, Normalised, FirstStamp;
    NoStampYet(p);
    var lines := Lines(text);
    for i := 0 to |lines|
      invariant FirstStamp(p, lines[..i]) == None
      invariant forall j :: 0 <= j < i ==> p.stamp(Trim(lines[j])) == None
    {
      FirstStampNext(p, lines, i);
      stamp := p.stamp(Trim(lines[i]));
      if stamp.Some? {
        FirstStampStays(p, lines, i + 1);
        return;
      }
    }
    assert lines[..|lines|] == lines;
    stamp := None;
  }

  method BuildVerifierReport(p: Patterns, text: string, evidenceRef: Option<string>, expectedSha: string)
    returns (r: Report)
    ensures r == VerifierReportOf(p, text, evidenceRef, expectedSha)
    ensures SaysOfTheRun(p, text, expectedSha, r.verdict) && Explains(p, text, evidenceRef, expectedSha, r)
  {
    hide Lines, Collect, FirstStamp, SaysOfTheRun, Explains;
    var steps := ParseGateResults(p, text);
    var failed := Collect(steps, FailedOf);
    var complete := Complete(Lines(text));
    var stamp := ParseGateStamp(p, text);
    var bindingProblems := CheckBinding(p, stamp, steps, expectedSha);
    var verdict;
    if |failed| > 0 { verdict := Fail; }
    else if |steps| == 0 || !complete { verdict := Unverified; }
    else if |bindingProblems| > 0 { verdict := Unverified; }
    else { verdict := Pass; }
    var findings := Collect(failed, FailedFinding) + Collect(bindingProblems, ProblemFinding(evidenceRef));
    r := Report(Verifier, verdict, NoScore, NoReason, Some(findings), evidenceRef);
    VerdictIff(p, text, evidenceRef, expectedSha);
    FindingsExplain(p, text, evidenceRef, expectedSha);
  }

  // ----- The report, said about the lines of the file -----

  ghost predicate HasFailedStep(p: Patterns, lines: seq<string>) {
    exists i :: 0 <= i < |lines| && p.step(lines[i]).Some? && p.step(lines[i]).value.rc != 0
  }

  ghost predicate HasStep(p: Patterns, lines: seq<string>) {
    exists i :: 0 <= i < |lines| && p.step(lines[i]).Some?
  }

  ghost predicate EndsWithDone(lines: seq<string>) {
    exists i :: 0 <= i < |lines| && Trim(lines[i]) == "DONE" && forall j :: i < j < |lines| ==> Trim(lines[j]) == ""
  }

  /** Two commit names agree as far as both reach. */
  ghost predicate AgreeWhereBoth(a: string, b: string) {
    forall i :: 0 <= i < |a| && i < |b| ==> a[i] == b[i]
  }

  /** How many lines are steps that ran a chunk of the tests. */
  function ChunkLines(p: Patterns, lines: seq<string>): nat {
    if lines == [] then 0
    else
      var step := p.step(lines[|lines| - 1]);
      ChunkLines(p, lines[..|lines| - 1]) + if step.Some? && p.isTestChunk(step.value.name) then 1 else 0
  }

  /** The names of the steps that failed, line by line. */
  function FailedNames(p: Patterns, lines: seq<string>): seq<string> {
    if lines == [] then []
    else
      var step := p.step(lines[|lines| - 1]);
      FailedNames(p, lines[..|lines| - 1]) + if step.Some? && step.value.rc != 0 then [step.value.name] else []
  }

  /** The three ways in which a run fails to be tied to the commit: no stamp or another commit's, a chunk missing, a
      dirty tree. */
  ghost predicate WrongCommit(p: Patterns, lines: seq<string>, expectedSha: string) {
    var stamp := FirstStamp(p, lines);
    expectedSha != "" && (stamp.Some? ==> !AgreeWhereBoth(stamp.value.sha, p.lower(expectedSha)))
  }

  ghost predicate WrongChunks(p: Patterns, lines: seq<string>) {
    var stamp := FirstStamp(p, lines);
    stamp.Some? && stamp.value.chunks.Some? && ChunkLines(p, lines) != stamp.value.chunks.value
  }

  ghost predicate Dirty(p: Patterns, lines: seq<string>) {
    FirstStamp(p, lines).Some? && FirstStamp(p, lines).value.dirty > 0
  }

  ghost predicate TiedTo(p: Patterns, lines: seq<string>, expectedSha: string) {
    !WrongCommit(p, lines, expectedSha) && !WrongChunks(p, lines) && !Dirty(p, lines)
  }

  /** The findings of a report: a blocking one for each failed step, with its name, and a high one for each way in which
      the run is not tied to the commit. */
  ghost predicate Explains(p: Patterns, text: string, evidenceRef: Option<string>, expectedSha: string, r: Report) {
    var lines, names := Lines(text), FailedNames(p, Lines(text));
    && r.Report? && r.gate == Verifier && r.score == NoScore && r.evidenceRef == evidenceRef && r.findings.Some?
    && |r.findings.value| == |names| + (if WrongCommit(p, lines, expectedSha) then 1 else 0)
                             + (if WrongChunks(p, lines) then 1 else 0) + (if Dirty(p, lines) then 1 else 0)
    && forall i :: 0 <= i < |r.findings.value| ==>
         var f := r.findings.value[i];
         && f.Finding?
         && (i < |names| ==> f.severity == Blocking && f.ref == names[i])
         && (i >= |names| ==> f.severity == High
                              && f.ref == match evidenceRef case None => "evidence" case Some(e) => e)
  }

  function VerifierReportOf(p: Patterns, text: string, evidenceRef: Option<string>, expectedSha: string): Report {
    var lines, steps := Lines(text), StepsOf(p, text);
    var failed, problems := Collect(steps, FailedOf), BindingProblems(p, FirstStamp(p, lines), steps, expectedSha);
    var verdict := if failed != [] then Fail
                   else if steps == [] || !Complete(lines) || problems != [] then Unverified else Pass;
    Report(Verifier, verdict, NoScore, NoReason,
           Some(Collect(failed, FailedFinding) + Collect(problems, ProblemFinding(evidenceRef))), evidenceRef)
  }

  /** `stamp` is the first of the lines that is one, or none of them is. */
  ghost predicate IsFirstStamp(p: Patterns, lines: seq<string>, stamp: Option<Stamp>) {
    if stamp == None then forall j :: 0 <= j < |lines| ==> p.stamp(Trim(lines[j])) == None
    else exists i :: 0 <= i < |lines| && p.stamp(Trim(lines[i])) == stamp
                     && forall j :: 0 <= j < i ==> p.stamp(Trim(lines[j])) == None
  }

  lemma {:induction false} FirstStampStays(p: Patterns, lines: seq<string>, k: nat)
    requires k <= |lines| && FirstStamp(p, lines[..k]).Some?
    ensures FirstStamp(p, lines) == FirstStamp(p, lines[..k])
  {
    if k == |lines| {
      assert lines[..k] == lines;
    } else {
      var init := lines[..|lines| - 1];
      assert init[..k] == lines[..k];
      FirstStampStays(p, init, k);
    }
  }

  /** What the verdict says of the lines of the file. */
  ghost predicate SaysOfTheRun(p: Patterns, text: string, expectedSha: string, verdict: Verdict) {
    var lines := Lines(text);
    && (verdict == Fail <==> HasFailedStep(p, lines))
    && (verdict == Pass <==>
          && !HasFailedStep(p, lines) && HasStep(p, lines) && EndsWithDone(lines)
          && TiedTo(p, lines, expectedSha))
    && verdict in {Pass, Fail, Unverified}
  }

  lemma SameCommitIff(p: Patterns, stamp: Stamp, expectedSha: string)
    ensures SameCommit(p, stamp, expectedSha) <==> AgreeWhereBoth(stamp.sha, p.lower(expectedSha))
  {
    var a, b := stamp.sha, p.lower(expectedSha);
    if AgreeWhereBoth(a, b) {
      if |a| <= |b| { assert b[..|a|] == a; } else { assert a[..|b|] == b; }
    }
  }

  lemma {:induction false} ChunksAreLines(p: Patterns, lines: seq<string>)
    ensures ChunksRun(p, Collect(lines, StepsIn(p))) == ChunkLines(p, lines)
  {
    if lines != [] {
      var init, last := lines[..|lines| - 1], lines[|lines| - 1];
      ChunksAreLines(p, init);
      if p.step(last).Some? {
        CollectSnoc(Collect(init, StepsIn(p)), p.step(last).value, ChunkStep(p));
      } else {
        assert Collect(init, StepsIn(p)) + [] == Collect(init, StepsIn(p));
      }
    }
  }

  lemma {:induction false} FailedAreNamed(p: Patterns, lines: seq<string>)
    ensures var found := Collect(Collect(Collect(lines, StepsIn(p)), FailedOf), FailedFinding);
            && |found| == |FailedNames(p, lines)|
            && forall i :: 0 <= i < |found| ==>
                 found[i].Finding? && found[i].severity == Blocking && found[i].ref == FailedNames(p, lines)[i]
  {
    if lines != [] {
      var init, last := lines[..|lines| - 1], lines[|lines| - 1];
      FailedAreNamed(p, init);
      OneMoreFailed(p, init, last);
      ConcatLast([], lines);
      hide Collect;
    }
  }

  lemma OneMoreFailed(p: Patterns, init: seq<string>, last: string)
    ensures var before := Collect(Collect(Collect(init, StepsIn(p)), FailedOf), FailedFinding);
            Collect(Collect(Collect(init + [last], StepsIn(p)), FailedOf), FailedFinding)
            == before + match p.step(last)
                        case None => []
                        case Some(s) => if s.rc != 0 then FailedFinding(s) else []
  {
    var steps := Collect(init, StepsIn(p));
    CollectSnoc(init, last, StepsIn(p));
    if p.step(last).Some? {
      var s := p.step(last).value;
      CollectSnoc(steps, s, FailedOf);
      if s.rc != 0 {
        CollectSnoc(Collect(steps, FailedOf), s, FailedFinding);
      } else {
        assert Collect(steps, FailedOf) + [] == Collect(steps, FailedOf);
      }
    } else {
      assert steps + [] == steps;
    }
  }

  lemma {:induction false} ProblemsAreHigh(problems: seq<BindingProblem>, evidenceRef: Option<string>)
    ensures var found := Collect(problems, ProblemFinding(evidenceRef));
            && |found| == |problems|
            && forall i :: 0 <= i < |found| ==>
                 && found[i].Finding? && found[i].severity == High
                 && found[i].ref == match evidenceRef case None => "evidence" case Some(e) => e
  {
    if problems != [] { ProblemsAreHigh(problems[..|problems| - 1], evidenceRef); }
  }

  /** Each way in which the run is not tied to the commit is one problem. */
  lemma ProblemsAre(p: Patterns, text: string, expectedSha: string)
    ensures var lines := Lines(text);
            |BindingProblems(p, FirstStamp(p, lines), StepsOf(p, text), expectedSha)|
            == (if WrongCommit(p, lines, expectedSha) then 1 else 0)
               + (if WrongChunks(p, lines) then 1 else 0) + (if Dirty(p, lines) then 1 else 0)
  {
    hide Lines, FirstStamp, Collect, ChunksRun, ChunkLines, AgreeWhereBoth, SameCommit;
    var stamp := FirstStamp(p, Lines(text));
    if stamp.Some? { SameCommitIff(p, stamp.value, expectedSha); }
    ChunksAreLines(p, Lines(text));
  }

  lemma FindingsExplain(p: Patterns, text: string, evidenceRef: Option<string>, expectedSha: string)
    ensures Explains(p, text, evidenceRef, expectedSha, VerifierReportOf(p, text, evidenceRef, expectedSha))
  {
    hide Lines, FirstStamp, Collect, BindingProblems, FailedNames, WrongCommit, WrongChunks, Dirty, Complete;
    FailedAreNamed(p, Lines(text));
    ProblemsAreHigh(BindingProblems(p, FirstStamp(p, Lines(text)), StepsOf(p, text), expectedSha), evidenceRef);
    ProblemsAre(p, text, expectedSha);
  }

  lemma {:induction false} StepsIff(p: Patterns, lines: seq<string>)
    ensures Collect(lines, StepsIn(p)) != [] <==> HasStep(p, lines)
  {
    if lines != [] {
      var init, last := lines[..|lines| - 1], lines[|lines| - 1];
      assert lines == init + [last];
      StepsIff(p, init);
      assert HasStep(p, init + [last]) <==> HasStep(p, init) || p.step(last).Some? by {
        if p.step(last).Some? { assert (init + [last])[|init|] == last; }
        if HasStep(p, init) {
          var i :| 0 <= i < |init| && p.step(init[i]).Some?;
          assert (init + [last])[i] == init[i];
        }
      }
    }
  }

  lemma {:induction false} FailedIff(p: Patterns, lines: seq<string>)
    ensures Collect(Collect(lines, StepsIn(p)), FailedOf) != [] <==> HasFailedStep(p, lines)
  {
    if lines != [] {
      var init, last := lines[..|lines| - 1], lines[|lines| - 1];
      assert lines == init + [last];
      FailedIff(p, init);
      LastFails(p, init, last);
      if p.step(last).Some? {
        CollectConcat(Collect(init, StepsIn(p)), [p.step(last).value], FailedOf);
        CollectOne(p.step(last).value, FailedOf);
      } else {
        assert Collect(init, StepsIn(p)) + [] == Collect(init, StepsIn(p));
      }
    }
  }

  lemma LastFails(p: Patterns, init: seq<string>, last: string)
    ensures HasFailedStep(p, init + [last])
       <==> HasFailedStep(p, init) || (p.step(last).Some? && p.step(last).value.rc != 0)
  {
    var lines := init + [last];
    assert lines[|init|] == last;
    if HasFailedStep(p, init) {
      var i :| 0 <= i < |init| && p.step(init[i]).Some? && p.step(init[i]).value.rc != 0;
      assert lines[i] == init[i];
    }
  }

  lemma BlankAtEnd(init: seq<string>, last: string)
    requires Trim(last) == ""
    ensures EndsWithDone(init + [last]) <==> EndsWithDone(init)
  {
    var lines := init + [last];
    if EndsWithDone(init) {
      var i :| 0 <= i < |init| && Trim(init[i]) == "DONE" && forall j :: i < j < |init| ==> Trim(init[j]) == "";
      assert Trim(lines[i]) == "DONE";
    }
    if EndsWithDone(lines) {
      var i :| 0 <= i < |lines| && Trim(lines[i]) == "DONE" && forall j :: i < j < |lines| ==> Trim(lines[j]) == "";
      assert i < |init| && Trim(init[i]) == "DONE";
      forall j | i < j < |init|
        ensures Trim(init[j]) == ""
      {
        assert Trim(lines[j]) == "";
      }
    }
  }

  lemma TextAtEnd(init: seq<string>, last: string)
    requires Trim(last) != ""
    ensures EndsWithDone(init + [last]) <==> Trim(last) == "DONE"
  {
    var lines := init + [last];
    assert lines[|init|] == last;
  }

  lemma {:induction false} CompleteIff(lines: seq<string>)
    ensures Complete(lines) <==> EndsWithDone(lines)
  {
    if lines != [] {
      var init, last := lines[..|lines| - 1], lines[|lines| - 1];
      assert lines == init + [last];
      CompleteIff(init);
      if Trim(last) == "" {
        BlankAtEnd(init, last);
        assert Collect(init, NonBlank) + [] == Collect(init, NonBlank);
      } else {
        TextAtEnd(init, last);
      }
    }
  }

  /** The verdict: a failed step anywhere is a FAIL; a PASS needs a step, a terminal DONE and a clean tie. */
  lemma VerdictIff(p: Patterns, text: string, evidenceRef: Option<string>, expectedSha: string)
    ensures SaysOfTheRun(p, text, expectedSha, VerifierReportOf(p, text, evidenceRef, expectedSha).verdict)
  {
    hide Lines, HasFailedStep, HasStep, EndsWithDone, Complete, FirstStamp, Collect, BindingProblems,
      WrongCommit, WrongChunks, Dirty;
    ProblemsAre(p, text, expectedSha);
    FailedIff(p, Lines(text));
    StepsIff(p, Lines(text));
    CompleteIff(Lines(text));
  }

  /** A failed step is a blocking finding; a problem with the stamp is not. */
  lemma BlockingIffFailed(failed: seq<Step>, problems: seq<BindingProblem>, ref: Option<string>)
    ensures var findings := Collect(failed, FailedFinding) + Collect(problems, ProblemFinding(ref));
            (exists i :: 0 <= i < |findings| && IsBlocking(findings[i])) <==> failed != []
  {
    var blocking, others := Collect(failed, FailedFinding), Collect(problems, ProblemFinding(ref));
    if failed != [] {
      var f := FailedFinding(failed[0])[0];
      CollectMember(failed, FailedFinding, f);
      var i :| 0 <= i < |blocking| && blocking[i] == f;
      assert (blocking + others)[i] == f;
    }
    forall f | f in others
      ensures !IsBlocking(f)
    {
      CollectMember(problems, ProblemFinding(ref), f);
    }
  }

  lemma BlockingFound(r: Report)
    requires r.Report? && r.findings.Some?
    ensures HasBlocking(r) <==> exists f :: f in r.findings.value && f.Finding? && f.severity == Blocking
  {
  }

  /** A derived report is accepted by the validator exactly when it names its evidence. */
  lemma DerivedReportIsWellFormed(p: Patterns, text: string, evidenceRef: Option<string>, expectedSha: string)
    ensures Validate(VerifierReportOf(p, text, evidenceRef, expectedSha)) == None <==> evidenceRef.Some?
  {
    hide Validate, Collect, BindingProblems, StepsOf, Complete, FirstStamp, IsBlocking;
    var r := VerifierReportOf(p, text, evidenceRef, expectedSha);
    var steps := StepsOf(p, text);
    var failed := Collect(steps, FailedOf);
    var problems := BindingProblems(p, FirstStamp(p, Lines(text)), steps, expectedSha);
    BlockingIffFailed(failed, problems, evidenceRef);
    ValidIffWellFormed(r);
    assert r.findings.value == Collect(failed, FailedFinding) + Collect(problems, ProblemFinding(evidenceRef));
    assert HasBlocking(r) <==> failed != [];
    BlockingFound(r);
  }

  /** Appending lines to a results file never turns a FAIL into anything else. */
  lemma FailStaysFail(p: Patterns, text: string, more: string, evidenceRef: Option<string>, sha: string, sha': string)
    requires VerifierReportOf(p, text, evidenceRef, sha).verdict == Fail
    ensures VerifierReportOf(p, text + "\n" + more, evidenceRef, sha').verdict == Fail
  {
    hide Lines, VerifierReportOf, HasStep, EndsWithDone, TiedTo;
    VerdictIff(p, text, evidenceRef, sha);
    VerdictIff(p, text + "\n" + more, evidenceRef, sha');
    AppendedLines(text, more);
    var lines, all := Lines(text), Lines(text + "\n" + more);
    var i :| 0 <= i < |lines| && p.step(lines[i]).Some? && p.step(lines[i]).value.rc != 0;
    assert all[i] == lines[i];
  }
}
