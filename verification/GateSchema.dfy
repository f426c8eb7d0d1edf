/** The shape of one gate's report, and the validator that decides whether a report is well formed. */
module GateSchema {
  import opened Prelude

  datatype OpinionGate = Security | RedHat | Tester | CodeReviewer

  /** The value of `gate_name`.  `Unknown` stands for every other value, a missing one included; two of
      them are the same key exactly when they are equal. */
  datatype GateName = Verifier | Opinion(gate: OpinionGate) | Unknown(key: nat)

  const MISSING_GATE := Unknown(0)

  const OPINION_GATES := [Security, RedHat, Tester, CodeReviewer]

  function Rank(g: OpinionGate): (n: nat)
    ensures n < |OPINION_GATES| && OPINION_GATES[n] == g
    ensures forall i :: 0 <= i < |OPINION_GATES| && OPINION_GATES[i] == g ==> i == n
  {
    match g case Security => 0 case RedHat => 1 case Tester => 2 case CodeReviewer => 3
  }

  datatype Verdict = Pass | Fail | NotApplicable | Unverified | OtherVerdict

  datatype Severity = Blocking | High | Medium | Low | OtherSeverity

  /** `ref == ""` also stands for a missing reference. */
  datatype Finding = NullFinding | Finding(severity: Severity, ref: string, summary: string)

  /** `NoScore` is null or undefined, `Integer` an integral number, `NotInteger` anything else. */
  datatype Score = NoScore | Integer(value: int) | NotInteger

  datatype NaReason = NoReason | BlankReason | Reason(text: string) | NotText

  datatype Report =
    | NotAnObject
    | Report(gate: GateName, verdict: Verdict, score: Score, naReason: NaReason,
             findings: Option<seq<Finding>>, evidenceRef: Option<string>)

  datatype Problem =
    | NotObject | InvalidGate | InvalidVerdict | FindingsMissing | EvidenceRequired | UnverifiedIsVerifierOnly
    | VerifierScored | NaIsOpinionOnly | FailWithoutBlocking | BlockingWithoutFail | ScoreMustBeNull
    | ScoreOutOfRange | NaReasonRequired | NaReasonForbidden | DuplicateReport | UnexpectedGate

  function GateOf(r: Report): GateName {
    if r.NotAnObject? then MISSING_GATE else r.gate
  }

  predicate IsBlocking(f: Finding) {
    f.Finding? && f.severity == Blocking
  }

  predicate HasBlocking(r: Report) {
    r.Report? && r.findings.Some? && exists i :: 0 <= i < |r.findings.value| && IsBlocking(r.findings.value[i])
  }

  /** The first problem of a report, in the order in which the validator looks. */
  function Validate(r: Report): Option<Problem> {
    if r.NotAnObject? then Some(NotObject)
    else if r.gate.Unknown? then Some(InvalidGate)
    else if r.verdict == OtherVerdict then Some(InvalidVerdict)
    else if r.findings.None? then Some(FindingsMissing)
    else if r.gate == Verifier && r.evidenceRef.None? then Some(EvidenceRequired)
    else
      var isOpinion := r.gate != Verifier;
      if isOpinion && r.verdict == Unverified then Some(UnverifiedIsVerifierOnly)
      else if !isOpinion && r.score != NoScore then Some(VerifierScored)
      else if !isOpinion && r.verdict == NotApplicable then Some(NaIsOpinionOnly)
      else if r.verdict == Fail && !HasBlocking(r) then Some(FailWithoutBlocking)
      else if HasBlocking(r) && r.verdict != Fail then Some(BlockingWithoutFail)
      else if (r.verdict == NotApplicable || r.verdict == Unverified) && r.score != NoScore then Some(ScoreMustBeNull)
      else if (r.verdict == Pass || r.verdict == Fail) && isOpinion
              && !(r.score.Integer? && 1 <= r.score.value <= 5) then Some(ScoreOutOfRange)
      else if r.verdict == NotApplicable && !r.naReason.Reason? then Some(NaReasonRequired)
      else if r.verdict != NotApplicable && r.naReason != NoReason then Some(NaReasonForbidden)
      else None
  }

  /** The table of well-formed reports: which fields each verdict of each gate carries. */
  predicate WellFormed(r: Report) {
    && r.Report? && r.findings.Some?
    && (r.verdict == Fail <==> exists f :: f in r.findings.value && f.Finding? && f.severity == Blocking)
    && match r.gate
       case Unknown(_) => false
       case Verifier =>
         r.verdict in {Pass, Fail, Unverified} && r.score == NoScore && r.naReason == NoReason && r.evidenceRef.Some?
       case Opinion(_) =>
         match r.verdict
         case NotApplicable => r.score == NoScore && r.naReason.Reason?
         case Pass => r.score.Integer? && 1 <= r.score.value <= 5 && r.naReason == NoReason
         case Fail => r.score.Integer? && 1 <= r.score.value <= 5 && r.naReason == NoReason
         case _ => false
  }

  lemma ValidIffWellFormed(r: Report)
    ensures Validate(r) == None <==> WellFormed(r)
  {
  }
}
