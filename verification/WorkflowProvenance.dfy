/** Binding an opinion gate's report to a reviewer recorded in a workflow run directory. */
module WorkflowProvenance {
  import opened Prelude
  import opened GateSchema
  import opened OpinionProvenance

  datatype ResultVerdict = SaysPass | SaysFail | SaysOther

  /** What a reviewer recorded; every entry is white-space normalised. */
  datatype Recorded =
    | FreeText(entry: string)
    | Structured(verdict: ResultVerdict, blocking: seq<string>, nonblocking: seq<string>, findings: seq<string>)

  /** A completed agent.  `promptTask` is the first task id its prompt names; `order` its place in the journal;
      `time` when it was dispatched. */
  datatype Agent = Agent(agentId: string, agentType: string, result: Recorded, promptTask: Option<string>,
                         order: Option<nat>, time: Option<int>)

  /** A dispatch label, and the task it names when it has the form `role:task`. */
  datatype Label = Label(text: string, task: Option<string>)

  /** `dirTasks` are the task ids in the directory's name; task ids are upper case throughout. */
  datatype Run = Run(agents: seq<Agent>, labels: seq<Label>, dirTasks: seq<string>)

  const MIN_SUMMARY := 20

  predicate Includes(s: string, part: string) {
    exists i :: 0 <= i <= |s| && part <= s[i..]
  }

  predicate Quoted(entries: seq<string>, summary: string) {
    exists i :: 0 <= i < |entries| && Includes(entries[i], summary)
  }

  function BlockingEntries(r: Recorded): seq<string> {
    match r
    case FreeText(_) => []
    case Structured(v, blocking, _, findings) => blocking + if v == SaysFail then findings else []
  }

  function AllEntries(r: Recorded): seq<string> {
    match r
    case FreeText(e) => [e]
    case Structured(v, _, nonblocking, findings) =>
      BlockingEntries(r) + (nonblocking + if v == SaysFail then [] else findings)
  }

  function ExpectedVerdict(r: Recorded): Option<Verdict>
    requires r.Structured?
  {
    if r.verdict == SaysPass && BlockingEntries(r) == [] then Some(Pass)
    else if r.verdict == SaysFail && BlockingEntries(r) != [] then Some(Fail)
    else None
  }

  predicate Supported(f: Finding, r: Recorded, norm: string -> string) {
    var summary := if f.Finding? then norm(f.summary) else norm("");
    && |summary| >= MIN_SUMMARY && Quoted(AllEntries(r), summary)
    && (IsBlocking(f) ==> Quoted(BlockingEntries(r), summary))
  }

  function Listed(report: Report): seq<Finding> {
    if report.Report? && report.findings.Some? then report.findings.value else []
  }

  /** The report transcribes the recorded result: same verdict, and nothing in it that was not recorded. */
  predicate Consistent(report: Report, r: Recorded, norm: string -> string) {
    && report.Report?
    && (r.Structured? ==> Some(report.verdict) == ExpectedVerdict(r))
    && if Listed(report) == [] then AllEntries(r) == []
       else forall i :: 0 <= i < |Listed(report)| ==> Supported(Listed(report)[i], r, norm)
  }

  predicate RunTied(run: Run, taskId: string) {
    taskId != ""
    && ((run.dirTasks != [] && forall i :: 0 <= i < |run.dirTasks| ==> run.dirTasks[i] == taskId)
        || exists i :: 0 <= i < |run.labels| && (run.labels[i].text == taskId || run.labels[i].task == Some(taskId)))
  }

  predicate Tied(run: Run, taskId: string, a: Agent) {
    RunTied(run, taskId) || (taskId != "" && a.promptTask == Some(taskId))
  }

  function Candidate(run: Run, taskId: string, role: string): Agent -> seq<Agent> {
    (a: Agent) => if a.agentType == role && Tied(run, taskId, a) then [a] else []
  }

  function Place(a: Agent): int {
    if a.order.Some? then a.order.value else -1
  }

  /** The fold `later order wins, otherwise keep`. */
  function Latest(s: seq<Agent>): Agent
    requires s != []
  {
    if |s| == 1 then s[0]
    else
      var before := Latest(s[..|s| - 1]);
      if Place(s[|s| - 1]) > Place(before) then s[|s| - 1] else before
  }

  function CheckWorkflowProvenance(run: Run, taskId: string, report: Report, commitTime: Option<int>,
                                   norm: string -> string)
    : Option<string>
  {
    match RoleForGate(GateOf(report))
    case None => None
    case Some(role) =>
      var candidates := Collect(run.agents, Candidate(run, taskId, role));
      if candidates == [] then None
      else
        var latest := Latest(candidates);
        if !Consistent(report, latest.result, norm) then None
        else if commitTime.None? || latest.time.None? || latest.time.value <= commitTime.value then None
        else Some(latest.agentId)
  }

  // ----- What a binding proves -----

  /** `a` stands in the journal before `b` does; an agent without a place stands before all that have one. */
  ghost predicate Before(a: Agent, b: Agent) {
    b.order.Some? && (a.order.None? || a.order.value < b.order.value)
  }

  lemma PlaceIff(a: Agent, b: Agent)
    ensures Place(a) < Place(b) <==> Before(a, b)
  {
  }

  /** The first of the candidates that no other comes after. */
  ghost predicate FirstHighest(s: seq<Agent>, a: Agent, i: nat) {
    i < |s| && s[i] == a && forall j :: 0 <= j < |s| ==> !Before(a, s[j]) && (j < i ==> Before(s[j], a))
  }

  lemma {:induction false} LatestIsLatest(s: seq<Agent>)
    requires s != []
    ensures exists i :: FirstHighest(s, Latest(s), i)
  {
    forall a, b { PlaceIff(a, b); }
    hide Place, Before;
    if |s| == 1 {
      assert FirstHighest(s, Latest(s), 0) by { PlaceIff(s[0], s[0]); }
    } else {
      var init, last := s[..|s| - 1], s[|s| - 1];
      LatestIsLatest(init);
      var i :| FirstHighest(init, Latest(init), i);
      assert FirstHighest(s, Latest(s), if Place(last) > Place(Latest(init)) then |init| else i);
    }
  }

  /** A reviewer of the gate's role, tied to the task, that no tied reviewer of the role came after, whose
      record the report transcribes, dispatched after the commit. */
  ghost predicate Vouches(run: Run, taskId: string, role: string, report: Report, commitTime: int,
                          norm: string -> string, a: Agent) {
    && a in run.agents && a.agentType == role && Tied(run, taskId, a)
    && (forall b :: b in run.agents && b.agentType == role && Tied(run, taskId, b) ==> !Before(a, b))
    && Consistent(report, a.result, norm)
    && a.time.Some? && a.time.value > commitTime
  }

  lemma BoundMeansVouched(run: Run, taskId: string, report: Report, commitTime: Option<int>, norm: string -> string)
    ensures CheckWorkflowProvenance(run, taskId, report, commitTime, norm).Some? ==>
              RoleForGate(GateOf(report)).Some? && commitTime.Some?
              && exists a :: Vouches(run, taskId, RoleForGate(GateOf(report)).value, report, commitTime.value, norm, a)
                             && CheckWorkflowProvenance(run, taskId, report, commitTime, norm) == Some(a.agentId)
  {
    if CheckWorkflowProvenance(run, taskId, report, commitTime, norm).Some? {
      var role := RoleForGate(GateOf(report)).value;
      var f := Candidate(run, taskId, role);
      var candidates := Collect(run.agents, f);
      LatestIsLatest(candidates);
      var a := Latest(candidates);
      CollectMember(run.agents, f, a);
      forall b | b in run.agents && b.agentType == role && Tied(run, taskId, b)
        ensures !Before(a, b)
      {
        var i :| 0 <= i < |run.agents| && run.agents[i] == b;
        CollectMember(run.agents, f, b);
      }
      assert Vouches(run, taskId, role, report, commitTime.value, norm, a);
    }
  }

  /** An earlier review never stands in for a later one: when the reviewer that came last, alone at its place,
      did not record what the report says, the report is not bound. */
  lemma LaterReviewDecides(run: Run, taskId: string, report: Report, commitTime: Option<int>, norm: string -> string,
                           a: Agent)
    requires RoleForGate(GateOf(report)).Some?
    requires a in run.agents && a.agentType == RoleForGate(GateOf(report)).value && Tied(run, taskId, a)
    requires forall b :: b in run.agents && b != a && b.agentType == a.agentType && Tied(run, taskId, b) ==>
               Before(b, a)
    ensures CheckWorkflowProvenance(run, taskId, report, commitTime, norm).Some?
       <==> Consistent(report, a.result, norm) && commitTime.Some? && a.time.Some? && a.time.value > commitTime.value
  {
    hide Consistent, Tied, Collect, Latest, Place, Before;
    var f := Candidate(run, taskId, a.agentType);
    var candidates := Collect(run.agents, f);
    CollectMember(run.agents, f, a);
    var i :| 0 <= i < |run.agents| && run.agents[i] == a;
    LatestIsLatest(candidates);
    CollectMember(run.agents, f, Latest(candidates));
  }

  /** A bound report agrees with the record: each blocking finding quotes a recorded blocking entry, and for a
      structured record a PASS means nothing blocking was recorded and a FAIL that something was. */
  lemma BoundReportAgrees(report: Report, r: Recorded, norm: string -> string)
    requires Consistent(report, r, norm)
    ensures report.findings.Some? ==>
              forall f :: f in report.findings.value && IsBlocking(f) ==>
                |norm(f.summary)| >= MIN_SUMMARY && Quoted(BlockingEntries(r), norm(f.summary))
    ensures HasBlocking(report) ==> BlockingEntries(r) != []
    ensures r.Structured? ==>
              && report.verdict in {Pass, Fail}
              && (report.verdict == Pass <==> BlockingEntries(r) == [])
              && (r.verdict == SaysPass <==> report.verdict == Pass)
  {
    if report.findings.Some? {
      forall f | f in report.findings.value && IsBlocking(f)
        ensures |norm(f.summary)| >= MIN_SUMMARY && Quoted(BlockingEntries(r), norm(f.summary))
      {
        assert Supported(f, r, norm);
      }
    }
    if HasBlocking(report) {
      var i :| 0 <= i < |report.findings.value| && IsBlocking(report.findings.value[i]);
      assert Supported(report.findings.value[i], r, norm);
    }
  }

  /** A reviewer is tied to a task that is named when the directory's name holds the id of that task and of no other, a
      label is the id or a role followed by it, or the reviewer's own prompt names it first. */
  lemma TiedIff(run: Run, taskId: string, a: Agent)
    ensures Tied(run, taskId, a) <==>
              && taskId != ""
              && (|| (run.dirTasks != [] && forall t :: t in run.dirTasks ==> t == taskId)
                  || (exists l :: l in run.labels && (l.text == taskId || l.task == Some(taskId)))
                  || a.promptTask == Some(taskId))
  {
    AllAre(run.dirTasks, (t: string) => t == taskId);
    assert (exists l :: l in run.labels && (l.text == taskId || l.task == Some(taskId)))
      <==> exists i :: 0 <= i < |run.labels| && (run.labels[i].text == taskId || run.labels[i].task == Some(taskId));
  }

  /** What a result records: its blocking entries, or the others.  A failing result's plain findings are blocking, those
      of any other result are not. */
  ghost predicate Records(r: Recorded, e: string, blocking: bool) {
    match r
    case FreeText(t) => !blocking && e == t
    case Structured(v, b, n, f) =>
      if blocking then e in b || (v == SaysFail && e in f) else e in n || (v != SaysFail && e in f)
  }

  /** The text occurs in a recorded entry; with `blocking`, in a blocking one. */
  ghost predicate OccursIn(r: Recorded, text: string, blocking: bool) {
    exists e :: (Records(r, e, true) || (!blocking && Records(r, e, false))) && Holds(e, text)
  }

  ghost predicate Holds(s: string, part: string) {
    exists a, b :: s == a + part + b
  }

  lemma IncludesIff(s: string, part: string)
    ensures Includes(s, part) <==> Holds(s, part)
  {
    if i :| 0 <= i <= |s| && part <= s[i..] { assert s == s[..i] + part + s[i + |part|..]; }
    if a, b :| s == a + part + b { assert s[|a|..] == part + b; }
  }

  lemma EntriesAre(r: Recorded, e: string)
    ensures e in BlockingEntries(r) <==> Records(r, e, true)
    ensures e in AllEntries(r) <==> Records(r, e, true) || Records(r, e, false)
  {
  }

  lemma QuotedIff(r: Recorded, text: string)
    ensures Quoted(AllEntries(r), text) <==> OccursIn(r, text, false)
    ensures Quoted(BlockingEntries(r), text) <==> OccursIn(r, text, true)
  {
    hide Includes, Holds, AllEntries, BlockingEntries, Records;
    forall e { IncludesIff(e, text); }
    forall e
      ensures e in BlockingEntries(r) <==> Records(r, e, true)
      ensures e in AllEntries(r) <==> Records(r, e, true) || Records(r, e, false)
    {
      EntriesAre(r, e);
    }
  }

  lemma NothingRecorded(r: Recorded)
    ensures BlockingEntries(r) == [] <==> forall e :: !Records(r, e, true)
    ensures AllEntries(r) == [] <==> forall e :: !Records(r, e, true) && !Records(r, e, false)
  {
    forall e
      ensures e in BlockingEntries(r) <==> Records(r, e, true)
      ensures e in AllEntries(r) <==> Records(r, e, true) || Records(r, e, false)
    {
      EntriesAre(r, e);
    }
    if BlockingEntries(r) != [] { assert BlockingEntries(r)[0] in BlockingEntries(r); }
    if AllEntries(r) != [] { assert AllEntries(r)[0] in AllEntries(r); }
  }

  /** A PASS where the result passed and recorded nothing blocking, a FAIL where it failed and did. */
  ghost predicate VerdictAgrees(verdict: Verdict, r: Recorded)
    requires r.Structured?
  {
    || (verdict == Pass && r.verdict == SaysPass && forall e :: !Records(r, e, true))
    || (verdict == Fail && r.verdict == SaysFail && exists e :: Records(r, e, true))
  }

  /** The finding's text has at least twenty characters and occurs in a recorded entry; that of a blocking finding in a
      blocking one. */
  ghost predicate Transcribed(f: Finding, r: Recorded, norm: string -> string) {
    var text := norm(if f.Finding? then f.summary else "");
    && |text| >= 20 && OccursIn(r, text, false)
    && (f.Finding? && f.severity == Blocking ==> OccursIn(r, text, true))
  }

  lemma VerdictAgreesIff(verdict: Verdict, r: Recorded)
    requires r.Structured?
    ensures ExpectedVerdict(r) == Some(verdict) <==> VerdictAgrees(verdict, r)
  {
    hide Records, BlockingEntries;
    NothingRecorded(r);
  }

  lemma TranscribedIff(f: Finding, r: Recorded, norm: string -> string)
    ensures Supported(f, r, norm) <==> Transcribed(f, r, norm)
  {
    hide Quoted, OccursIn, AllEntries, BlockingEntries;
    QuotedIff(r, norm(if f.Finding? then f.summary else ""));
  }

  /** When a report transcribes a result: its verdict agrees with a structured result's, every finding is transcribed
      from it, and a report without findings transcribes a result without entries. */
  lemma ConsistentIff(report: Report, r: Recorded, norm: string -> string)
    ensures Consistent(report, r, norm) <==>
              && report.Report? && (r.Structured? ==> VerdictAgrees(report.verdict, r))
              && if report.findings.None? || report.findings.value == []
                 then forall e :: !Records(r, e, true) && !Records(r, e, false)
                 else forall f :: f in report.findings.value ==> Transcribed(f, r, norm)
  {
    hide Records, AllEntries, Supported, Transcribed, VerdictAgrees, ExpectedVerdict;
    if report.Report? {
      if r.Structured? { VerdictAgreesIff(report.verdict, r); }
      NothingRecorded(r);
      forall f: Finding
        ensures Supported(f, r, norm) <==> Transcribed(f, r, norm)
      {
        TranscribedIff(f, r, norm);
      }
      AllAre(Listed(report), (f: Finding) => Supported(f, r, norm));
    }
  }
}
