/** The generated run record: what git and the gate know filled in, what needs judgement marked as such. */
module RunRecordPrinter {
  import opened Prelude
  import opened Text
  import opened Frontmatter
  import opened FrontmatterPrinter
  import opened FrontmatterRoundTrip
  import opened RunRecord

  const NEEDS_JUDGEMENT := "<<NEEDS JUDGEMENT>>"

  const CONSTITUTION := "docs/governance/constitution/" + "CONSTITUTION.md"
  const RECORD_STANDARD := "docs/governance/standards/" + "WORK_RECORD_STANDARD.md"

  datatype RunInput = RunInput(
    subjects: seq<string>,
    shas: seq<string>,
    ticketPaths: seq<string>,
    taskClass: string,
    date: string,
    gateSummary: Option<string>)

  function Task(input: RunInput): string {
    if input.subjects == [] || input.subjects[0] == "" then NEEDS_JUDGEMENT else input.subjects[0]
  }

  function GateLine(input: RunInput): string {
    if input.gateSummary.Some? && input.gateSummary.value != "" then input.gateSummary.value
    else NEEDS_JUDGEMENT + " \U{2014} paste the verify verdict line"
  }

  function Commits(shas: seq<string>): seq<Entry> {
    seq(|shas|, i requires 0 <= i < |shas| => Bare("commit " + shas[i]))
  }

  function Evidence(input: RunInput): (r: seq<Entry>)
    ensures |r| == |input.shas| + 1
  {
    Commits(input.shas) + [Mapping([Pair("gate", GateLine(input))])]
  }

  /** An omitted agent with its reason still to be given. */
  function Stub(agent: string): Entry {
    Mapping([Pair("agent", agent), Pair("reason", NEEDS_JUDGEMENT), Pair("note", NEEDS_JUDGEMENT)])
  }

  function Stubs(agents: seq<string>): (r: seq<Entry>)
    ensures |r| == |agents|
  {
    seq(|agents|, i requires 0 <= i < |agents| => Stub(agents[i]))
  }

  // Where some of the seventeen fields stand.
  const ROUND: nat := 3
  const TICKETS: nat := 7
  const SELECTED: nat := 10
  const OMITTED: nat := 11
  const VERDICT: nat := 14
  const EVIDENCE: nat := 15
  const ARCHIVE: nat := 16

  function Fields(input: RunInput): (r: seq<Field>)
    ensures |r| == 17
  {
    [ Inline("task", Task(input)),
      Inline("document_type", "run"),
      Inline("date", input.date),
      Inline("round", "1"),
      Inline("status", "pass"),
      Inline("task_class", input.taskClass),
      Inline("governing_docs", InlineList([CONSTITUTION, RECORD_STANDARD])),
      Inline("related_tickets", InlineList(input.ticketPaths)),
      Inline("related_specs", "[]"),
      Inline("related_adrs", "[]"),
      Inline("selected_agents", NEEDS_JUDGEMENT),
      Block("omitted_agents", Stubs(AGENTS)),
      Inline("deterministic_checks", "[npm run verify]"),
      Inline("human_gates", "[]"),
      Inline("verdict", NEEDS_JUDGEMENT),
      Block("completion_evidence", Evidence(input)),
      Inline("archive_when", NEEDS_JUDGEMENT) ]
  }

  /** Every text that goes into a line is a single line, as git and the gate's patterns deliver them. */
  predicate OneLiners(input: RunInput) {
    && (input.subjects != [] ==> OneLine(input.subjects[0]))
    && (forall i :: 0 <= i < |input.shas| ==> OneLine(input.shas[i]))
    && (forall i :: 0 <= i < |input.ticketPaths| ==> OneLine(input.ticketPaths[i]))
    && OneLine(input.taskClass) && OneLine(input.date)
    && (input.gateSummary.Some? ==> OneLine(input.gateSummary.value))
  }

  lemma FirstIdents()
    ensures IsIdent("task") && IsIdent("document_type") && IsIdent("date") && IsIdent("round") && IsIdent("status")
    ensures IsIdent("task_class") && IsIdent("governing_docs")
  {
  }

  lemma MiddleIdents()
    ensures IsIdent("related_tickets") && IsIdent("related_specs") && IsIdent("related_adrs")
    ensures IsIdent("selected_agents") && IsIdent("omitted_agents") && IsIdent("verdict")
  {
  }

  lemma LastIdents()
    ensures IsIdent("deterministic_checks") && IsIdent("human_gates") && IsIdent("completion_evidence")
    ensures IsIdent("archive_when")
  {
  }

  lemma PairIdents()
    ensures IsIdent("agent") && IsIdent("reason") && IsIdent("note") && IsIdent("gate")
  {
  }

  lemma Words()
    ensures OneLine("run") && OneLine("1") && OneLine("pass") && OneLine("[]") && OneLine("[npm run verify]")
    ensures OneLine(NEEDS_JUDGEMENT)
  {
  }

  lemma GoverningDocs()
    ensures OneLine(CONSTITUTION) && OneLine(RECORD_STANDARD)
  {
    assert OneLine("docs/governance/constitution/") && OneLine("CONSTITUTION.md");
    assert OneLine("docs/governance/standards/") && OneLine("WORK_RECORD_STANDARD.md");
  }

  lemma CommitFits(sha: string)
    requires OneLine(sha)
    ensures EntryFits(Bare("commit " + sha))
  {
    var t := "commit " + sha;
    assert t[6] == ' ';
    IdentEndIff(t, 0, 6);
  }

  lemma StubFits(agent: string)
    requires OneLine(agent)
    ensures EntryFits(Stub(agent))
  {
    hide IsIdent, OneLine;
    PairIdents();
    Words();
  }

  lemma AgentsArePlain(i: nat)
    requires i < |AGENTS|
    ensures OneLine(AGENTS[i]) && ReadsAs(AGENTS[i], AGENTS[i]) && AGENTS[i] != "" && AGENTS[i] != NEEDS_JUDGEMENT
  {
    assert NEEDS_JUDGEMENT[0] == '<';
  }

  lemma GateFits(input: RunInput)
    requires OneLiners(input)
    ensures EntryFits(Mapping([Pair("gate", GateLine(input))]))
  {
    PairIdents();
    Words();
  }

  lemma EvidenceFits(input: RunInput)
    requires OneLiners(input)
    ensures forall i :: 0 <= i < |Evidence(input)| ==> EntryFits(Evidence(input)[i])
  {
    hide EntryFits, GateLine;
    GateFits(input);
    forall i | 0 <= i < |input.shas|
      ensures EntryFits(Commits(input.shas)[i])
    {
      CommitFits(input.shas[i]);
    }
  }

  lemma InlineListOneLine(pieces: seq<string>)
    requires forall i :: 0 <= i < |pieces| ==> OneLine(pieces[i])
    ensures OneLine(InlineList(pieces))
  {
    JoinOneLine(pieces);
  }

  lemma StubsFit(agents: seq<string>)
    requires forall i :: 0 <= i < |agents| ==> OneLine(agents[i])
    ensures forall i :: 0 <= i < |agents| ==> EntryFits(Stubs(agents)[i])
  {
    hide EntryFits, OneLine, Stub;
    forall i | 0 <= i < |agents|
      ensures EntryFits(Stub(agents[i]))
    {
      StubFits(agents[i]);
    }
  }

  lemma FieldsFit(input: RunInput)
    requires OneLiners(input)
    ensures forall i :: 0 <= i < |Fields(input)| ==> FieldFits(Fields(input)[i])
  {
    hide IsIdent, OneLine, EntryFits, InlineList, Evidence, Stubs, AGENTS, CONSTITUTION, RECORD_STANDARD,
      NEEDS_JUDGEMENT;
    FirstIdents();
    MiddleIdents();
    LastIdents();
    Words();
    GoverningDocs();
    InlineListOneLine([CONSTITUTION, RECORD_STANDARD]);
    InlineListOneLine(input.ticketPaths);
    forall i | 0 <= i < |AGENTS|
      ensures OneLine(AGENTS[i])
    {
      AgentsArePlain(i);
    }
    StubsFit(AGENTS);
    EvidenceFits(input);
  }

  // ----- The record as the checker sees it -----

  function RecordData(input: RunInput): Data {
    WithFields(map[], Fields(input))
  }

  lemma {:induction false} Kept(data: Data, fs: seq<Field>, key: string)
    requires forall i :: 0 <= i < |fs| ==> FieldFits(fs[i]) && fs[i].key != key
    requires key in data
    ensures key in WithFields(data, fs) && WithFields(data, fs)[key] == data[key]
    decreases |fs|
  {
    hide FieldFits, FieldMeaning;
    if fs != [] { Kept(data[fs[0].key := FieldMeaning(fs[0])], fs[1..], key); }
  }

  /** The last field with a key decides what the key holds. */
  lemma {:induction false} LastDecides(data: Data, fs: seq<Field>, i: nat)
    requires forall k :: 0 <= k < |fs| ==> FieldFits(fs[k])
    requires i < |fs| && forall k :: i < k < |fs| ==> fs[k].key != fs[i].key
    ensures Lookup(WithFields(data, fs), fs[i].key) == Some(FieldMeaning(fs[i]))
    decreases |fs|
  {
    hide FieldFits, FieldMeaning;
    var next := data[fs[0].key := FieldMeaning(fs[0])];
    if i == 0 {
      Kept(next, fs[1..], fs[0].key);
    } else {
      LastDecides(next, fs[1..], i - 1);
    }
  }

  function KeyLength(i: nat): nat
    requires i < 17
  {
    [4, 13, 4, 5, 6, 10, 14, 15, 13, 12, 15, 14, 20, 11, 7, 19, 12][i]
  }

  function KeyLetter(i: nat): char
    requires i < 17
  {
    "tddrstgrrrsodhvca"[i]
  }

  lemma KeysLook(input: RunInput, i: nat)
    requires i < 17
    ensures |Fields(input)[i].key| == KeyLength(i) && Fields(input)[i].key[0] == KeyLetter(i)
  {
    hide InlineList, Evidence, Stubs, Task;
  }

  lemma LengthOrLetter(i: nat, k: nat)
    requires i < k < 17
    ensures KeyLength(i) != KeyLength(k) || KeyLetter(i) != KeyLetter(k)
  {
  }

  /** No two keys have both the same length and the same first letter. */
  lemma KeyIsLast(input: RunInput, i: nat)
    requires i < 17
    ensures forall k :: i < k < 17 ==> Fields(input)[k].key != Fields(input)[i].key
  {
    hide Fields, KeyLength, KeyLetter;
    KeysLook(input, i);
    forall k | i < k < 17
      ensures Fields(input)[k].key != Fields(input)[i].key
    {
      KeysLook(input, k);
      LengthOrLetter(i, k);
    }
  }

  lemma FieldReadsBack(input: RunInput, i: nat)
    requires OneLiners(input) && i < 17
    ensures FieldFits(Fields(input)[i])
    ensures Lookup(RecordData(input), Fields(input)[i].key) == Some(FieldMeaning(Fields(input)[i]))
  {
    hide FieldFits, FieldMeaning, Fields, OneLiners;
    FieldsFit(input);
    KeyIsLast(input, i);
    LastDecides(map[], Fields(input), i);
  }

  lemma JudgementReadsBack()
    ensures ReadsAs(NEEDS_JUDGEMENT, NEEDS_JUDGEMENT) && Trim(NEEDS_JUDGEMENT) == NEEDS_JUDGEMENT
    ensures ScalarOrInlineList(NEEDS_JUDGEMENT) == Text(NEEDS_JUDGEMENT)
  {
    TrimTight(NEEDS_JUDGEMENT);
    assert !IsDigit(NEEDS_JUDGEMENT[0]);
    assert "null"[0] == 'n' && "true"[0] == 't' && "false"[0] == 'f' && "~"[0] == '~';
  }

  /** The marker, as it is written. */
  lemma MarkerReads()
    ensures ScalarOrInlineList("<<NEEDS JUDGEMENT>>") == Text(NEEDS_JUDGEMENT)
  {
    JudgementReadsBack();
    hide ScalarOrInlineList;
  }

  lemma MarkedFields(input: RunInput)
    ensures Fields(input)[ROUND] == Inline("round", "1")
    ensures Fields(input)[SELECTED] == Inline("selected_agents", NEEDS_JUDGEMENT)
    ensures Fields(input)[VERDICT] == Inline("verdict", NEEDS_JUDGEMENT)
    ensures Fields(input)[ARCHIVE] == Inline("archive_when", NEEDS_JUDGEMENT)
  {
    hide NEEDS_JUDGEMENT, InlineList, Evidence, Stubs, Task;
  }

  /** The fields that are settled by the marker, and the round. */
  lemma ScalarsReadBack(input: RunInput)
    requires OneLiners(input)
    ensures Lookup(RecordData(input), "round") == Some(Number(1))
    ensures Lookup(RecordData(input), "selected_agents") == Some(Text(NEEDS_JUDGEMENT))
    ensures Lookup(RecordData(input), "verdict") == Some(Text(NEEDS_JUDGEMENT))
    ensures Lookup(RecordData(input), "archive_when") == Some(Text(NEEDS_JUDGEMENT))
  {
    hide ScalarOrInlineList, Trim, RecordData, OneLiners, NEEDS_JUDGEMENT, Fields, FieldFits;
    MarkedFields(input);
    JudgementReadsBack();
    NumberReadsBack(1);
    assert Written(1) == "1";
    FieldReadsBack(input, ROUND);
    FieldReadsBack(input, SELECTED);
    FieldReadsBack(input, VERDICT);
    FieldReadsBack(input, ARCHIVE);
  }

  /** What a text reads as. */
  function Reading(text: string): Value {
    if Trim(text) == "" then Text("") else ScalarOrInlineList(Trim(text))
  }

  lemma GivenFields(input: RunInput)
    ensures Fields(input)[0] == Inline("task", Task(input))
    ensures Fields(input)[2] == Inline("date", input.date) && Fields(input)[5] == Inline("task_class", input.taskClass)
  {
    hide NEEDS_JUDGEMENT, InlineList, Evidence, Stubs, Task;
  }

  /** The subject of the first commit, or the marker. */
  lemma TaskReads(input: RunInput)
    requires OneLiners(input)
    ensures Lookup(RecordData(input), "task")
         == Some(Reading(
              if input.subjects != [] && input.subjects[0] != "" then input.subjects[0] else NEEDS_JUDGEMENT))
  {
    GivenFields(input);
    hide Reading, RecordData, OneLiners, NEEDS_JUDGEMENT, Fields, Lookup;
    InlineReads(input, 0, "task", Task(input));
  }

  lemma GivenReads(input: RunInput)
    requires OneLiners(input)
    ensures Lookup(RecordData(input), "date") == Some(Reading(input.date))
    ensures Lookup(RecordData(input), "task_class") == Some(Reading(input.taskClass))
  {
    GivenFields(input);
    hide Reading, RecordData, OneLiners, Fields, Lookup;
    InlineReads(input, 2, "date", input.date);
    InlineReads(input, 5, "task_class", input.taskClass);
  }

  lemma PlainReads(t: string)
    requires ReadsAs(t, t) && IdentStart(t[0]) && t !in {"null", "true", "false"}
    ensures Reading(t) == Text(t)
  {
    TrimTight(t);
    assert !IsInteger(t);
    hide Trim, SplitOn, Collect;
  }

  lemma KindReads()
    ensures Reading("run") == Text("run") && Reading("pass") == Text("pass")
  {
    hide Reading;
    PlainReads("run");
    PlainReads("pass");
  }

  lemma EmptyListReads()
    ensures Reading("[]") == List([])
  {
    TrimTight("[]");
    EmptyList();
  }

  lemma FixedFields(input: RunInput)
    ensures Fields(input)[1] == Inline("document_type", "run") && Fields(input)[4] == Inline("status", "pass")
    ensures Fields(input)[8] == Inline("related_specs", "[]") && Fields(input)[9] == Inline("related_adrs", "[]")
    ensures Fields(input)[13] == Inline("human_gates", "[]")
  {
    hide NEEDS_JUDGEMENT, InlineList, Evidence, Stubs, Task;
  }

  lemma InlineReads(input: RunInput, i: nat, key: string, text: string)
    requires OneLiners(input) && i < 17 && Fields(input)[i] == Inline(key, text)
    ensures Lookup(RecordData(input), key) == Some(Reading(text))
  {
    hide ScalarOrInlineList, Trim, RecordData, OneLiners, Fields, FieldFits;
    FieldReadsBack(input, i);
  }

  /** The fields that are the same in every record. */
  lemma FixedFieldsReadBack(input: RunInput)
    requires OneLiners(input)
    ensures Lookup(RecordData(input), "document_type") == Some(Text("run"))
    ensures Lookup(RecordData(input), "status") == Some(Text("pass"))
    ensures Lookup(RecordData(input), "related_specs") == Lookup(RecordData(input), "related_adrs") == Some(List([]))
    ensures Lookup(RecordData(input), "human_gates") == Some(List([]))
  {
    hide Reading, RecordData, OneLiners, Fields, Lookup;
    KindReads();
    EmptyListReads();
    FixedFields(input);
    InlineReads(input, 1, "document_type", "run");
    InlineReads(input, 4, "status", "pass");
    InlineReads(input, 8, "related_specs", "[]");
    InlineReads(input, 9, "related_adrs", "[]");
    InlineReads(input, 13, "human_gates", "[]");
  }

  function StubMap(agent: string): map<string, string> {
    map["agent" := agent, "reason" := NEEDS_JUDGEMENT, "note" := NEEDS_JUDGEMENT]
  }

  lemma PlainText(t: string)
    requires ReadsAs(t, t)
    ensures Unquote(Trim(t)) == t
  {
    TrimTight(t);
  }

  lemma StubMeans(agent: string)
    requires OneLine(agent) && ReadsAs(agent, agent)
    ensures EntryFits(Stub(agent)) && EntryMeaning(Stub(agent)) == ItemMap(StubMap(agent))
  {
    hide Unquote, Trim, ReadsAs, NEEDS_JUDGEMENT, OneLine, IsIdent;
    StubFits(agent);
    PlainText(agent);
    JudgementReadsBack();
    PlainText(NEEDS_JUDGEMENT);
    var agentPair, reason, note := Pair("agent", agent), Pair("reason", NEEDS_JUDGEMENT), Pair("note", NEEDS_JUDGEMENT);
    var obj := map["agent" := agent];
    assert [agentPair, reason, note][1..] == [reason, note] && [reason, note][1..] == [note] && [note][1..] == [];
    assert WithPairs(map[], [agentPair, reason, note]) == WithPairs(obj, [reason, note]);
    assert WithPairs(obj, [reason, note]) == WithPairs(obj["reason" := NEEDS_JUDGEMENT], [note]);
    assert WithPairs(obj["reason" := NEEDS_JUDGEMENT], [note]) == StubMap(agent);
  }

  lemma {:induction false} BlockMeaningAt(es: seq<Entry>, i: nat)
    requires (forall k :: 0 <= k < |es| ==> EntryFits(es[k])) && i < |es|
    ensures BlockMeaning(es)[i] == EntryMeaning(es[i])
  {
    hide EntryFits, EntryMeaning;
    if i > 0 { BlockMeaningAt(es[1..], i - 1); }
  }

  /** The record lists the ten agents as omitted, each with the marker for its reason. */
  lemma OmittedReadsBack(input: RunInput, i: nat)
    requires OneLiners(input) && i < |AGENTS|
    ensures |Omitted(RecordData(input))| == |AGENTS|
    ensures Omitted(RecordData(input))[i] == Obj(StubMap(AGENTS[i]))
  {
    hide RecordData, OneLiners, NEEDS_JUDGEMENT, InlineList, Evidence, Task, EntryFits, EntryMeaning, AGENTS, Stub,
      StubMap;
    FieldReadsBack(input, OMITTED);
    BlockMeaningAt(Stubs(AGENTS), i);
    AgentsArePlain(i);
    StubMeans(AGENTS[i]);
  }

  function NeedsReason(): string -> seq<Finding> {
    (agent: string) => [ReasonNotInEnum(agent)]
  }

  lemma StubIsFinding(agent: string)
    requires agent != ""
    ensures NameOf()(Obj(StubMap(agent))) == [agent]
    ensures OmissionFindings()(Obj(StubMap(agent))) == [ReasonNotInEnum(agent)]
  {
    assert NEEDS_JUDGEMENT[0] == '<' && NO_PREDICATE[0] == 'n' && NOT_APPLICABLE[0] == 'n' && HUMAN_WAIVED[0] == 'h';
  }

  lemma {:induction false} StubsAreFindings(entries: seq<Element>, agents: seq<string>, n: nat)
    requires n <= |entries| == |agents|
    requires forall i :: 0 <= i < |agents| ==> entries[i] == Obj(StubMap(agents[i])) && agents[i] != ""
    ensures Collect(entries[..n], NameOf()) == agents[..n]
    ensures Collect(entries[..n], OmissionFindings()) == Collect(agents[..n], NeedsReason())
  {
    hide NameOf, OmissionFindings, StubMap;
    if n > 0 {
      hide Collect;
      StubsAreFindings(entries, agents, n - 1);
      CollectNext(entries, n - 1, NameOf());
      CollectNext(entries, n - 1, OmissionFindings());
      CollectNext(agents, n - 1, NeedsReason());
      TakeNext(agents, n - 1);
      StubIsFinding(agents[n - 1]);
    }
  }

  lemma OmissionsAreFindings(input: RunInput)
    requires OneLiners(input)
    ensures OmittedNames(RecordData(input)) == AGENTS
    ensures Collect(Omitted(RecordData(input)), OmissionFindings()) == Collect(AGENTS, NeedsReason())
  {
    hide RecordData, OneLiners, AGENTS, StubMap, NameOf, OmissionFindings, NeedsReason, Omitted, ReadsAs;
    var entries := Omitted(RecordData(input));
    forall i | 0 <= i < |AGENTS|
      ensures |entries| == |AGENTS| && entries[i] == Obj(StubMap(AGENTS[i])) && AGENTS[i] != ""
    {
      OmittedReadsBack(input, i);
      AgentsArePlain(i);
    }
    Constants();
    OmittedReadsBack(input, 0);
    StubsAreFindings(entries, AGENTS, |AGENTS|);
    assert entries[..|AGENTS|] == entries && AGENTS[..|AGENTS|] == AGENTS;
  }

  lemma AgentsAreClean(selected: seq<Element>)
    requires selected == [Str(NEEDS_JUDGEMENT)]
    ensures Collect(AGENTS, AgentFindings(selected, AGENTS)) == []
  {
    hide AGENTS, NEEDS_JUDGEMENT;
    CollectIsEmpty(AGENTS, AgentFindings(selected, AGENTS));
    forall agent | agent in AGENTS
      ensures AgentFindings(selected, AGENTS)(agent) == []
    {
      var i :| 0 <= i < |AGENTS| && AGENTS[i] == agent;
      AgentsArePlain(i);
    }
  }

  /** The generated document, above any body. */
  function BuildRunRecord(input: RunInput, body: string): string {
    Document(Fields(input), body)
  }

  /** A generated record always parses, body and all. The checker finds every agent accounted for, and complains of
      exactly the ten reasons that are still to be given. */
  lemma GeneratedRecord(input: RunInput, body: string)
    requires OneLiners(input)
    ensures ParsedLines(SplitLines(BuildRunRecord(input, body))) == Parsed(RecordData(input), body)
    ensures OmittedNames(RecordData(input)) == AGENTS
    ensures FindingsOf(RecordData(input)) == Collect(AGENTS, NeedsReason())
    ensures forall agent :: AgentUnaccounted(agent) !in FindingsOf(RecordData(input))
                         && AgentContradiction(agent) !in FindingsOf(RecordData(input))
  {
    hide *;
    RecordParses(input, body);
    OmissionsAreFindings(input);
    RecordFindings(input);
    RecordAccounts(input);
  }

  lemma RecordParses(input: RunInput, body: string)
    requires OneLiners(input)
    ensures ParsedLines(SplitLines(BuildRunRecord(input, body))) == Parsed(RecordData(input), body)
  {
    hide OneLiners, Fields, FieldFits, ParsedLines, SplitLines, Document, WithFields;
    FieldsFit(input);
    DocumentRoundTrip(Fields(input), body);
  }

  lemma RecordFindings(input: RunInput)
    requires OneLiners(input)
    ensures FindingsOf(RecordData(input)) == Collect(AGENTS, NeedsReason())
    ensures Selected(RecordData(input)) == [Str(NEEDS_JUDGEMENT)]
  {
    hide RecordData, OneLiners, AGENTS, OmissionFindings, NeedsReason, Omitted, OmittedNames, AgentFindings, Lookup;
    ScalarsReadBack(input);
    OmissionsAreFindings(input);
    Constants();
    AgentsAreClean([Str(NEEDS_JUDGEMENT)]);
  }

  lemma Constants()
    ensures |AGENTS| == 10 && NEEDS_JUDGEMENT != "" && NEEDS_JUDGEMENT != "pass"
  {
    assert NEEDS_JUDGEMENT[0] == '<';
  }

  lemma RecordAccounts(input: RunInput)
    requires OneLiners(input)
    ensures forall agent :: AgentUnaccounted(agent) !in FindingsOf(RecordData(input))
                         && AgentContradiction(agent) !in FindingsOf(RecordData(input))
  {
    hide RecordData, OneLiners, FindingsOf, AGENTS, NEEDS_JUDGEMENT;
    forall agent
      ensures AgentUnaccounted(agent) !in FindingsOf(RecordData(input))
           && AgentContradiction(agent) !in FindingsOf(RecordData(input))
    {
      RecordFindings(input);
      CollectHas(AGENTS, NeedsReason(), AgentUnaccounted(agent));
      CollectHas(AGENTS, NeedsReason(), AgentContradiction(agent));
    }
  }

  /** The ticket paths come back as they were exactly when none of them holds a comma. */
  lemma TicketsIff(input: RunInput)
    requires OneLiners(input)
    requires forall i :: 0 <= i < |input.ticketPaths| ==> ReadsAs(input.ticketPaths[i], input.ticketPaths[i])
    ensures Lookup(RecordData(input), "related_tickets") == Some(List(Texts(input.ticketPaths)))
       <==> forall i :: 0 <= i < |input.ticketPaths| ==> ',' !in input.ticketPaths[i]
  {
    hide RecordData, OneLiners, Lookup, InlineList, ScalarOrInlineList, Trim, Texts, Evidence, Stubs, Task, Unquote,
      IsSpace;
    FieldReadsBack(input, TICKETS);
    InlineListIff(input.ticketPaths, input.ticketPaths);
    TicketsFieldMeans(input.ticketPaths);
  }

  lemma TicketsFieldMeans(paths: seq<string>)
    requires Trim(InlineList(paths)) == InlineList(paths)
    ensures FieldMeaning(Inline("related_tickets", InlineList(paths))) == ScalarOrInlineList(InlineList(paths))
  {
    hide ScalarOrInlineList;
  }

  lemma CommitMeans(sha: string)
    requires OneLine(sha) && sha != "" && !IsSpace(sha[|sha| - 1])
    ensures EntryFits(Bare("commit " + sha)) && EntryMeaning(Bare("commit " + sha)) == ItemText("commit " + sha)
  {
    CommitFits(sha);
    TrimTight("commit " + sha);
  }

  /** The gate's summary, or the marker and what to do. */
  lemma GateLineIs(input: RunInput, summary: string)
    ensures input.gateSummary == Some(summary) && summary != "" ==> GateLine(input) == summary
    ensures input.gateSummary in {None, Some("")} ==>
              GateLine(input) == NEEDS_JUDGEMENT + " \U{2014} paste the verify verdict line"
  {
    hide NEEDS_JUDGEMENT;
  }

  lemma GateMeans(line: string)
    ensures EntryMeaning(Mapping([Pair("gate", line)])) == ItemMap(map["gate" := Unquote(Trim(line))])
  {
    hide Unquote, Trim;
    var p := Pair("gate", line);
    assert [p][1..] == [];
    assert WithPairs(map[], [p]) == WithPairs(map["gate" := Unquote(Trim(line))], []);
  }

  lemma EvidenceAt(input: RunInput, i: nat)
    requires OneLiners(input) && i <= |input.shas|
    ensures var found := AsList(Lookup(RecordData(input), "completion_evidence"));
            && |found| == |input.shas| + 1
            && found[i] == ElementOf(EntryMeaning(Evidence(input)[i]))
  {
    hide RecordData, OneLiners, InlineList, Evidence, Stubs, Task, EntryFits, EntryMeaning, AGENTS, ElementOf;
    FieldReadsBack(input, EVIDENCE);
    BlockMeaningAt(Evidence(input), i);
  }

  /** The evidence comes back as one text a commit, in order, and then the gate's line. */
  lemma EvidenceReadsBack(input: RunInput)
    requires OneLiners(input)
    requires forall i :: 0 <= i < |input.shas| ==> input.shas[i] != "" && !IsSpace(input.shas[i][|input.shas[i]| - 1])
    ensures var found := AsList(Lookup(RecordData(input), "completion_evidence"));
            && |found| == |input.shas| + 1
            && (forall i :: 0 <= i < |input.shas| ==> found[i] == Str("commit " + input.shas[i]))
            && found[|input.shas|] == Obj(map["gate" := Unquote(Trim(GateLine(input)))])
  {
    hide RecordData, AsList, Lookup, EntryMeaning, GateLine, Unquote, Trim, IsSpace;
    var found := AsList(Lookup(RecordData(input), "completion_evidence"));
    EvidenceAt(input, |input.shas|);
    forall i | 0 <= i < |input.shas|
      ensures found[i] == Str("commit " + input.shas[i])
    {
      EvidenceAt(input, i);
      CommitMeans(input.shas[i]);
    }
    GateMeans(GateLine(input));
  }
}
