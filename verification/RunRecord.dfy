/** The check on run records: every agent of the loop is selected or omitted with a reason. */
module RunRecord {
  import opened Prelude
  import opened Frontmatter

  const AGENTS: seq<string> := [
    "governor", "architect", "designer", "maker", "code-reviewer",
    "verifier", "tester", "security", "red-hat", "grader"
  ]

  const NO_PREDICATE := "no-predicate"
  const NOT_APPLICABLE := "not-applicable"
  const HUMAN_WAIVED := "human-waived"

  predicate IsReason(reason: Option<string>) {
    reason == Some(NO_PREDICATE) || reason == Some(NOT_APPLICABLE) || reason == Some(HUMAN_WAIVED)
  }

  datatype Finding =
    | RoundOutOfRange
    | OmissionWithoutAgent
    | ReasonNotInEnum(agent: string)
    | WaiverUnquoted(agent: string)
    | AgentContradiction(agent: string)
    | AgentUnaccounted(agent: string)
    | EvidenceMissing

  /** A text of a map entry, unless it is absent or empty. */
  function Filled(fields: map<string, string>, key: string): Option<string> {
    if key in fields && fields[key] != "" then Some(fields[key]) else None
  }

  function AgentOf(entry: Element): Option<string> {
    match entry
    case Str(t) => if t == "" then None else Some(t)
    case Obj(fields) => Filled(fields, "agent")
    case Other => None
  }

  function NameOf(): Element -> seq<string> {
    (entry: Element) => if AgentOf(entry).Some? then [AgentOf(entry).value] else []
  }

  function OmissionFindings(): Element -> seq<Finding> {
    (entry: Element) =>
      if !entry.Obj? || AgentOf(entry).None? then [OmissionWithoutAgent]
      else
        var agent, reason := AgentOf(entry).value, Filled(entry.fields, "reason");
        (if IsReason(reason) then [] else [ReasonNotInEnum(agent)])
        + (if reason == Some(HUMAN_WAIVED) && Filled(entry.fields, "note").None? then [WaiverUnquoted(agent)] else [])
  }

  function AgentFindings(selected: seq<Element>, omittedNames: seq<string>): string -> seq<Finding> {
    (agent: string) =>
      if Str(agent) in selected && agent in omittedNames then [AgentContradiction(agent)]
      else if Str(agent) !in selected && agent !in omittedNames then [AgentUnaccounted(agent)]
      else []
  }

  function RoundFindings(data: Data): seq<Finding> {
    var round := Lookup(data, "round");
    if round == None || round == Some(Number(1)) || round == Some(Number(2)) then [] else [RoundOutOfRange]
  }

  function EvidenceFindings(data: Data): seq<Finding> {
    if Lookup(data, "verdict") == Some(Text("pass")) && AsList(Lookup(data, "completion_evidence")) == []
    then [EvidenceMissing] else []
  }

  function Selected(data: Data): seq<Element> { AsList(Lookup(data, "selected_agents")) }

  function Omitted(data: Data): seq<Element> { AsList(Lookup(data, "omitted_agents")) }

  function OmittedNames(data: Data): seq<string> { Collect(Omitted(data), NameOf()) }

  function FindingsOf(data: Data): seq<Finding> {
    RoundFindings(data)
    + Collect(Omitted(data), OmissionFindings())
    + Collect(AGENTS, AgentFindings(Selected(data), OmittedNames(data)))
    + EvidenceFindings(data)
  }

  method CheckOmissions(omitted: seq<Element>) returns (out: seq<Finding>)
    ensures out == Collect(omitted, OmissionFindings())
  {
    out := [];
    for i := 0 to |omitted|
      invariant out == Collect(omitted[..i], OmissionFindings())
    {
      var entry := omitted[i];
      CollectNext(omitted, i, OmissionFindings());
      if !entry.Obj? || AgentOf(entry).None? {
        out := out + [OmissionWithoutAgent];
        continue;
      }
      var reason := Filled(entry.fields, "reason");
      ghost var before := out;
      if !IsReason(reason) { out := out + [ReasonNotInEnum(AgentOf(entry).value)]; }
      if reason == Some(HUMAN_WAIVED) && Filled(entry.fields, "note").None? {
        out := out + [WaiverUnquoted(AgentOf(entry).value)];
      }
      assert out == before + OmissionFindings()(entry);
    }
    assert omitted[..|omitted|] == omitted;
  }

  method CheckAgents(selected: seq<Element>, omittedNames: seq<string>) returns (out: seq<Finding>)
    ensures out == Collect(AGENTS, AgentFindings(selected, omittedNames))
  {
    out := [];
    for i := 0 to |AGENTS|
      invariant out == Collect(AGENTS[..i], AgentFindings(selected, omittedNames))
    {
      var agent := AGENTS[i];
      CollectNext(AGENTS, i, AgentFindings(selected, omittedNames));
      var isSelected, isOmitted := Str(agent) in selected, agent in omittedNames;
      if isSelected && isOmitted {
        out := out + [AgentContradiction(agent)];
      } else if !isSelected && !isOmitted {
        out := out + [AgentUnaccounted(agent)];
      }
    }
    assert AGENTS[..|AGENTS|] == AGENTS;
  }

  method CheckRun(data: Data) returns (out: seq<Finding>)
    ensures out == FindingsOf(data)
  {
    out := RoundFindings(data);
    var omissions := CheckOmissions(Omitted(data));
    out := out + omissions;
    var agents := CheckAgents(Selected(data), OmittedNames(data));
    out := out + agents;
    if Lookup(data, "verdict") == Some(Text("pass")) && |AsList(Lookup(data, "completion_evidence"))| == 0 {
      out := out + [EvidenceMissing];
    }
  }

  // ----- What a clean record says -----

  /** The omission entry is for this agent: its name alone, or a map with the name. */
  ghost predicate Omits(entry: Element, agent: string) {
    && agent != ""
    && (entry == Str(agent) || (entry.Obj? && "agent" in entry.fields && entry.fields["agent"] == agent))
  }

  /** The agent is selected or omitted, and not both. */
  ghost predicate Accounted(data: Data, agent: string) {
    Str(agent) in AsList(Lookup(data, "selected_agents"))
    <==> !exists entry :: entry in AsList(Lookup(data, "omitted_agents")) && Omits(entry, agent)
  }

  /** An omission entry as the constitution wants it: an agent, one of the three reasons, and a note for a waiver. */
  predicate SoundOmission(entry: Element) {
    && entry.Obj? && "agent" in entry.fields && entry.fields["agent"] != "" && "reason" in entry.fields
    && entry.fields["reason"] in {"no-predicate", "not-applicable", "human-waived"}
    && (entry.fields["reason"] == "human-waived" ==> "note" in entry.fields && entry.fields["note"] != "")
  }

  lemma OmittedNameIff(data: Data, agent: string)
    ensures agent in OmittedNames(data) <==>
              exists entry :: entry in AsList(Lookup(data, "omitted_agents")) && Omits(entry, agent)
  {
    hide AsList;
    var entries := Omitted(data);
    CollectMember(entries, NameOf(), agent);
    forall entry
      ensures agent in NameOf()(entry) <==> Omits(entry, agent)
    {
      NamesOne(entry, agent);
    }
    if entry :| entry in entries && Omits(entry, agent) {
      var i :| 0 <= i < |entries| && entries[i] == entry;
      assert agent in NameOf()(entries[i]);
    }
  }

  lemma NamesOne(entry: Element, agent: string)
    ensures agent in NameOf()(entry) <==> Omits(entry, agent)
  {
    hide Collect, AsList;
  }

  lemma OneAgent(data: Data, agent: string)
    ensures AgentFindings(Selected(data), OmittedNames(data))(agent) == [] <==> Accounted(data, agent)
  {
    hide AsList, Collect, OmittedNames, Omits, NameOf;
    OmittedNameIff(data, agent);
  }

  lemma OneOmission(entry: Element)
    ensures OmissionFindings()(entry) == [] <==> SoundOmission(entry)
  {
    hide Collect, AsList;
  }

  lemma TheTenAgents(agent: string)
    ensures agent in AGENTS <==>
              agent in {"governor", "architect", "designer", "maker", "code-reviewer",
                        "verifier", "tester", "security", "red-hat", "grader"}
  {
  }

  /** A record draws no finding exactly when its round is 1 or 2 if given, every omission names an agent and a reason
      from the enum (a waiver with a note), every agent is either selected or omitted and not both, and a pass has
      evidence attached. */
  lemma CleanIff(data: Data)
    ensures FindingsOf(data) == [] <==>
            && (Lookup(data, "round").Some? ==> Lookup(data, "round").value in {Number(1), Number(2)})
            && (forall entry :: entry in AsList(Lookup(data, "omitted_agents")) ==> SoundOmission(entry))
            && (forall agent :: agent in AGENTS ==> Accounted(data, agent))
            && (Lookup(data, "verdict") == Some(Text("pass")) ==>
                  && Lookup(data, "completion_evidence").Some?
                  && Lookup(data, "completion_evidence").value !in {Null, Text(""), List([])})
  {
    EmptyIff(Lookup(data, "completion_evidence"));
    hide AsList, AGENTS, AgentFindings, OmissionFindings, OmittedNames, SoundOmission, Accounted, Collect;
    CollectIsEmpty(Omitted(data), OmissionFindings());
    CollectIsEmpty(AGENTS, AgentFindings(Selected(data), OmittedNames(data)));
    forall entry { OneOmission(entry); }
    forall agent { OneAgent(data, agent); }
  }

  /** The entry is a map that names this agent. */
  ghost predicate NamedIn(entry: Element, agent: string) {
    agent != "" && entry.Obj? && "agent" in entry.fields && entry.fields["agent"] == agent
  }

  /** What an omission entry is reported for. */
  ghost predicate EntryDraws(entry: Element, finding: Finding) {
    match finding
    case OmissionWithoutAgent => !entry.Obj? || "agent" !in entry.fields || entry.fields["agent"] == ""
    case ReasonNotInEnum(agent) =>
      NamedIn(entry, agent) && !("reason" in entry.fields
                                 && entry.fields["reason"] in {"no-predicate", "not-applicable", "human-waived"})
    case WaiverUnquoted(agent) =>
      NamedIn(entry, agent) && "reason" in entry.fields && entry.fields["reason"] == "human-waived"
      && ("note" !in entry.fields || entry.fields["note"] == "")
    case _ => false
  }

  /** What an agent of the loop is reported for. */
  ghost predicate AgentDraws(data: Data, agent: string, finding: Finding) {
    var selected := Str(agent) in AsList(Lookup(data, "selected_agents"));
    var omitted := exists entry :: entry in AsList(Lookup(data, "omitted_agents")) && Omits(entry, agent);
    match finding
    case AgentUnaccounted(a) => a == agent && !selected && !omitted
    case AgentContradiction(a) => a == agent && selected && omitted
    case _ => false
  }

  lemma EntryDrawsIff(entry: Element, finding: Finding)
    ensures finding in OmissionFindings()(entry) <==> EntryDraws(entry, finding)
  {
    hide AsList, Collect;
  }

  lemma AgentDrawsIff(data: Data, agent: string, finding: Finding)
    ensures finding in AgentFindings(Selected(data), OmittedNames(data))(agent) <==> AgentDraws(data, agent, finding)
  {
    hide AsList, Collect, OmittedNames, Omits, NameOf;
    OmittedNameIff(data, agent);
  }

  /** Exactly when each finding is reported. */
  lemma ReportedIff(data: Data, finding: Finding)
    ensures finding in FindingsOf(data) <==>
              match finding
              case RoundOutOfRange =>
                Lookup(data, "round").Some? && Lookup(data, "round").value !in {Number(1), Number(2)}
              case EvidenceMissing =>
                && Lookup(data, "verdict") == Some(Text("pass"))
                && (Lookup(data, "completion_evidence").None?
                    || Lookup(data, "completion_evidence").value in {Null, Text(""), List([])})
              case _ => DrawnFrom(data, finding)
  {
    EmptyIff(Lookup(data, "completion_evidence"));
    hide AsList, AGENTS, OmissionFindings, AgentFindings, OmittedNames, EntryDraws, AgentDraws, Collect;
    var omitted, agentFindings := Omitted(data), AgentFindings(Selected(data), OmittedNames(data));
    FromEntries(omitted, finding);
    FromAgents(data, AGENTS, finding);
    forall entry { EntryDrawsNoOther(entry); }
    forall agent { AgentDrawsNoOther(data, agent); }
  }

  /** The finding is about an omission entry or about one of the ten agents. */
  ghost predicate DrawnFrom(data: Data, finding: Finding) {
    || (exists entry :: entry in AsList(Lookup(data, "omitted_agents")) && EntryDraws(entry, finding))
    || (exists agent :: agent in AGENTS && AgentDraws(data, agent, finding))
  }

  lemma EntryDrawsNoOther(entry: Element)
    ensures !EntryDraws(entry, RoundOutOfRange) && !EntryDraws(entry, EvidenceMissing)
  {
  }

  lemma AgentDrawsNoOther(data: Data, agent: string)
    ensures !AgentDraws(data, agent, RoundOutOfRange) && !AgentDraws(data, agent, EvidenceMissing)
  {
  }

  lemma FromEntries(entries: seq<Element>, finding: Finding)
    ensures finding in Collect(entries, OmissionFindings())
       <==> exists entry :: entry in entries && EntryDraws(entry, finding)
  {
    hide OmissionFindings, EntryDraws;
    CollectHas(entries, OmissionFindings(), finding);
    forall entry { EntryDrawsIff(entry, finding); }
  }

  lemma FromAgents(data: Data, agents: seq<string>, finding: Finding)
    ensures finding in Collect(agents, AgentFindings(Selected(data), OmittedNames(data)))
       <==> exists agent :: agent in agents && AgentDraws(data, agent, finding)
  {
    hide AgentFindings, AgentDraws, OmittedNames, Selected;
    CollectHas(agents, AgentFindings(Selected(data), OmittedNames(data)), finding);
    forall agent { AgentDrawsIff(data, agent, finding); }
  }

  /** Round, omissions, agents, evidence. */
  function Place(finding: Finding): nat {
    match finding
    case RoundOutOfRange => 0
    case OmissionWithoutAgent => 1
    case ReasonNotInEnum(_) => 1
    case WaiverUnquoted(_) => 1
    case AgentContradiction(_) => 2
    case AgentUnaccounted(_) => 2
    case EvidenceMissing => 3
  }

  ghost predicate AllAt(findings: seq<Finding>, place: nat) {
    forall i :: 0 <= i < |findings| ==> Place(findings[i]) == place
  }

  lemma FourParts(a: seq<Finding>, b: seq<Finding>, c: seq<Finding>, d: seq<Finding>)
    requires AllAt(a, 0) && AllAt(b, 1) && AllAt(c, 2) && AllAt(d, 3)
    ensures var all := a + b + c + d; forall i, j :: 0 <= i < j < |all| ==> Place(all[i]) <= Place(all[j])
  {
    hide Place;
  }

  /** Findings stand in this order: the round, the omission entries, the agents, the evidence. */
  lemma FindingsInOrder(data: Data, i: nat, j: nat)
    requires i < j < |FindingsOf(data)|
    ensures Place(FindingsOf(data)[i]) <= Place(FindingsOf(data)[j])
  {
    hide AsList, AGENTS, OmissionFindings, AgentFindings, OmittedNames, EntryDraws, AgentDraws, Collect;
    var b := Collect(Omitted(data), OmissionFindings());
    var c := Collect(AGENTS, AgentFindings(Selected(data), OmittedNames(data)));
    forall k | 0 <= k < |b|
      ensures Place(b[k]) == 1
    {
      FromEntries(Omitted(data), b[k]);
      var entry :| EntryDraws(entry, b[k]);
      EntryPlace(entry, b[k]);
    }
    forall k | 0 <= k < |c|
      ensures Place(c[k]) == 2
    {
      FromAgents(data, AGENTS, c[k]);
      var agent :| AgentDraws(data, agent, c[k]);
      AgentPlace(data, agent, c[k]);
    }
    FourParts(RoundFindings(data), b, c, EvidenceFindings(data));
  }

  lemma EntryPlace(entry: Element, finding: Finding)
    requires EntryDraws(entry, finding)
    ensures Place(finding) == 1
  {
  }

  lemma AgentPlace(data: Data, agent: string, finding: Finding)
    requires AgentDraws(data, agent, finding)
    ensures Place(finding) == 2
  {
    hide AsList, Omits;
  }
}
