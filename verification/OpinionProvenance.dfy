/** Binding an opinion gate's report to a dispatch of the matching reviewer in the session transcript. */
module OpinionProvenance {
  import opened Prelude
  import opened GateSchema
  import opened ObserveFolds

  function RoleForGate(g: GateName): Option<string> {
    match g
    case Opinion(Security) => Some("security")
    case Opinion(RedHat) => Some("red-hat")
    case Opinion(Tester) => Some("tester")
    case Opinion(CodeReviewer) => Some("code-reviewer")
    case _ => None
  }

  /** Each opinion gate has its own reviewer, and no other gate has one. */
  lemma FourRoles(g: GateName)
    ensures RoleForGate(Opinion(Security)) == Some("security") && RoleForGate(Opinion(RedHat)) == Some("red-hat")
    ensures RoleForGate(Opinion(Tester)) == Some("tester")
    ensures RoleForGate(Opinion(CodeReviewer)) == Some("code-reviewer")
    ensures RoleForGate(g).None? <==> !g.Opinion?
  {
    if g.Opinion? {
      match g.gate
      case Security =>
      case RedHat =>
      case Tester =>
      case CodeReviewer =>
    }
  }

  /** The identity a report is bound to: an agent id, or the tool-use id of a foreground dispatch. */
  datatype Binding = Background(agentId: string) | Foreground(toolUseId: string) | Unbound

  // ----- What the transcript says, read off the event list -----

  /** The role of the last dispatch under `id`. */
  function RoleUnder(events: seq<Event>, id: string): Option<string> {
    if events == [] then None
    else
      var e := events[|events| - 1];
      if e.Dispatch? && e.toolUseId == Some(id) then Some(e.role) else RoleUnder(events[..|events| - 1], id)
  }

  /** The agent that the first acknowledgement under `id` names. */
  function AgentUnder(events: seq<Event>, id: string): Option<string> {
    if events == [] then None
    else
      var before, e := AgentUnder(events[..|events| - 1], id), events[|events| - 1];
      if before.None? && e.Resolution? && e.toolUseId == Some(id) then Some(e.agentId) else before
  }

  /** The last terminal status of an agent. */
  function LastTerminal(events: seq<Event>, agent: string): Option<Status> {
    if events == [] then None
    else
      var e := events[|events| - 1];
      if e.Resolution? && e.agentId == agent && Terminal(e.status) then Some(e.status)
      else LastTerminal(events[..|events| - 1], agent)
  }

  /** The ids under which dispatches were made, in order. */
  function DispatchIds(events: seq<Event>): seq<string> {
    if events == [] then []
    else
      var before, e := DispatchIds(events[..|events| - 1]), events[|events| - 1];
      if e.Dispatch? && Present(e.toolUseId) then before + [e.toolUseId.value] else before
  }

  /** The agents, in the order in which they were first heard of. */
  function AgentsHeard(events: seq<Event>): seq<string> {
    if events == [] then []
    else
      var before, e := AgentsHeard(events[..|events| - 1]), events[|events| - 1];
      if e.Resolution? && e.agentId !in before then before + [e.agentId] else before
  }

  /** The acknowledged ids, in the order in which they were first acknowledged. */
  function AckedIds(events: seq<Event>): seq<string> {
    if events == [] then []
    else
      var before, e := AckedIds(events[..|events| - 1]), events[|events| - 1];
      if e.Resolution? && Present(e.toolUseId) && e.toolUseId.value !in before
      then before + [e.toolUseId.value] else before
  }

  /** The role of an agent: that of the last of these ids that names the agent and has a role. */
  function RoleAmong(events: seq<Event>, ids: seq<string>, agent: string): Option<string> {
    if ids == [] then None
    else
      var id := ids[|ids| - 1];
      if AgentUnder(events, id) == Some(agent) && Present(RoleUnder(events, id)) then RoleUnder(events, id)
      else RoleAmong(events, ids[..|ids| - 1], agent)
  }

  predicate ReturnedInForeground(events: seq<Event>, id: string) {
    ForegroundResult(id) in events
  }

  function LastSuch(s: seq<string>, p: string -> bool): Option<string> {
    if s == [] then None else if p(s[|s| - 1]) then Some(s[|s| - 1]) else LastSuch(s[..|s| - 1], p)
  }

  function CompletedAs(events: seq<Event>, role: string): string -> bool {
    (agent: string) => RoleAmong(events, AckedIds(events), agent) == Some(role)
      && LastTerminal(events, agent) == Some(Completed)
  }

  function ReturnedAs(events: seq<Event>, role: string): string -> bool {
    (id: string) => RoleUnder(events, id) == Some(role) && ReturnedInForeground(events, id)
  }

  function BindingOf(events: seq<Event>, gate: GateName): Binding {
    match RoleForGate(gate)
    case None => Unbound
    case Some(role) =>
      match LastSuch(AgentsHeard(events), CompletedAs(events, role))
      case Some(agent) => Background(agent)
      case None =>
        match LastSuch(DispatchIds(events), ReturnedAs(events, role))
        case Some(id) => Foreground(id)
        case None => Unbound
  }

  // ----- The loops -----

  datatype Tables = Tables(
    roleById: map<string, string>, agentById: map<string, string>, ackedIds: seq<string>, agentOrder: seq<string>,
    statusByAgent: map<string, Option<Status>>,  // None is 'pending'
    dispatchOrder: seq<string>, foreground: set<string>)

  ghost predicate DescribesDispatches(t: Tables, events: seq<Event>) {
    && (forall id :: id != "" ==> RoleUnder(events, id) == if id in t.roleById then Some(t.roleById[id]) else None)
    && t.dispatchOrder == DispatchIds(events)
    && (forall id :: id != "" ==> (id in t.foreground <==> ReturnedInForeground(events, id)))
  }

  ghost predicate DescribesAcks(t: Tables, events: seq<Event>) {
    && (forall id :: id != "" ==> AgentUnder(events, id) == if id in t.agentById then Some(t.agentById[id]) else None)
    && t.ackedIds == AckedIds(events)
    && (forall id :: id in t.ackedIds <==> id in t.agentById)
    && "" !in t.ackedIds
  }

  ghost predicate DescribesAgents(t: Tables, events: seq<Event>) {
    && t.agentOrder == AgentsHeard(events)
    && (forall a :: a in t.agentOrder <==> a in t.statusByAgent)
    && (forall a :: LastTerminal(events, a) == if a in t.statusByAgent then t.statusByAgent[a] else None)
  }

  ghost predicate Describes(t: Tables, events: seq<Event>) {
    DescribesDispatches(t, events) && DescribesAcks(t, events) && DescribesAgents(t, events)
  }

  /** What one event does to the tables. */
  function Updated(t: Tables, e: Event): Tables {
    match e
    case Skill(_) => t
    case Dispatch(role, id) =>
      if Present(id)
      then t.(roleById := t.roleById[id.value := role], dispatchOrder := t.dispatchOrder + [id.value]) else t
    case ForegroundResult(id) => if id != "" then t.(foreground := t.foreground + {id}) else t
    case Resolution(agentId, status, id) =>
      var t := if Present(id) && id.value !in t.agentById
               then t.(agentById := t.agentById[id.value := agentId], ackedIds := t.ackedIds + [id.value]) else t;
      var isNew := agentId !in t.statusByAgent;
      t.(agentOrder := if isNew then t.agentOrder + [agentId] else t.agentOrder,
         statusByAgent := if Terminal(status) then t.statusByAgent[agentId := Some(status)]
                          else if isNew then t.statusByAgent[agentId := None] else t.statusByAgent)
  }

  lemma OneMoreEvent(before: seq<Event>, e: Event)
    ensures var events := before + [e];
            && DispatchIds(events) == (if e.Dispatch? && Present(e.toolUseId)
                                       then DispatchIds(before) + [e.toolUseId.value]
                                       else DispatchIds(before))
            && AgentsHeard(events) == (if e.Resolution? && e.agentId !in AgentsHeard(before)
                                       then AgentsHeard(before) + [e.agentId]
                                       else AgentsHeard(before))
            && (forall id :: RoleUnder(events, id) == if e.Dispatch? && e.toolUseId == Some(id) then Some(e.role)
                                                      else RoleUnder(before, id))
            && (forall id :: AgentUnder(events, id)
                             == if AgentUnder(before, id).None? && e.Resolution? && e.toolUseId == Some(id)
                                then Some(e.agentId) else AgentUnder(before, id))
            && (forall a :: LastTerminal(events, a) == if e.Resolution? && e.agentId == a && Terminal(e.status)
                                                       then Some(e.status) else LastTerminal(before, a))
  {
    assert (before + [e])[..|before|] == before;
  }

  lemma OneMoreDispatch(t: Tables, events: seq<Event>, e: Event)
    requires DescribesDispatches(t, events)
    ensures DescribesDispatches(Updated(t, e), events + [e])
  {
    assert (events + [e])[..|events|] == events;
  }

  lemma OneMoreAck(t: Tables, events: seq<Event>, e: Event)
    requires DescribesAcks(t, events)
    ensures DescribesAcks(Updated(t, e), events + [e])
  {
    assert (events + [e])[..|events|] == events;
  }

  lemma OneMoreAgent(t: Tables, events: seq<Event>, e: Event)
    requires DescribesAgents(t, events)
    ensures DescribesAgents(Updated(t, e), events + [e])
  {
    hide AgentsHeard, LastTerminal;
    OneMoreEvent(events, e);
  }

  lemma OneMore(t: Tables, t': Tables, events: seq<Event>, e: Event)
    requires Describes(t, events) && t' == Updated(t, e)
    ensures Describes(t', events + [e])
  {
    OneMoreDispatch(t, events, e);
    OneMoreAck(t, events, e);
    OneMoreAgent(t, events, e);
  }

  method ReadEvents(events: seq<Event>) returns (t: Tables)
    ensures Describes(t, events)
  {
    t := Tables(map[], map[], [], [], map[], [], {});
    for i := 0 to |events|
      invariant Describes(t, events[..i])
    {
      OneMore(t, Updated(t, events[i]), events[..i], events[i]);
      t := Updated(t, events[i]);
      assert events[..i + 1] == events[..i] + [events[i]];
    }
    assert events[..|events|] == events;
  }

  /** The join through the shared tool-use id: later ids overwrite earlier ones. */
  method JoinRoles(t: Tables, ghost events: seq<Event>) returns (roleByAgent: map<string, string>)
    requires Describes(t, events)
    ensures forall a ::
              RoleAmong(events, AckedIds(events), a) == if a in roleByAgent then Some(roleByAgent[a]) else None
  {
    roleByAgent := map[];
    for i := 0 to |t.ackedIds|
      invariant forall a ::
                  RoleAmong(events, t.ackedIds[..i], a) == if a in roleByAgent then Some(roleByAgent[a]) else None
    {
      var id := t.ackedIds[i];
      assert t.ackedIds[..i + 1][..i] == t.ackedIds[..i];
      assert id in t.ackedIds && id != "";
      if id in t.roleById && t.roleById[id] != "" {
        roleByAgent := roleByAgent[t.agentById[id] := t.roleById[id]];
      }
    }
    assert t.ackedIds[..|t.ackedIds|] == t.ackedIds;
  }

  /** Backwards through the agents, so that a later completed dispatch wins. */
  lemma LastSuchNext(s: seq<string>, i: nat, p: string -> bool)
    requires i < |s|
    ensures LastSuch(s[..i + 1], p) == if p(s[i]) then Some(s[i]) else LastSuch(s[..i], p)
    ensures LastSuch(s[..0], p) == None
  {
    assert s[..i + 1][..i] == s[..i];
  }

  method ScanAgents(t: Tables, roleByAgent: map<string, string>, role: string, ghost events: seq<Event>)
    returns (r: Option<string>)
    requires Describes(t, events)
    requires forall a ::
               RoleAmong(events, AckedIds(events), a) == if a in roleByAgent then Some(roleByAgent[a]) else None
    ensures r == LastSuch(AgentsHeard(events), CompletedAs(events, role))
  {
    hide AgentsHeard, RoleAmong, LastTerminal, AckedIds, DescribesDispatches, DescribesAcks;
    var i := |t.agentOrder|;
    assert t.agentOrder[..i] == t.agentOrder;
    while i > 0
      invariant 0 <= i <= |t.agentOrder|
      invariant LastSuch(AgentsHeard(events), CompletedAs(events, role))
             == LastSuch(t.agentOrder[..i], CompletedAs(events, role))
    {
      i := i - 1;
      var agentId := t.agentOrder[i];
      LastSuchNext(t.agentOrder, i, CompletedAs(events, role));
      if agentId !in roleByAgent || roleByAgent[agentId] != role { continue; }
      if agentId in t.statusByAgent && t.statusByAgent[agentId] == Some(Completed) {
        return Some(agentId);
      }
    }
    return None;
  }

  /** Backwards through the dispatches that returned a result without an agent id. */
  method ScanDispatches(t: Tables, role: string, ghost events: seq<Event>) returns (r: Option<string>)
    requires Describes(t, events)
    ensures r == LastSuch(DispatchIds(events), ReturnedAs(events, role))
  {
    hide DispatchIds, RoleUnder, ReturnedInForeground, DescribesAcks, DescribesAgents;
    var i := |t.dispatchOrder|;
    assert t.dispatchOrder[..i] == t.dispatchOrder;
    while i > 0
      invariant 0 <= i <= |t.dispatchOrder|
      invariant LastSuch(DispatchIds(events), ReturnedAs(events, role))
             == LastSuch(t.dispatchOrder[..i], ReturnedAs(events, role))
    {
      i := i - 1;
      var toolUseId := t.dispatchOrder[i];
      LastSuchNext(t.dispatchOrder, i, ReturnedAs(events, role));
      DispatchIdsArePresent(events, i);
      if toolUseId !in t.roleById || t.roleById[toolUseId] != role { continue; }
      if toolUseId in t.foreground { return Some(toolUseId); }
    }
    return None;
  }

  method CheckOpinionProvenance(events: seq<Event>, gate: GateName) returns (r: Binding)
    ensures r == BindingOf(events, gate)
  {
    var role := RoleForGate(gate);
    if role.None? { return Unbound; }
    var t := ReadEvents(events);
    var roleByAgent := JoinRoles(t, events);
    var agent := ScanAgents(t, roleByAgent, role.value, events);
    if agent.Some? { return Background(agent.value); }
    var id := ScanDispatches(t, role.value, events);
    if id.Some? { return Foreground(id.value); }
    return Unbound;
  }

  lemma {:induction false} DispatchIdsArePresent(events: seq<Event>, i: nat)
    requires i < |DispatchIds(events)|
    ensures DispatchIds(events)[i] != ""
  {
    if i < |DispatchIds(events[..|events| - 1])| { DispatchIdsArePresent(events[..|events| - 1], i); }
  }

  // ----- What a binding proves -----

  /** A dispatch of the role was acknowledged as this agent, whose last terminal status is completed. */
  ghost predicate CompletedDispatch(events: seq<Event>, role: string, agent: string) {
    && LastTerminal(events, agent) == Some(Completed)
    && exists id :: id != "" && RoleUnder(events, id) == Some(role) && AgentUnder(events, id) == Some(agent)
  }

  /** A dispatch of the role under this id returned a result in the foreground. */
  predicate ReturnedDispatch(events: seq<Event>, role: string, id: string) {
    id != "" && RoleUnder(events, id) == Some(role) && ForegroundResult(id) in events
  }

  /** Each agent id is acknowledged under one tool-use id. */
  ghost predicate AckedOnce(events: seq<Event>) {
    forall i, j :: 0 <= i < j < |events| && events[i].Resolution? && events[j].Resolution?
                   && events[i].agentId == events[j].agentId
                   && Present(events[i].toolUseId) && Present(events[j].toolUseId)
      ==> events[i].toolUseId == events[j].toolUseId
  }

  ghost predicate IsLastSuch(s: seq<string>, p: string -> bool, x: string) {
    p(x) && exists i :: 0 <= i < |s| && s[i] == x && forall j :: i < j < |s| ==> !p(s[j])
  }

  lemma {:induction false} LastSuchIsLast(s: seq<string>, p: string -> bool)
    ensures match LastSuch(s, p)
            case None => forall i :: 0 <= i < |s| ==> !p(s[i])
            case Some(x) => IsLastSuch(s, p, x)
  {
    if s != [] && !p(s[|s| - 1]) {
      LastSuchIsLast(s[..|s| - 1], p);
    }
  }

  lemma {:induction false} AckNamesAgent(events: seq<Event>, id: string)
    requires AgentUnder(events, id).Some?
    ensures exists i :: 0 <= i < |events| && events[i].Resolution? && events[i].toolUseId == Some(id)
                        && events[i].agentId == AgentUnder(events, id).value
    ensures AgentUnder(events, id).value in AgentsHeard(events)
    ensures id != "" ==> id in AckedIds(events)
  {
    var before := events[..|events| - 1];
    if AgentUnder(before, id).Some? { AckNamesAgent(before, id); }
  }

  lemma {:induction false} AckedIdsAreAcked(events: seq<Event>, id: string)
    requires id in AckedIds(events)
    ensures id != "" && AgentUnder(events, id).Some?
  {
    var before := events[..|events| - 1];
    if id in AckedIds(before) { AckedIdsAreAcked(before, id); }
  }

  lemma {:induction false} RoleNeedsDispatch(events: seq<Event>, id: string)
    requires RoleUnder(events, id).Some? && id != ""
    ensures id in DispatchIds(events)
  {
    var e := events[|events| - 1];
    if !(e.Dispatch? && e.toolUseId == Some(id)) { RoleNeedsDispatch(events[..|events| - 1], id); }
  }

  lemma {:induction false} RoleAmongSound(events: seq<Event>, ids: seq<string>, agent: string)
    requires RoleAmong(events, ids, agent).Some?
    ensures exists i :: 0 <= i < |ids| && AgentUnder(events, ids[i]) == Some(agent)
                        && RoleUnder(events, ids[i]) == RoleAmong(events, ids, agent)
  {
    var id := ids[|ids| - 1];
    if !(AgentUnder(events, id) == Some(agent) && Present(RoleUnder(events, id))) {
      RoleAmongSound(events, ids[..|ids| - 1], agent);
    }
  }

  lemma {:induction false} RoleAmongComplete(events: seq<Event>, ids: seq<string>, agent: string, id: string)
    requires id in ids && AgentUnder(events, id) == Some(agent) && Present(RoleUnder(events, id))
    ensures RoleAmong(events, ids, agent).Some?
  {
    var last := ids[|ids| - 1];
    if last != id {
      RoleAmongComplete(events, ids[..|ids| - 1], agent, id);
    }
  }

  lemma OneIdPerAgent(events: seq<Event>, a: string, b: string)
    requires AckedOnce(events) && a != "" && b != "" && AgentUnder(events, a).Some?
    requires AgentUnder(events, a) == AgentUnder(events, b)
    ensures a == b
  {
    AckNamesAgent(events, a);
    AckNamesAgent(events, b);
  }

  /** The test the backward scan applies to an agent is evidence, and the other way round as well when each
      agent is acknowledged under one id. */
  lemma ScanFindsEvidence(events: seq<Event>, role: string, agent: string)
    requires role != ""
    ensures CompletedAs(events, role)(agent) ==> CompletedDispatch(events, role, agent)
    ensures AckedOnce(events) && CompletedDispatch(events, role, agent) ==>
              CompletedAs(events, role)(agent) && agent in AgentsHeard(events)
  {
    var ids := AckedIds(events);
    if RoleAmong(events, ids, agent).Some? {
      RoleAmongSound(events, ids, agent);
      var i :| 0 <= i < |ids| && AgentUnder(events, ids[i]) == Some(agent)
               && RoleUnder(events, ids[i]) == RoleAmong(events, ids, agent);
      assert ids[i] in ids;
      AckedIdsAreAcked(events, ids[i]);
    }
    if AckedOnce(events) && CompletedDispatch(events, role, agent) {
      var id :| id != "" && RoleUnder(events, id) == Some(role) && AgentUnder(events, id) == Some(agent);
      AckNamesAgent(events, id);
      RoleAmongComplete(events, ids, agent, id);
      RoleAmongSound(events, ids, agent);
      var i :| 0 <= i < |ids| && AgentUnder(events, ids[i]) == Some(agent)
               && RoleUnder(events, ids[i]) == RoleAmong(events, ids, agent);
      assert ids[i] in ids;
      AckedIdsAreAcked(events, ids[i]);
      OneIdPerAgent(events, id, ids[i]);
    }
  }

  /** A report is never bound without a dispatch of the reviewer that completed or returned. */
  lemma BindingIsSound(events: seq<Event>, gate: GateName)
    ensures match BindingOf(events, gate)
            case Background(agent) =>
              RoleForGate(gate).Some? && CompletedDispatch(events, RoleForGate(gate).value, agent)
            case Foreground(id) => RoleForGate(gate).Some? && ReturnedDispatch(events, RoleForGate(gate).value, id)
            case Unbound => true
  {
    if RoleForGate(gate).Some? {
      var role := RoleForGate(gate).value;
      LastSuchIsLast(AgentsHeard(events), CompletedAs(events, role));
      LastSuchIsLast(DispatchIds(events), ReturnedAs(events, role));
      match BindingOf(events, gate) {
        case Background(agent) => ScanFindsEvidence(events, role, agent);
        case Foreground(id) =>
          var i :| 0 <= i < |DispatchIds(events)| && DispatchIds(events)[i] == id;
          DispatchIdsArePresent(events, i);
        case Unbound =>
      }
    }
  }

  /** Of the agents that completed such a dispatch, this one was heard of last. */
  ghost predicate LastCompleted(events: seq<Event>, role: string, agent: string) {
    var heard := AgentsHeard(events);
    && CompletedDispatch(events, role, agent)
    && exists i :: 0 <= i < |heard| && heard[i] == agent
                   && forall j :: i < j < |heard| ==> !CompletedDispatch(events, role, heard[j])
  }

  /** Of the ids under which such a dispatch returned, this one was used last. */
  ghost predicate LastReturned(events: seq<Event>, role: string, id: string) {
    var ids := DispatchIds(events);
    && ReturnedDispatch(events, role, id)
    && exists i :: 0 <= i < |ids| && ids[i] == id
                   && forall j :: i < j < |ids| ==> !ReturnedDispatch(events, role, ids[j])
  }

  /** Exactly when a report is bound, and to what: the completed agent that was heard of last, or, when there is
      none, the returned dispatch that was made last. */
  lemma BindsIff(events: seq<Event>, gate: GateName)
    requires AckedOnce(events) && RoleForGate(gate).Some?
    ensures var role := RoleForGate(gate).value;
            match BindingOf(events, gate)
            case Background(agent) => LastCompleted(events, role, agent)
            case Foreground(id) => LastReturned(events, role, id) && forall a :: !CompletedDispatch(events, role, a)
            case Unbound =>
              (forall a :: !CompletedDispatch(events, role, a)) && (forall id :: !ReturnedDispatch(events, role, id))
  {
    var role := RoleForGate(gate).value;
    LastSuchIsLast(AgentsHeard(events), CompletedAs(events, role));
    LastSuchIsLast(DispatchIds(events), ReturnedAs(events, role));
    forall a
      ensures CompletedDispatch(events, role, a) <==> CompletedAs(events, role)(a)
      ensures CompletedDispatch(events, role, a) ==> a in AgentsHeard(events)
    {
      ScanFindsEvidence(events, role, a);
    }
    forall id | ReturnedDispatch(events, role, id)
      ensures id in DispatchIds(events)
    {
      RoleNeedsDispatch(events, id);
    }
    forall i | 0 <= i < |DispatchIds(events)|
      ensures DispatchIds(events)[i] != ""
    {
      DispatchIdsArePresent(events, i);
    }
  }

  /** Of the ids acknowledged as this agent and dispatched with a role, the one acknowledged last has this role. */
  ghost predicate RunsAs(events: seq<Event>, ids: seq<string>, role: string, agent: string) {
    exists i :: 0 <= i < |ids| && AgentUnder(events, ids[i]) == Some(agent) && RoleUnder(events, ids[i]) == Some(role)
                && forall j :: i < j < |ids| && AgentUnder(events, ids[j]) == Some(agent) ==>
                     RoleUnder(events, ids[j]) == None || RoleUnder(events, ids[j]) == Some("")
  }

  lemma {:induction false} RoleAmongIff(events: seq<Event>, ids: seq<string>, role: string, agent: string)
    requires role != ""
    ensures RoleAmong(events, ids, agent) == Some(role) <==> RunsAs(events, ids, role, agent)
  {
    hide RoleUnder, AgentUnder;
    if ids != [] {
      var n := |ids| - 1;
      RoleAmongIff(events, ids[..n], role, agent);
      if RunsAs(events, ids[..n], role, agent)
         && !(AgentUnder(events, ids[n]) == Some(agent) && Present(RoleUnder(events, ids[n]))) {
        var i :| 0 <= i < n && AgentUnder(events, ids[..n][i]) == Some(agent)
                 && RoleUnder(events, ids[..n][i]) == Some(role)
                 && forall j :: i < j < n && AgentUnder(events, ids[..n][j]) == Some(agent) ==>
                      RoleUnder(events, ids[..n][j]) == None || RoleUnder(events, ids[..n][j]) == Some("");
        assert forall j :: 0 <= j < n ==> ids[..n][j] == ids[j];
      }
    }
  }

  /** The agent last said that it completed, in this role. */
  ghost predicate CompletedRun(events: seq<Event>, role: string, agent: string) {
    LastTerminal(events, agent) == Some(Completed) && RunsAs(events, AckedIds(events), role, agent)
  }

  lemma CompletedRunIff(events: seq<Event>, role: string, agent: string)
    requires role != ""
    ensures CompletedAs(events, role)(agent) <==> CompletedRun(events, role, agent)
    ensures CompletedRun(events, role, agent) ==> agent in AgentsHeard(events)
  {
    hide RoleUnder, AgentsHeard, LastTerminal;
    RoleAmongIff(events, AckedIds(events), role, agent);
    if CompletedRun(events, role, agent) {
      var i :| 0 <= i < |AckedIds(events)| && AgentUnder(events, AckedIds(events)[i]) == Some(agent);
      AckNamesAgent(events, AckedIds(events)[i]);
    }
  }

  /** Of the agents that did, it was heard of last. */
  ghost predicate LastRun(events: seq<Event>, role: string, agent: string) {
    var heard := AgentsHeard(events);
    && CompletedRun(events, role, agent)
    && exists i :: 0 <= i < |heard| && heard[i] == agent
                   && forall j :: i < j < |heard| ==> !CompletedRun(events, role, heard[j])
  }

  /** What any transcript binds a report to, also when an agent was acknowledged under several ids. */
  lemma BoundIff(events: seq<Event>, gate: GateName)
    requires RoleForGate(gate).Some?
    ensures var role := RoleForGate(gate).value;
            match BindingOf(events, gate)
            case Background(agent) => LastRun(events, role, agent)
            case Foreground(id) => LastReturned(events, role, id) && forall a :: !CompletedRun(events, role, a)
            case Unbound =>
              (forall a :: !CompletedRun(events, role, a)) && (forall id :: !ReturnedDispatch(events, role, id))
  {
    hide RoleUnder, AgentUnder, LastTerminal, AgentsHeard, DispatchIds, CompletedRun, CompletedAs;
    var role := RoleForGate(gate).value;
    LastSuchIsLast(AgentsHeard(events), CompletedAs(events, role));
    LastSuchIsLast(DispatchIds(events), ReturnedAs(events, role));
    forall a { CompletedRunIff(events, role, a); }
    forall id | ReturnedDispatch(events, role, id)
      ensures id in DispatchIds(events)
    {
      RoleNeedsDispatch(events, id);
    }
    forall i | 0 <= i < |DispatchIds(events)|
      ensures DispatchIds(events)[i] != ""
    {
      DispatchIdsArePresent(events, i);
    }
  }

  // ----- What the tables hold, by position in the transcript -----

  predicate DispatchUnder(e: Event, id: string) { e.Dispatch? && e.toolUseId == Some(id) }

  predicate AckUnder(e: Event, id: string) { e.Resolution? && e.toolUseId == Some(id) }

  predicate EndOf(e: Event, agent: string) {
    e.Resolution? && e.agentId == agent && (e.status == Completed || e.status == Failed || e.status == Errored)
  }

  /** `i` is the last position at which `p` holds. */
  ghost predicate LastAt(events: seq<Event>, p: Event -> bool, i: nat) {
    i < |events| && p(events[i]) && forall j :: i < j < |events| ==> !p(events[j])
  }

  ghost predicate FirstAt(events: seq<Event>, p: Event -> bool, i: nat) {
    i < |events| && p(events[i]) && forall j :: 0 <= j < i ==> !p(events[j])
  }

  /** Of two dispatches under one id the later one names the role. */
  lemma {:induction false} RoleUnderIs(events: seq<Event>, id: string, i: nat)
    requires LastAt(events, (e: Event) => DispatchUnder(e, id), i)
    ensures RoleUnder(events, id) == Some(events[i].role)
  {
    if i < |events| - 1 { RoleUnderIs(events[..|events| - 1], id, i); }
  }

  /** Of two acknowledgements under one id the earlier one names the agent. */
  lemma {:induction false} AgentUnderIs(events: seq<Event>, id: string, i: nat)
    requires FirstAt(events, (e: Event) => AckUnder(e, id), i)
    ensures AgentUnder(events, id) == Some(events[i].agentId)
  {
    var init := events[..|events| - 1];
    if i < |init| { AgentUnderIs(init, id, i); } else { NotUnder(init, id, ""); }
  }

  /** An agent ends as it last said it did. */
  lemma {:induction false} LastTerminalIs(events: seq<Event>, agent: string, i: nat)
    requires LastAt(events, (e: Event) => EndOf(e, agent), i)
    ensures LastTerminal(events, agent) == Some(events[i].status)
  {
    if i < |events| - 1 { LastTerminalIs(events[..|events| - 1], agent, i); }
  }

  /** What no event says is in no table. */
  lemma {:induction false} NotUnder(events: seq<Event>, id: string, agent: string)
    ensures (forall k :: 0 <= k < |events| ==> !DispatchUnder(events[k], id)) ==> RoleUnder(events, id) == None
    ensures (forall k :: 0 <= k < |events| ==> !AckUnder(events[k], id)) ==> AgentUnder(events, id) == None
    ensures (forall k :: 0 <= k < |events| ==> !EndOf(events[k], agent)) ==> LastTerminal(events, agent) == None
  {
    if events != [] { NotUnder(events[..|events| - 1], id, agent); }
  }

  function DispatchId(): Event -> seq<string> {
    (e: Event) => if e.Dispatch? && e.toolUseId.Some? && e.toolUseId.value != "" then [e.toolUseId.value] else []
  }

  function AckedId(): Event -> seq<string> {
    (e: Event) => if e.Resolution? && e.toolUseId.Some? && e.toolUseId.value != "" then [e.toolUseId.value] else []
  }

  function AgentHeard(): Event -> seq<string> {
    (e: Event) => if e.Resolution? then [e.agentId] else []
  }

  /** Dispatches are listed as they were made; acknowledged ids and agents in the order in which they first occur. */
  lemma {:induction false} ListsAre(events: seq<Event>)
    ensures DispatchIds(events) == Collect(events, DispatchId())
    ensures AckedIds(events) == Dedup(Collect(events, AckedId()))
    ensures AgentsHeard(events) == Dedup(Collect(events, AgentHeard()))
  {
    if events != [] {
      var init, e := events[..|events| - 1], events[|events| - 1];
      hide Collect, Dedup;
      ListsAre(init);
      ConcatLast([], events);
      CollectSnoc(init, e, DispatchId());
      assert Collect(init, DispatchId()) + [] == Collect(init, DispatchId());
      NextDistinct(init, e, AckedId());
      NextDistinct(init, e, AgentHeard());
    } else {
      assert Collect([], DispatchId()) == [] && Dedup(Collect([], AckedId())) == [];
      assert Dedup(Collect([], AgentHeard())) == [];
    }
  }

  lemma NextDistinct(init: seq<Event>, e: Event, f: Event -> seq<string>)
    requires |f(e)| <= 1
    ensures Dedup(Collect(init + [e], f))
         == if f(e) == [] || f(e)[0] in Dedup(Collect(init, f)) then Dedup(Collect(init, f))
            else Dedup(Collect(init, f)) + [f(e)[0]]
  {
    CollectSnoc(init, e, f);
    hide Collect, Dedup;
    var before := Collect(init, f);
    if f(e) == [] {
      assert before + [] == before;
    } else {
      assert f(e) == [f(e)[0]];
      DedupNext(before, f(e)[0]);
      DedupIsDistinct(before);
    }
  }

  // ----- The dispatch made last, and the agent heard of last -----

  /** A dispatch of the role under this id was acknowledged as an agent that completed. */
  ghost predicate CompletedUnder(events: seq<Event>, role: string, id: string) {
    && id != "" && RoleUnder(events, id) == Some(role) && AgentUnder(events, id).Some?
    && LastTerminal(events, AgentUnder(events, id).value) == Some(Completed)
  }

  ghost predicate DispatchedBefore(events: seq<Event>, x: string, y: string) {
    exists i, j :: 0 <= i < j < |DispatchIds(events)| && DispatchIds(events)[i] == x && DispatchIds(events)[j] == y
  }

  ghost predicate HeardBefore(events: seq<Event>, a: string, b: string) {
    exists i, j :: 0 <= i < j < |AgentsHeard(events)| && AgentsHeard(events)[i] == a && AgentsHeard(events)[j] == b
  }

  /** Of the dispatches of the role that completed, this one was made last. */
  ghost predicate DispatchedLast(events: seq<Event>, role: string, id: string) {
    var ids := DispatchIds(events);
    && CompletedUnder(events, role, id)
    && exists i :: 0 <= i < |ids| && ids[i] == id && forall j :: i < j < |ids| ==> !CompletedUnder(events, role, ids[j])
  }

  lemma {:induction false} HeardOnce(events: seq<Event>)
    ensures Distinct(AgentsHeard(events))
  {
    if events != [] { HeardOnce(events[..|events| - 1]); }
  }

  lemma CompletedIsHeard(events: seq<Event>, role: string, id: string)
    requires AckedOnce(events) && role != "" && CompletedUnder(events, role, id)
    ensures CompletedDispatch(events, role, AgentUnder(events, id).value)
    ensures AgentUnder(events, id).value in AgentsHeard(events)
  {
    ScanFindsEvidence(events, role, AgentUnder(events, id).value);
  }

  /** The agent bound is the completed one that was heard of last. */
  lemma BoundWhenLast(events: seq<Event>, gate: GateName, z: string)
    requires AckedOnce(events) && RoleForGate(gate).Some? && CompletedUnder(events, RoleForGate(gate).value, z)
    ensures BindingOf(events, gate).Background?
            && LastCompleted(events, RoleForGate(gate).value, BindingOf(events, gate).agentId)
  {
    CompletedIsHeard(events, RoleForGate(gate).value, z);
    BindsIff(events, gate);
  }

  lemma OthersHeardBefore(events: seq<Event>, role: string, z: string, id: string)
    requires AckedOnce(events) && role != "" && CompletedUnder(events, role, z) && CompletedUnder(events, role, id)
             && id != z
    requires LastCompleted(events, role, AgentUnder(events, z).value)
    ensures HeardBefore(events, AgentUnder(events, id).value, AgentUnder(events, z).value)
  {
    var a, b := AgentUnder(events, id).value, AgentUnder(events, z).value;
    CompletedIsHeard(events, role, id);
    if a == b { OneIdPerAgent(events, id, z); }
    var heard := AgentsHeard(events);
    var i :| 0 <= i < |heard| && heard[i] == b
             && forall j :: i < j < |heard| ==> !CompletedDispatch(events, role, heard[j]);
    var k :| 0 <= k < |heard| && heard[k] == a;
    assert k < i;
  }

  lemma HeardLastIsBound(events: seq<Event>, role: string, z: string, agent: string)
    requires AckedOnce(events) && role != "" && CompletedUnder(events, role, z) && LastCompleted(events, role, agent)
    requires forall id :: CompletedUnder(events, role, id) && id != z ==>
               HeardBefore(events, AgentUnder(events, id).value, AgentUnder(events, z).value)
    ensures agent == AgentUnder(events, z).value
  {
    var id :| id != "" && RoleUnder(events, id) == Some(role) && AgentUnder(events, id) == Some(agent);
    assert CompletedUnder(events, role, id);
    CompletedIsHeard(events, role, z);
    HeardOnce(events);
  }

  /** The report is bound to the dispatch made last exactly when the agents of all other completed dispatches of the
      role were heard of before its agent; so when two completed dispatches are heard of in the other order, the one
      made last is passed over. */
  lemma LatestDispatchIff(events: seq<Event>, gate: GateName, z: string)
    requires AckedOnce(events) && RoleForGate(gate).Some? && DispatchedLast(events, RoleForGate(gate).value, z)
    ensures BindingOf(events, gate) == Background(AgentUnder(events, z).value)
       <==> forall id :: CompletedUnder(events, RoleForGate(gate).value, id) && id != z ==>
              HeardBefore(events, AgentUnder(events, id).value, AgentUnder(events, z).value)
  {
    var role := RoleForGate(gate).value;
    BoundWhenLast(events, gate, z);
    var agent := BindingOf(events, gate).agentId;
    if agent == AgentUnder(events, z).value {
      forall id | CompletedUnder(events, role, id) && id != z
        ensures HeardBefore(events, AgentUnder(events, id).value, AgentUnder(events, z).value)
      {
        OthersHeardBefore(events, role, z, id);
      }
    } else if forall id :: CompletedUnder(events, role, id) && id != z ==>
                HeardBefore(events, AgentUnder(events, id).value, AgentUnder(events, z).value) {
      HeardLastIsBound(events, role, z, agent);
    }
  }

  /** In particular the latest dispatch is bound whenever agents are heard of in the order of their dispatches. */
  lemma BoundInDispatchOrder(events: seq<Event>, gate: GateName, z: string)
    requires AckedOnce(events) && RoleForGate(gate).Some? && DispatchedLast(events, RoleForGate(gate).value, z)
    requires forall x, y ::
               CompletedUnder(events, RoleForGate(gate).value, x) && CompletedUnder(events, RoleForGate(gate).value, y)
               && x != y && DispatchedBefore(events, x, y)
               ==> HeardBefore(events, AgentUnder(events, x).value, AgentUnder(events, y).value)
    ensures BindingOf(events, gate) == Background(AgentUnder(events, z).value)
  {
    hide RoleForGate, RoleUnder, AgentUnder, LastTerminal, DispatchIds, AgentsHeard, AckedOnce, BindingOf, HeardBefore;
    var role, ids := RoleForGate(gate).value, DispatchIds(events);
    forall id | CompletedUnder(events, role, id) && id != z
      ensures DispatchedBefore(events, id, z)
    {
      RoleNeedsDispatch(events, id);
      var i :| 0 <= i < |ids| && ids[i] == z && forall j :: i < j < |ids| ==> !CompletedUnder(events, role, ids[j]);
      var k :| 0 <= k < |ids| && ids[k] == id;
      assert k < i;
    }
    LatestDispatchIff(events, gate, z);
  }

  // ----- The smallest transcript in which the latest dispatch is passed over -----

  const DISPATCH_X := Dispatch("tester", Some("x"))
  const DISPATCH_Y := Dispatch("tester", Some("y"))
  const B_COMPLETED := Resolution("B", Completed, Some("y"))
  const A_COMPLETED := Resolution("A", Completed, Some("x"))

  /** x is dispatched, then y; y's agent B is acknowledged as completed first, then x's agent A. */
  function Crossed(): seq<Event> {
    [] + [DISPATCH_X] + [DISPATCH_Y] + [B_COMPLETED] + [A_COMPLETED]
  }

  /** What the crossed transcript says. */
  lemma CrossedSays()
    ensures var events := Crossed();
            && DispatchIds(events) == ["x", "y"] && AgentsHeard(events) == ["B", "A"]
            && RoleUnder(events, "x") == RoleUnder(events, "y") == Some("tester")
            && AgentUnder(events, "x") == Some("A") && AgentUnder(events, "y") == Some("B")
            && LastTerminal(events, "A") == LastTerminal(events, "B") == Some(Completed)
  {
    hide DispatchIds, AgentsHeard, RoleUnder, AgentUnder, LastTerminal;
    NothingSaid();
    OneMoreEvent([], DISPATCH_X);
    OneMoreEvent([] + [DISPATCH_X], DISPATCH_Y);
    OneMoreEvent([] + [DISPATCH_X] + [DISPATCH_Y], B_COMPLETED);
    OneMoreEvent([] + [DISPATCH_X] + [DISPATCH_Y] + [B_COMPLETED], A_COMPLETED);
    assert "x" != "y" && "A" != "B";
  }

  lemma CrossedIsAckedOnce()
    ensures AckedOnce(Crossed())
  {
    assert forall i :: 0 <= i < 4 && Crossed()[i].Resolution? ==> i == 2 || i == 3;
  }

  lemma NothingSaid()
    ensures DispatchIds([]) == [] && AgentsHeard([]) == []
    ensures forall s :: RoleUnder([], s) == None && AgentUnder([], s) == None && LastTerminal([], s) == None
  {
  }

  /** y was dispatched last and completed, and the report is bound to x's agent. */
  lemma LatestDispatchPassedOver()
    ensures AckedOnce(Crossed()) && DispatchedLast(Crossed(), "tester", "y")
    ensures BindingOf(Crossed(), Opinion(Tester)) == Background("A")
  {
    hide DispatchIds, AgentsHeard, RoleUnder, AgentUnder, LastTerminal, AckedOnce, Crossed, BindingOf;
    var events := Crossed();
    CrossedIsAckedOnce();
    CrossedSays();
    assert DispatchIds(events)[1] == "y" && AgentsHeard(events)[1] == "A";
    assert CompletedDispatch(events, "tester", "A");
    BoundWhenLast(events, Opinion(Tester), "y");
  }
}
