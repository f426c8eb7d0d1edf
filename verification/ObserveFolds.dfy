/** Reports folded from the events of session transcripts: how often each skill was invoked, how often each
    role was dispatched, how many agents finished, and how many dispatches an agent id could be tied to. */
module ObserveFolds {
  import opened Prelude

  datatype Status = Completed | Failed | Errored | OtherStatus(text: string)

  /** What parsing a transcript line yields; None stands for an absent tool-use id. */
  datatype Event =
    | Skill(name: string)
    | Dispatch(role: string, toolUseId: Option<string>)
    | ForegroundResult(toolUse: string)
    | Resolution(agentId: string, status: Status, toolUseId: Option<string>)

  predicate Terminal(s: Status) {
    s == Completed || s == Failed || s == Errored
  }

  /** JavaScript truthiness: an empty id is no id. */
  predicate Present(id: Option<string>) {
    id.Some? && id.value != ""
  }

  // ----- Count maps -----

  type Counts = map<string, nat>

  function Get(m: Counts, k: string): nat {
    if k in m then m[k] else 0
  }

  function Bump(m: Counts, k: string): Counts {
    m[k := Get(m, k) + 1]
  }

  function Tally(s: seq<string>): Counts {
    map k | k in s :: multiset(s)[k]
  }

  function Merge(a: Counts, b: Counts): Counts {
    map k | k in a.Keys + b.Keys :: Get(a, k) + Get(b, k)
  }

  lemma TallyOneMore(s: seq<string>, k: string)
    ensures Tally(s + [k]) == Bump(Tally(s), k)
  {
    assert forall x :: x in s + [k] <==> x in s || x == k;
    assert multiset(s + [k]) == multiset(s) + multiset{k};
  }

  lemma TallyPermutes(s: seq<string>, t: seq<string>)
    requires multiset(s) == multiset(t)
    ensures Tally(s) == Tally(t)
  {
    forall k
      ensures k in s <==> k in t
    {
      assert k in s <==> k in multiset(s);
      assert k in t <==> k in multiset(t);
    }
  }

  lemma TallyConcat(s: seq<string>, t: seq<string>)
    ensures Tally(s + t) == Merge(Tally(s), Tally(t))
  {
    assert multiset(s + t) == multiset(s) + multiset(t);
    assert forall k :: k in s + t <==> k in s || k in t;
    assert forall k :: k !in s ==> multiset(s)[k] == 0;
    assert forall k :: k !in t ==> multiset(t)[k] == 0;
  }

  // ----- What the report of an event list means -----

  const SkillName := (e: Event) => if e.Skill? then [e.name] else []

  const DispatchedRole := (e: Event) => if e.Dispatch? then [e.role] else []

  function Resolved(events: seq<Event>): set<string> {
    set e | e in events && e.Resolution? :: e.agentId
  }

  function Finished(events: seq<Event>): set<string> {
    set e | e in events && e.Resolution? && Terminal(e.status) :: e.agentId
  }

  /** The role whose dispatch under `id` is still unacknowledged: the last event that names `id`, when that
      is a dispatch. */
  function OpenDispatch(events: seq<Event>, id: string): Option<string> {
    if events == [] then None
    else
      var e := events[|events| - 1];
      if e.Dispatch? && e.toolUseId == Some(id) then Some(e.role)
      else if e.Resolution? && e.toolUseId == Some(id) then None
      else OpenDispatch(events[..|events| - 1], id)
  }

  datatype Correlated = Correlated(role: string, toolUseId: string, agentId: string)

  /** One entry for every acknowledgement that answers an open dispatch. */
  function Correlations(events: seq<Event>): seq<Correlated> {
    if events == [] then []
    else
      var before, e := events[..|events| - 1], events[|events| - 1];
      if e.Resolution? && Present(e.toolUseId) && OpenDispatch(before, e.toolUseId.value).Some?
      then Correlations(before)
           + [Correlated(OpenDispatch(before, e.toolUseId.value).value, e.toolUseId.value, e.agentId)]
      else Correlations(before)
  }

  function Roles(correlated: seq<Correlated>): seq<string> {
    seq(|correlated|, i requires 0 <= i < |correlated| => correlated[i].role)
  }

  datatype Report = Report(skills: Counts, dispatches: Counts, completed: nat, truncated: nat, coverage: Counts)

  const EmptyReport := Report(map[], map[], 0, 0, map[])

  function ReportOf(events: seq<Event>): Report {
    Report(Tally(Collect(events, SkillName)), Tally(Collect(events, DispatchedRole)),
           |Finished(events)|, |Resolved(events) - Finished(events)|,
           Tally(Roles(Correlations(events))))
  }

  function MergeOf(a: Report, b: Report): Report {
    Report(Merge(a.skills, b.skills), Merge(a.dispatches, b.dispatches),
           a.completed + b.completed, a.truncated + b.truncated, Merge(a.coverage, b.coverage))
  }

  function MergeAll(first: Report, rest: seq<Report>): Report {
    if rest == [] then first else MergeOf(MergeAll(first, rest[..|rest| - 1]), rest[|rest| - 1])
  }

  // ----- The loops -----

  method CorrelateDispatches(events: seq<Event>) returns (correlated: seq<Correlated>)
    ensures correlated == Correlations(events)
  {
    var launches: map<string, string> := map[];
    correlated := [];
    for i := 0 to |events|
      invariant correlated == Correlations(events[..i])
      invariant forall id :: id != "" ==>
                  OpenDispatch(events[..i], id) == if id in launches then Some(launches[id]) else None
    {
      var ev := events[i];
      assert events[..i + 1][..i] == events[..i];
      if ev.Dispatch? && Present(ev.toolUseId) {
        launches := launches[ev.toolUseId.value := ev.role];
      } else if ev.Resolution? && Present(ev.toolUseId) && ev.toolUseId.value in launches {
        var id := ev.toolUseId.value;
        correlated := correlated + [Correlated(launches[id], id, ev.agentId)];
        launches := launches - {id};
      }
    }
    assert events[..|events|] == events;
  }

  method CountNames(events: seq<Event>) returns (skills: Counts, dispatches: Counts)
    ensures skills == Tally(Collect(events, SkillName))
    ensures dispatches == Tally(Collect(events, DispatchedRole))
  {
    skills, dispatches := map[], map[];
    ghost var names, roles: seq<string> := [], [];
    for i := 0 to |events|
      invariant names == Collect(events[..i], SkillName) && skills == Tally(names)
      invariant roles == Collect(events[..i], DispatchedRole) && dispatches == Tally(roles)
    {
      var ev := events[i];
      CollectNext(events, i, SkillName);
      CollectNext(events, i, DispatchedRole);
      if ev.Skill? {
        TallyOneMore(names, ev.name);
        skills, names := Bump(skills, ev.name), names + [ev.name];
      } else if ev.Dispatch? {
        TallyOneMore(roles, ev.role);
        dispatches, roles := Bump(dispatches, ev.role), roles + [ev.role];
      }
    }
    assert events[..|events|] == events;
  }

  method CountCompletion(events: seq<Event>) returns (completed: nat, truncated: nat)
    ensures completed == |Finished(events)| && truncated == |Resolved(events) - Finished(events)|
  {
    var pendingByAgentId: map<string, bool> := map[];  // agent id -> whether it completed
    for i := 0 to |events|
      invariant pendingByAgentId.Keys == Resolved(events[..i])
      invariant forall a :: a in pendingByAgentId ==> (pendingByAgentId[a] <==> a in Finished(events[..i]))
    {
      var ev := events[i];
      assert events[..i + 1] == events[..i] + [ev];
      if ev.Resolution? {
        if Terminal(ev.status) {
          pendingByAgentId := pendingByAgentId[ev.agentId := true];
        } else if ev.agentId !in pendingByAgentId {
          pendingByAgentId := pendingByAgentId[ev.agentId := false];
        }
      }
    }
    assert events[..|events|] == events;
    completed := |set a | a in pendingByAgentId && pendingByAgentId[a]|;
    truncated := |set a | a in pendingByAgentId && !pendingByAgentId[a]|;
    assert (set a | a in pendingByAgentId && pendingByAgentId[a]) == Finished(events);
    assert (set a | a in pendingByAgentId && !pendingByAgentId[a]) == Resolved(events) - Finished(events);
  }

  method CountCoverage(correlated: seq<Correlated>) returns (coverage: Counts)
    ensures coverage == Tally(Roles(correlated))
  {
    ghost var roles := Roles(correlated);
    coverage := map[];
    for i := 0 to |correlated|
      invariant coverage == Tally(roles[..i])
    {
      var role := correlated[i].role;
      assert roles[..i + 1] == roles[..i] + [role];
      TallyOneMore(roles[..i], role);
      coverage := Bump(coverage, role);
    }
    assert roles[..|correlated|] == roles;
  }

  method FoldEvents(events: seq<Event>, priorReports: seq<Report>) returns (report: Report)
    ensures report == MergeAll(ReportOf(events), priorReports)
  {
    var skills, dispatches := CountNames(events);
    var completed, truncated := CountCompletion(events);
    var correlated := CorrelateDispatches(events);
    var coverage := CountCoverage(correlated);
    report := Report(skills, dispatches, completed, truncated, coverage);
    for i := 0 to |priorReports|
      invariant report == MergeAll(ReportOf(events), priorReports[..i])
    {
      assert priorReports[..i + 1][..i] == priorReports[..i];
      report := MergeReports(report, priorReports[i]);
    }
    assert priorReports[..|priorReports|] == priorReports;
  }

  method MergeCounts(a: Counts, b: Counts) returns (m: Counts)
    ensures m == Merge(a, b)
  {
    m := a;
    var left := b.Keys;
    while left != {}
      invariant left <= b.Keys
      invariant m.Keys == a.Keys + (b.Keys - left)
      invariant forall k :: k in m ==> m[k] == Get(a, k) + if k in b && k !in left then b[k] else 0
      decreases left
    {
      var k :| k in left;
      m := m[k := Get(m, k) + b[k]];
      left := left - {k};
    }
  }

  method MergeReports(a: Report, b: Report) returns (r: Report)
    ensures r == MergeOf(a, b)
  {
    var skills := MergeCounts(a.skills, b.skills);
    var dispatches := MergeCounts(a.dispatches, b.dispatches);
    var coverage := MergeCounts(a.coverage, b.coverage);
    r := Report(skills, dispatches, a.completed + b.completed, a.truncated + b.truncated, coverage);
  }

  // ----- Order does not matter, except to coverage -----

  /** Skills, dispatches and completion are the same for every order of the same events. */
  lemma OrderIndependent(a: seq<Event>, b: seq<Event>)
    requires multiset(a) == multiset(b)
    ensures ReportOf(a).(coverage := map[]) == ReportOf(b).(coverage := map[])
  {
    CollectPermutes(a, b, SkillName);
    CollectPermutes(a, b, DispatchedRole);
    TallyPermutes(Collect(a, SkillName), Collect(b, SkillName));
    TallyPermutes(Collect(a, DispatchedRole), Collect(b, DispatchedRole));
    forall e
      ensures e in a <==> e in b
    {
      InPermutation(a, b, e);
    }
    assert Finished(a) == Finished(b) && Resolved(a) == Resolved(b);
  }

  /** Every agent that was heard of is counted once, as completed or as truncated. */
  lemma EveryAgentCounted(events: seq<Event>)
    ensures ReportOf(events).completed + ReportOf(events).truncated == |Resolved(events)|
  {
    hide Correlations, Tally, Roles;
    assert Finished(events) <= Resolved(events);
    assert Finished(events) + (Resolved(events) - Finished(events)) == Resolved(events);
  }

  /** The dispatches of `role` not yet acknowledged, by id. */
  ghost function Open(events: seq<Event>, role: string): set<string> {
    set e | e in events && e.Dispatch? && Present(e.toolUseId)
            && OpenDispatch(events, e.toolUseId.value) == Some(role) :: e.toolUseId.value
  }

  lemma {:induction false} OpenDispatchIsListed(events: seq<Event>, id: string)
    requires OpenDispatch(events, id).Some? && id != ""
    ensures id in Open(events, OpenDispatch(events, id).value)
    ensures exists e :: e in events && e.Dispatch? && e.toolUseId == Some(id)
  {
    var before, e := events[..|events| - 1], events[|events| - 1];
    if e.Dispatch? && e.toolUseId == Some(id) {
      assert e in events;
    } else {
      OpenDispatchIsListed(before, id);
      var d :| d in before && d.Dispatch? && d.toolUseId == Some(id);
      assert d in events;
    }
  }

  lemma OpenIsOpen(events: seq<Event>, role: string, id: string)
    ensures id in Open(events, role) <==> id != "" && OpenDispatch(events, id) == Some(role)
  {
    if id != "" && OpenDispatch(events, id) == Some(role) { OpenDispatchIsListed(events, id); }
  }

  /** A dispatch opens its id, an acknowledgement closes it, and nothing else changes what is open. */
  lemma OpenAfter(events: seq<Event>, e: Event, role: string)
    ensures Open(events + [e], role)
         == if e.Dispatch? && Present(e.toolUseId) && e.role == role then Open(events, role) + {e.toolUseId.value}
            else if (e.Dispatch? || e.Resolution?) && Present(e.toolUseId) then Open(events, role) - {e.toolUseId.value}
            else Open(events, role)
  {
    var all := events + [e];
    assert all[..|all| - 1] == events;
    forall id
      ensures id in Open(all, role) <==> id != "" && OpenDispatch(all, id) == Some(role)
      ensures id in Open(events, role) <==> id != "" && OpenDispatch(events, id) == Some(role)
    {
      OpenIsOpen(all, role, id);
      OpenIsOpen(events, role, id);
    }
  }

  function Dispatched(events: seq<Event>, role: string): nat {
    multiset(Collect(events, DispatchedRole))[role]
  }

  function Covered(events: seq<Event>, role: string): nat {
    multiset(Roles(Correlations(events)))[role]
  }

  lemma OneMoreEvent(before: seq<Event>, e: Event, role: string)
    ensures var events := before + [e];
            && Dispatched(events, role) == Dispatched(before, role) + (if e.Dispatch? && e.role == role then 1 else 0)
            && Covered(events, role) == Covered(before, role)
                 + (if e.Resolution? && Present(e.toolUseId)
                       && OpenDispatch(before, e.toolUseId.value) == Some(role) then 1 else 0)
  {
    var events := before + [e];
    assert events[..|events| - 1] == before;
    if e.Resolution? && Present(e.toolUseId) && OpenDispatch(before, e.toolUseId.value).Some? {
      var c := Correlated(OpenDispatch(before, e.toolUseId.value).value, e.toolUseId.value, e.agentId);
      assert Roles(Correlations(events)) == Roles(Correlations(before)) + [c.role];
    }
  }

  /** A role is covered at most as often as it was dispatched; its open dispatches are not covered. */
  lemma {:induction false} CoverageBounded(events: seq<Event>, role: string)
    ensures Covered(events, role) + |Open(events, role)| <= Dispatched(events, role)
    ensures Get(ReportOf(events).coverage, role) <= Get(ReportOf(events).dispatches, role)
  {
    hide Dispatched, Covered, Open, OpenDispatch, ReportOf, Get;
    if events == [] {
      NothingCovered(role);
    } else {
      var before, e := events[..|events| - 1], events[|events| - 1];
      assert events == before + [e];
      CoverageBounded(before, role);
      OneMoreEvent(before, e, role);
      OpenAfter(before, e, role);
      if e.Resolution? && Present(e.toolUseId) {
        OpenIsOpen(before, role, e.toolUseId.value);
      }
    }
    CoverageIsATally(events, role);
  }

  lemma NothingCovered(role: string)
    ensures Covered([], role) == 0 && Open([], role) == {}
  {
  }

  lemma CoverageIsATally(events: seq<Event>, role: string)
    ensures Get(ReportOf(events).coverage, role) == Covered(events, role)
    ensures Get(ReportOf(events).dispatches, role) == Dispatched(events, role)
  {
  }

  // ----- The counts, event by event -----

  function DispatchesOf(events: seq<Event>, role: string): nat {
    if events == [] then 0
    else
      var e := events[|events| - 1];
      DispatchesOf(events[..|events| - 1], role) + if e.Dispatch? && e.role == role then 1 else 0
  }

  lemma {:induction false} DispatchesCounted(events: seq<Event>, role: string)
    ensures Dispatched(events, role) == DispatchesOf(events, role)
  {
    if events != [] {
      var init, e := events[..|events| - 1], events[|events| - 1];
      hide Dispatched, Covered, OpenDispatch;
      DispatchesCounted(init, role);
      assert events == init + [e];
      OneMoreEvent(init, e, role);
    }
  }

  /** A skill is counted once for each of its events, and a role once for each dispatch. */
  lemma EveryEventCounted(events: seq<Event>, name: string)
    ensures Get(ReportOf(events).skills, name) == multiset(events)[Skill(name)]
    ensures Get(ReportOf(events).dispatches, name) == DispatchesOf(events, name)
  {
    MarkCounts(events, SkillName, Skill(name), name, true);
    DispatchesCounted(events, name);
    CoverageIsATally(events, name);
  }

  /** Completed are the agents of which some event says that they completed, failed or errored; truncated are the others
      that were heard of. */
  lemma CompletedAre(events: seq<Event>)
    ensures var heard := set e | e in events && e.Resolution? :: e.agentId;
            var ended := set e | e in events && e.Resolution? && e.status in {Completed, Failed, Errored} :: e.agentId;
            ReportOf(events).completed == |ended| && ReportOf(events).truncated == |heard - ended|
  {
    hide Correlations, Tally, Roles, Collect;
    assert Finished(events)
      == set e | e in events && e.Resolution? && e.status in {Completed, Failed, Errored} :: e.agentId;
  }

  predicate Names(e: Event, id: string) {
    (e.Dispatch? || e.Resolution?) && e.toolUseId == Some(id)
  }

  /** Event `i` dispatches the role under this id, and no later event names the id. */
  ghost predicate OpenSince(events: seq<Event>, i: int, role: string, id: string) {
    && 0 <= i < |events| && events[i] == Dispatch(role, Some(id))
    && forall k :: i < k < |events| ==> !Names(events[k], id)
  }

  /** Event `j` acknowledges, as the agent, the dispatch that event `i` made under the id; none between names the id. */
  ghost predicate Answers(events: seq<Event>, i: int, j: int, c: Correlated) {
    && 0 <= j < |events| && OpenSince(events[..j], i, c.role, c.toolUseId) && c.toolUseId != ""
    && events[j].Resolution? && events[j].agentId == c.agentId && events[j].toolUseId == Some(c.toolUseId)
  }

  lemma {:induction false} OpenIff(events: seq<Event>, role: string, id: string)
    ensures OpenDispatch(events, id) == Some(role) <==> exists i :: OpenSince(events, i, role, id)
  {
    if events != [] {
      var init, e := events[..|events| - 1], events[|events| - 1];
      OpenIff(init, role, id);
      if e == Dispatch(role, Some(id)) { assert OpenSince(events, |init|, role, id); }
      if i :| OpenSince(init, i, role, id) && !Names(e, id) { assert OpenSince(events, i, role, id); }
      if i :| OpenSince(events, i, role, id) && i < |init| { assert OpenSince(init, i, role, id) && !Names(e, id); }
    }
  }

  /** The correlated entries are those of the acknowledgements that answer a dispatch. */
  lemma {:induction false} CorrelationsIff(events: seq<Event>, c: Correlated)
    ensures c in Correlations(events) <==> exists i, j :: Answers(events, i, j, c)
  {
    if events != [] {
      hide OpenDispatch, OpenSince;
      var init, e := events[..|events| - 1], events[|events| - 1];
      CorrelationsIff(init, c);
      OpenIff(init, c.role, c.toolUseId);
      if i, j :| Answers(init, i, j, c) {
        assert events[..j] == init[..j] && Answers(events, i, j, c);
      }
      if i :| OpenSince(init, i, c.role, c.toolUseId) && c in Correlations(events) && c !in Correlations(init) {
        assert events[..|init|] == init && Answers(events, i, |init|, c);
      }
      if i, j :| Answers(events, i, j, c) {
        if j < |init| {
          assert events[..j] == init[..j] && Answers(init, i, j, c);
        } else {
          assert events[..j] == init;
        }
      }
    }
  }

  // ----- Coverage across files -----

  predicate Named(events: seq<Event>, id: string) {
    exists i :: 0 <= i < |events| && Names(events[i], id)
  }

  /** The first event that names `id` is an acknowledgement: it answers a dispatch that is not among these events. */
  predicate AnswersEarlier(events: seq<Event>, id: string) {
    events != [] &&
    var init, last := events[..|events| - 1], events[|events| - 1];
    if Named(init, id) then AnswersEarlier(init, id) else last.Resolution? && Names(last, id)
  }

  /** The dispatches of `role` left open by the events `a` that the events `b` then acknowledge. */
  ghost function Across(a: seq<Event>, b: seq<Event>, role: string): set<string> {
    set id | id in Open(a, role) && AnswersEarlier(b, id)
  }

  lemma NamedNext(events: seq<Event>, e: Event, id: string)
    ensures Named(events + [e], id) <==> Named(events, id) || Names(e, id)
    ensures AnswersEarlier(events + [e], id)
       <==> if Named(events, id) then AnswersEarlier(events, id) else e.Resolution? && Names(e, id)
  {
    var all := events + [e];
    assert all[..|events|] == events && all[|events|] == e;
    if Named(events, id) {
      var i :| 0 <= i < |events| && Names(events[i], id);
      assert all[i] == events[i];
    }
  }

  lemma {:induction false} AnsweringNames(events: seq<Event>, id: string)
    ensures AnswersEarlier(events, id) ==> Named(events, id)
    ensures !Named(events, id) ==> OpenDispatch(events, id) == None
  {
    if events != [] {
      var init, last := events[..|events| - 1], events[|events| - 1];
      AnsweringNames(init, id);
      assert events == init + [last];
      NamedNext(init, last, id);
    }
  }

  /** What is open after both files is decided by the second one when it names the id. */
  lemma {:induction false} OpenAcross(a: seq<Event>, b: seq<Event>, id: string)
    ensures OpenDispatch(a + b, id) == if Named(b, id) then OpenDispatch(b, id) else OpenDispatch(a, id)
  {
    if b == [] {
      assert a + b == a;
    } else {
      var init, last := b[..|b| - 1], b[|b| - 1];
      OpenAcross(a, init, id);
      assert b == init + [last] && (a + b)[..|a + b| - 1] == a + init;
      NamedNext(init, last, id);
    }
  }

  lemma AcrossNext(a: seq<Event>, b: seq<Event>, e: Event, role: string)
    ensures Across(a, b + [e], role)
         == Across(a, b, role)
            + if e.Resolution? && Present(e.toolUseId) && !Named(b, e.toolUseId.value)
                 && e.toolUseId.value in Open(a, role) then {e.toolUseId.value} else {}
    ensures e.Resolution? && Present(e.toolUseId) && !Named(b, e.toolUseId.value) ==>
              e.toolUseId.value !in Across(a, b, role)
  {
    hide Named, AnswersEarlier;
    forall id
      ensures Named(b + [e], id) <==> Named(b, id) || Names(e, id)
      ensures AnswersEarlier(b + [e], id)
         <==> if Named(b, id) then AnswersEarlier(b, id) else e.Resolution? && Names(e, id)
      ensures AnswersEarlier(b, id) ==> Named(b, id)
      ensures id in Open(a, role) ==> id != ""
    {
      NamedNext(b, e, id);
      AnsweringNames(b, id);
      OpenIsOpen(a, role, id);
    }
  }

  /** Folded together, two files cover a role once more for each dispatch that the first leaves open and the second
      acknowledges; folded apart and merged, those dispatches stay uncovered. */
  lemma {:induction false} CoverageAcross(a: seq<Event>, b: seq<Event>, role: string)
    ensures Covered(a + b, role) == Covered(a, role) + Covered(b, role) + |Across(a, b, role)|
  {
    hide Covered, Dispatched, OpenDispatch, Across, Named;
    if b == [] {
      assert a + b == a;
      NothingCovered(role);
      NothingAcross(a, role);
    } else {
      var init, e := b[..|b| - 1], b[|b| - 1];
      assert b == init + [e] && a + b == (a + init) + [e];
      CoverageAcross(a, init, role);
      OneMoreEvent(a + init, e, role);
      OneMoreEvent(init, e, role);
      AcrossNext(a, init, e, role);
      if e.Resolution? && Present(e.toolUseId) {
        OpenAcross(a, init, e.toolUseId.value);
        AnsweringNames(init, e.toolUseId.value);
        OpenIsOpen(a, role, e.toolUseId.value);
      }
    }
  }

  lemma NothingAcross(a: seq<Event>, role: string)
    ensures Across(a, [], role) == {}
  {
  }

  /** Merging the reports of two files is folding their events together, except that an agent heard of in both is
      counted in each, and a dispatch acknowledged in the other file is not covered. */
  lemma FilesMergeAsOne(a: seq<Event>, b: seq<Event>)
    ensures var merged, whole := MergeOf(ReportOf(a), ReportOf(b)), ReportOf(a + b);
            && merged.skills == whole.skills && merged.dispatches == whole.dispatches
            && merged.completed + merged.truncated == whole.completed + whole.truncated + |Resolved(a) * Resolved(b)|
            && forall role :: Get(merged.coverage, role) + |Across(a, b, role)| == Get(whole.coverage, role)
  {
    hide ReportOf, MergeOf, Get, Across, Resolved;
    AgentsMergeAsOne(a, b);
    NamesMergeAsOne(a, b);
    forall role
      ensures Get(MergeOf(ReportOf(a), ReportOf(b)).coverage, role) + |Across(a, b, role)|
           == Get(ReportOf(a + b).coverage, role)
    {
      CoverageMergesAsOne(a, b, role);
    }
  }

  lemma CoverageMergesAsOne(a: seq<Event>, b: seq<Event>, role: string)
    ensures Get(MergeOf(ReportOf(a), ReportOf(b)).coverage, role) + |Across(a, b, role)|
         == Get(ReportOf(a + b).coverage, role)
  {
    hide ReportOf, Across, Covered;
    CoverageAcross(a, b, role);
    CoverageIsATally(a, role);
    CoverageIsATally(b, role);
    CoverageIsATally(a + b, role);
  }

  lemma NamesMergeAsOne(a: seq<Event>, b: seq<Event>)
    ensures var merged, whole := MergeOf(ReportOf(a), ReportOf(b)), ReportOf(a + b);
            merged.skills == whole.skills && merged.dispatches == whole.dispatches
  {
    CollectConcat(a, b, SkillName);
    CollectConcat(a, b, DispatchedRole);
    TallyConcat(Collect(a, SkillName), Collect(b, SkillName));
    TallyConcat(Collect(a, DispatchedRole), Collect(b, DispatchedRole));
  }

  lemma AgentsMergeAsOne(a: seq<Event>, b: seq<Event>)
    ensures var merged, whole := MergeOf(ReportOf(a), ReportOf(b)), ReportOf(a + b);
            merged.completed + merged.truncated == whole.completed + whole.truncated + |Resolved(a) * Resolved(b)|
  {
    hide ReportOf;
    EveryAgentCounted(a);
    EveryAgentCounted(b);
    EveryAgentCounted(a + b);
    assert Resolved(a + b) == Resolved(a) + Resolved(b);
  }

  // ----- Merging -----

  lemma MergeIsAMonoid(a: Report, b: Report, c: Report)
    ensures MergeOf(a, b) == MergeOf(b, a)
    ensures MergeOf(MergeOf(a, b), c) == MergeOf(a, MergeOf(b, c))
    ensures MergeOf(a, EmptyReport) == a
  {
    hide Merge;
    CountsMerge(a.skills, b.skills, c.skills);
    CountsMerge(a.dispatches, b.dispatches, c.dispatches);
    CountsMerge(a.coverage, b.coverage, c.coverage);
  }

  lemma SameCounts(x: Counts, y: Counts)
    requires x.Keys == y.Keys && forall k :: Get(x, k) == Get(y, k)
    ensures x == y
  {
    forall k | k in x
      ensures x[k] == y[k]
    {
      assert Get(x, k) == Get(y, k);
    }
  }

  lemma CountsAssociate(x: Counts, y: Counts, z: Counts)
    ensures Merge(Merge(x, y), z) == Merge(x, Merge(y, z))
  {
    SameCounts(Merge(Merge(x, y), z), Merge(x, Merge(y, z)));
  }

  lemma CountsMerge(x: Counts, y: Counts, z: Counts)
    ensures Merge(x, y) == Merge(y, x)
    ensures Merge(Merge(x, y), z) == Merge(x, Merge(y, z))
    ensures Merge(x, map[]) == x
  {
    SameCounts(Merge(x, y), Merge(y, x));
    CountsAssociate(x, y, z);
    SameCounts(Merge(x, map[]), x);
  }

  lemma OneMoreReport(first: Report, s: seq<Report>, x: Report)
    ensures MergeAll(first, s + [x]) == MergeOf(MergeAll(first, s), x)
  {
    assert (s + [x])[..|s|] == s;
  }

  lemma {:induction false} MergeAllConcat(first: Report, a: seq<Report>, b: seq<Report>)
    ensures MergeAll(first, a + b) == MergeAll(MergeAll(first, a), b)
  {
    if b == [] {
      assert a + b == a;
    } else {
      hide MergeOf, MergeAll;
      var init, x := b[..|b| - 1], b[|b| - 1];
      MergeAllConcat(first, a, init);
      OneMoreReport(first, a + init, x);
      OneMoreReport(MergeAll(first, a), init, x);
      assert MergeAll(first, (a + init) + [x]) == MergeAll(MergeAll(first, a), init + [x]);
      ConcatLast(a, b);
    }
  }

  lemma {:induction false} MergeEarlier(first: Report, x: Report, rest: seq<Report>)
    ensures MergeAll(MergeOf(first, x), rest) == MergeOf(MergeAll(first, rest), x)
  {
    if rest != [] {
      var n := |rest| - 1;
      MergeEarlier(first, x, rest[..n]);
      MergeIsAMonoid(MergeAll(first, rest[..n]), x, rest[n]);
      MergeIsAMonoid(x, rest[n], EmptyReport);
      MergeIsAMonoid(MergeAll(first, rest[..n]), rest[n], x);
    }
  }

  /** The merged report does not depend on the order in which the files' reports arrived. */
  lemma {:induction false} MergeAllPermutes(first: Report, a: seq<Report>, b: seq<Report>)
    requires multiset(a) == multiset(b)
    ensures MergeAll(first, a) == MergeAll(first, b)
  {
    if a == [] {
      assert |b| == |multiset(b)| == 0;
    } else {
      var init, x := a[..|a| - 1], a[|a| - 1];
      assert a == init + [x];
      var i := TakeOut(init, x, b);
      var left, right := b[..i], b[i + 1..];
      assert b == left + [x] + right;
      MergeAllPermutes(first, init, left + right);
      MergeAllConcat(first, left + [x], right);
      assert (left + [x])[..|left|] == left;
      MergeEarlier(MergeAll(first, left), x, right);
      MergeAllConcat(first, left, right);
    }
  }
}
