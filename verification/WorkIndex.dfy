/** The graph of work documents: forward references inverted into backlinks, with everything sorted so that
    the same documents give the same index. */
module WorkIndex {
  import opened Prelude
  import opened Sorting

  datatype Field =
    | GoverningDocs | RelatedTickets | RelatedSpecs | RelatedAdrs | RelatedRuns | Supersedes | Affects | ParentSpec

  const REFERENCE_FIELDS :=
    [GoverningDocs, RelatedTickets, RelatedSpecs, RelatedAdrs, RelatedRuns, Supersedes, Affects, ParentSpec]

  /** Where the names of the fields stand in the alphabet. */
  function FieldRank(f: Field): int {
    match f
    case Affects => 0 case GoverningDocs => 1 case ParentSpec => 2 case RelatedAdrs => 3
    case RelatedRuns => 4 case RelatedSpecs => 5 case RelatedTickets => 6 case Supersedes => 7
  }

  datatype Path = Path(text: string)

  /** The value of a frontmatter field; `Empty` is also null and the empty string. */
  datatype Value = Empty | Single(path: Path) | Many(paths: seq<Path>)

  datatype Doc = Doc(path: Path, fields: map<Field, Value>)

  datatype Edge = Edge(from: Path, field: Field, to: Path)

  datatype Backlink = Backlink(from: Path, field: Field)

  function AsList(v: Value): seq<Path> {
    match v case Empty => [] case Single(p) => [p] case Many(ps) => ps
  }

  function Targets(d: Doc, f: Field): seq<Path> {
    if f in d.fields then AsList(d.fields[f]) else []
  }

  predicate EndsWith(s: string, suffix: string) {
    |suffix| <= |s| && s[|s| - |suffix|..] == suffix
  }

  const INDEX := "docs/work/INDEX.md"

  const SOURCE_DIRS :=
    ["docs/adr", "docs/work/tickets", "docs/work/specs", "docs/work/runs", "docs/work/handoffs"]

  predicate Indexed(d: Doc) {
    d.path.text != INDEX && !EndsWith(d.path.text, "/TEMPLATE.md")
  }

  predicate IsWorkPath(p: Path) {
    exists i :: 0 <= i < |SOURCE_DIRS| && SOURCE_DIRS[i] + "/" <= p.text
  }

  // ----- Every reference, in the order in which the documents are walked -----

  function EdgeFrom(from: Path, f: Field): Path -> seq<Edge> {
    (to: Path) => [Edge(from, f, to)]
  }

  function FieldEdges(d: Doc): Field -> seq<Edge> {
    (f: Field) => Collect(Targets(d, f), EdgeFrom(d.path, f))
  }

  function DocEdges(d: Doc): seq<Edge> {
    Collect(REFERENCE_FIELDS, FieldEdges(d))
  }

  function Edges(docs: seq<Doc>): seq<Edge> {
    Collect(docs, DocEdges)
  }

  function Known(docs: seq<Doc>): set<Path> {
    set d | d in docs :: d.path
  }

  predicate IsSelf(e: Edge) { e.to == e.from }

  predicate IsLinked(known: set<Path>, e: Edge) { !IsSelf(e) && e.to in known }

  predicate IsDangling(known: set<Path>, e: Edge) { !IsSelf(e) && e.to !in known && IsWorkPath(e.to) }

  predicate IsExternal(known: set<Path>, e: Edge) { !IsSelf(e) && e.to !in known && !IsWorkPath(e.to) }

  function LinkTo(known: set<Path>, to: Path): Edge -> seq<Backlink> {
    (e: Edge) => if IsLinked(known, e) && e.to == to then [Backlink(e.from, e.field)] else []
  }

  function DanglingEdge(known: set<Path>): Edge -> seq<Edge> {
    (e: Edge) => if IsDangling(known, e) then [e] else []
  }

  function Linked(edges: seq<Edge>, known: set<Path>): set<Path> {
    set e | e in edges && IsLinked(known, e) :: e.to
  }

  function Outbound(edges: seq<Edge>): set<Path> {
    set e | e in edges && !IsSelf(e) :: e.from
  }

  // ----- The graph -----

  function ByPath(collate: Path -> real): (Doc, Doc) -> bool {
    (a: Doc, b: Doc) => collate(a.path) <= collate(b.path)
  }

  function ByFromField(collate: Path -> real): (Backlink, Backlink) -> bool {
    (a: Backlink, b: Backlink) =>
      collate(a.from) < collate(b.from)
        || (collate(a.from) == collate(b.from) && FieldRank(a.field) <= FieldRank(b.field))
  }

  function ByFromTo(collate: Path -> real): (Edge, Edge) -> bool {
    (a: Edge, b: Edge) =>
      collate(a.from) < collate(b.from) || (collate(a.from) == collate(b.from) && collate(a.to) <= collate(b.to))
  }

  datatype Graph = Graph(docs: seq<Doc>, backlinks: map<Path, seq<Backlink>>, dangling: seq<Edge>, orphans: seq<Path>)

  function KeepIt(d: Doc): seq<Doc> {
    if Indexed(d) then [d] else []
  }

  function Kept(input: seq<Doc>): seq<Doc> {
    Collect(input, KeepIt)
  }

  function OrphanOf(hasOutbound: set<Path>, linked: set<Path>): Doc -> seq<Path> {
    (d: Doc) => if d.path !in hasOutbound && d.path !in linked then [d.path] else []
  }

  function GraphOf(docs: seq<Doc>, collate: Path -> real): Graph {
    var edges, known := Edges(docs), Known(docs);
    Graph(docs,
          map to | to in Linked(edges, known) :: Sort(Collect(edges, LinkTo(known, to)), ByFromField(collate)),
          Sort(Collect(edges, DanglingEdge(known)), ByFromTo(collate)),
          Collect(docs, OrphanOf(Outbound(edges), Linked(edges, known))))
  }

  function BuiltFrom(input: seq<Doc>, collate: Path -> real): Graph {
    GraphOf(Sort(Kept(input), ByPath(collate)), collate)
  }

  // ----- The loops -----

  ghost predicate Links(seen: seq<Edge>, known: set<Path>, backlinks: map<Path, seq<Backlink>>) {
    && backlinks.Keys == Linked(seen, known)
    && (forall to :: to in backlinks ==> backlinks[to] == Collect(seen, LinkTo(known, to)))
  }

  lemma {:induction false} NotLinkedYet(seen: seq<Edge>, known: set<Path>, to: Path)
    requires to !in Linked(seen, known)
    ensures Collect(seen, LinkTo(known, to)) == []
  {
    if seen != [] {
      var init, e := seen[..|seen| - 1], seen[|seen| - 1];
      assert seen == init + [e];
      assert e in seen && forall x :: x in init ==> x in seen;
      NotLinkedYet(init, known, to);
    }
  }

  lemma OneMoreEdge(seen: seq<Edge>, e: Edge, known: set<Path>)
    ensures Collect(seen + [e], DanglingEdge(known))
         == if IsDangling(known, e) then Collect(seen, DanglingEdge(known)) + [e]
           else Collect(seen, DanglingEdge(known))
    ensures Linked(seen + [e], known) == Linked(seen, known) + if IsLinked(known, e) then {e.to} else {}
    ensures Outbound(seen + [e]) == Outbound(seen) + if IsSelf(e) then {} else {e.from}
  {
    assert (seen + [e])[..|seen|] == seen;
    assert forall x :: x in seen + [e] <==> x in seen || x == e;
  }

  lemma OneMoreLink(seen: seq<Edge>, e: Edge, known: set<Path>, to: Path)
    ensures Collect(seen + [e], LinkTo(known, to))
         == if IsLinked(known, e) && e.to == to then Collect(seen, LinkTo(known, to)) + [Backlink(e.from, e.field)]
            else Collect(seen, LinkTo(known, to))
  {
    assert (seen + [e])[..|seen|] == seen;
  }

  lemma NoLink(seen: seq<Edge>, e: Edge, known: set<Path>, backlinks: map<Path, seq<Backlink>>)
    requires Links(seen, known, backlinks) && !IsLinked(known, e)
    ensures Links(seen + [e], known, backlinks)
  {
    OneMoreEdge(seen, e, known);
    forall to | to in backlinks
      ensures backlinks[to] == Collect(seen + [e], LinkTo(known, to))
    {
      OneMoreLink(seen, e, known, to);
    }
  }

  /** A backlink pushed onto the list of its target, which is created when there is none. */
  function WithLink(backlinks: map<Path, seq<Backlink>>, e: Edge): map<Path, seq<Backlink>> {
    backlinks[e.to := (if e.to in backlinks then backlinks[e.to] else []) + [Backlink(e.from, e.field)]]
  }

  lemma NewLinkAt(seen: seq<Edge>, e: Edge, known: set<Path>, backlinks: map<Path, seq<Backlink>>, to: Path)
    requires Links(seen, known, backlinks) && IsLinked(known, e) && to in WithLink(backlinks, e)
    ensures WithLink(backlinks, e)[to] == Collect(seen + [e], LinkTo(known, to))
  {
    OneMoreLink(seen, e, known, to);
    if to !in backlinks { NotLinkedYet(seen, known, to); }
  }

  lemma NewLink(seen: seq<Edge>, e: Edge, known: set<Path>, backlinks: map<Path, seq<Backlink>>)
    requires Links(seen, known, backlinks) && IsLinked(known, e)
    ensures Links(seen + [e], known, WithLink(backlinks, e))
  {
    forall to | to in WithLink(backlinks, e)
      ensures WithLink(backlinks, e)[to] == Collect(seen + [e], LinkTo(known, to))
    {
      NewLinkAt(seen, e, known, backlinks, to);
    }
    OneMoreEdge(seen, e, known);
    assert WithLink(backlinks, e).Keys == backlinks.Keys + {e.to};
  }

  /** What the walk has collected. */
  datatype Walked = Walked(backlinks: map<Path, seq<Backlink>>, dangling: seq<Edge>, hasOutbound: set<Path>)

  function WithEdge(w: Walked, e: Edge, known: set<Path>): Walked {
    if IsSelf(e) then w
    else if e.to in known then w.(hasOutbound := w.hasOutbound + {e.from}, backlinks := WithLink(w.backlinks, e))
    else w.(hasOutbound := w.hasOutbound + {e.from},
            dangling := if IsWorkPath(e.to) then w.dangling + [e] else w.dangling)
  }

  function WithEdges(w: Walked, edges: seq<Edge>, known: set<Path>): Walked {
    if edges == [] then w else WithEdge(WithEdges(w, edges[..|edges| - 1], known), edges[|edges| - 1], known)
  }

  lemma {:induction false} WithEdgesConcat(w: Walked, a: seq<Edge>, b: seq<Edge>, known: set<Path>)
    ensures WithEdges(w, a + b, known) == WithEdges(WithEdges(w, a, known), b, known)
  {
    if b == [] {
      assert a + b == a;
    } else {
      var n := |b| - 1;
      WithEdgesConcat(w, a, b[..n], known);
      assert (a + b)[..|a + b| - 1] == a + b[..n];
    }
  }

  /** After the edges in `seen`, the tables hold exactly the links, the dangling edges and the sources in them. */
  lemma {:induction false} WalkCollects(seen: seq<Edge>, known: set<Path>)
    ensures var w := WithEdges(Walked(map[], [], {}), seen, known);
            Links(seen, known, w.backlinks) && w.dangling == Collect(seen, DanglingEdge(known))
            && w.hasOutbound == Outbound(seen)
  {
    if seen != [] {
      var init, e := seen[..|seen| - 1], seen[|seen| - 1];
      assert seen == init + [e];
      WalkCollects(init, known);
      OneMoreEdge(init, e, known);
      var w := WithEdges(Walked(map[], [], {}), init, known);
      if IsLinked(known, e) { NewLink(init, e, known, w.backlinks); } else { NoLink(init, e, known, w.backlinks); }
    }
  }

  /** One reference. */
  method AddEdge(w0: Walked, e: Edge, known: set<Path>) returns (w: Walked)
    ensures w == WithEdge(w0, e, known)
  {
    w := w0;
    if e.to == e.from { return; }
    w := w.(hasOutbound := w.hasOutbound + {e.from});
    if e.to !in known {
      if IsWorkPath(e.to) { w := w.(dangling := w.dangling + [e]); }
      return;
    }
    if e.to !in w.backlinks { w := w.(backlinks := w.backlinks[e.to := []]); }
    w := w.(backlinks := w.backlinks[e.to := w.backlinks[e.to] + [Backlink(e.from, e.field)]]);
  }

  /** The references of one field, in the order of its list. */
  method AddField(w0: Walked, d: Doc, field: Field, known: set<Path>) returns (w: Walked)
    ensures w == WithEdges(w0, FieldEdges(d)(field), known)
  {
    w := w0;
    var targets := Targets(d, field);
    for j := 0 to |targets|
      invariant w == WithEdges(w0, Collect(targets[..j], EdgeFrom(d.path, field)), known)
    {
      var e := Edge(d.path, field, targets[j]);
      ghost var before := Collect(targets[..j], EdgeFrom(d.path, field));
      w := AddEdge(w, e, known);
      CollectNext(targets, j, EdgeFrom(d.path, field));
      assert (before + [e])[..|before|] == before;
    }
    assert targets[..|targets|] == targets;
  }

  /** The references of one document: its fields in their fixed order. */
  method AddDoc(w0: Walked, d: Doc, known: set<Path>) returns (w: Walked)
    ensures w == WithEdges(w0, DocEdges(d), known)
  {
    w := w0;
    for i := 0 to |REFERENCE_FIELDS|
      invariant w == WithEdges(w0, Collect(REFERENCE_FIELDS[..i], FieldEdges(d)), known)
    {
      w := AddField(w, d, REFERENCE_FIELDS[i], known);
      CollectNext(REFERENCE_FIELDS, i, FieldEdges(d));
      WithEdgesConcat(w0, Collect(REFERENCE_FIELDS[..i], FieldEdges(d)), FieldEdges(d)(REFERENCE_FIELDS[i]), known);
    }
    assert REFERENCE_FIELDS[..|REFERENCE_FIELDS|] == REFERENCE_FIELDS;
  }

  method Walk(docs: seq<Doc>) returns (w: Walked)
    ensures w == WithEdges(Walked(map[], [], {}), Edges(docs), Known(docs))
  {
    var known := Known(docs);
    w := Walked(map[], [], {});
    for i := 0 to |docs|
      invariant w == WithEdges(Walked(map[], [], {}), Edges(docs[..i]), known)
    {
      w := AddDoc(w, docs[i], known);
      CollectNext(docs, i, DocEdges);
      WithEdgesConcat(Walked(map[], [], {}), Edges(docs[..i]), DocEdges(docs[i]), known);
    }
    assert docs[..|docs|] == docs;
  }

  method FindOrphans(docs: seq<Doc>, hasOutbound: set<Path>, linked: set<Path>) returns (orphans: seq<Path>)
    ensures orphans == Collect(docs, OrphanOf(hasOutbound, linked))
  {
    orphans := [];
    for i := 0 to |docs|
      invariant orphans == Collect(docs[..i], OrphanOf(hasOutbound, linked))
    {
      CollectNext(docs, i, OrphanOf(hasOutbound, linked));
      if docs[i].path !in hasOutbound && docs[i].path !in linked { orphans := orphans + [docs[i].path]; }
    }
    assert docs[..|docs|] == docs;
  }

  function SortedLinks(backlinks: map<Path, seq<Backlink>>, collate: Path -> real): map<Path, seq<Backlink>> {
    map to | to in backlinks :: Sort(backlinks[to], ByFromField(collate))
  }

  method BuildGraph(input: seq<Doc>, collate: Path -> real) returns (g: Graph)
    ensures g == BuiltFrom(input, collate)
  {
    var docs := Sort(Kept(input), ByPath(collate));
    var w := Walk(docs);
    WalkCollects(Edges(docs), Known(docs));
    var orphans := FindOrphans(docs, w.hasOutbound, w.backlinks.Keys);
    SortedLinksAre(docs, w.backlinks, collate);
    g := Graph(docs, SortedLinks(w.backlinks, collate), Sort(w.dangling, ByFromTo(collate)), orphans);
  }

  lemma SortedLinksAre(docs: seq<Doc>, backlinks: map<Path, seq<Backlink>>, collate: Path -> real)
    requires Links(Edges(docs), Known(docs), backlinks)
    ensures SortedLinks(backlinks, collate) == GraphOf(docs, collate).backlinks
  {
    hide Collect, Sort, LinkTo, ByFromField, ByFromTo, DanglingEdge, OrphanOf, Edges, Known, Linked, Outbound;
  }
}
