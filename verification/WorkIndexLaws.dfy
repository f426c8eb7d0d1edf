/** What the index promises: backlinks invert the references, nothing is lost, and order does not matter. */
module WorkIndexLaws {
  import opened Prelude
  import opened Sorting
  import opened Text
  import opened WorkIndex

  // ----- What documents are indexed and what they refer to, read off the input -----

  /** Neither the index itself nor a template. */
  ghost predicate IsDocument(d: Doc) {
    d.path.text != "docs/work/INDEX.md" && !exists dir :: d.path.text == dir + "/TEMPLATE.md"
  }

  /** A document with this path is indexed. */
  ghost predicate IsKnown(input: seq<Doc>, p: Path) {
    exists d :: d in input && IsDocument(d) && d.path == p
  }

  ghost predicate Under(p: Path, dir: string) {
    exists rest :: p.text == dir + rest
  }

  ghost predicate InCorpus(p: Path) {
    Under(p, "docs/adr/") || Under(p, "docs/work/tickets/") || Under(p, "docs/work/specs/")
    || Under(p, "docs/work/runs/") || Under(p, "docs/work/handoffs/")
  }

  /** The field of the document names the path, alone or in its list. */
  ghost predicate Refers(d: Doc, f: Field, to: Path) {
    f in d.fields && (d.fields[f] == Single(to) || (d.fields[f].Many? && to in d.fields[f].paths))
  }

  /** How often it does. */
  function Mentions(d: Doc, f: Field, to: Path): nat {
    if f !in d.fields then 0
    else match d.fields[f]
      case Empty => 0
      case Single(p) => if p == to then 1 else 0
      case Many(ps) => multiset(ps)[to]
  }

  lemma IndexedIff(d: Doc)
    ensures Indexed(d) <==> IsDocument(d)
  {
    var s, t := d.path.text, "/TEMPLATE.md";
    if EndsWith(s, t) { assert s == s[..|s| - |t|] + t; }
    if dir :| s == dir + t { assert s[|s| - |t|..] == t; }
  }

  lemma UnderIff(p: Path, dir: string)
    ensures Under(p, dir) <==> dir <= p.text
  {
    if dir <= p.text { assert p.text == dir + p.text[|dir|..]; }
  }

  lemma WorkPathIff(p: Path)
    ensures IsWorkPath(p) <==> InCorpus(p)
  {
    UnderIff(p, "docs/adr/");
    UnderIff(p, "docs/work/tickets/");
    UnderIff(p, "docs/work/specs/");
    UnderIff(p, "docs/work/runs/");
    UnderIff(p, "docs/work/handoffs/");
    hide Under;
    assert SOURCE_DIRS[0] + "/" == "docs/adr/";
    assert SOURCE_DIRS[1] + "/" == "docs/work/tickets/";
    assert SOURCE_DIRS[2] + "/" == "docs/work/specs/";
    assert SOURCE_DIRS[3] + "/" == "docs/work/runs/";
    assert SOURCE_DIRS[4] + "/" == "docs/work/handoffs/";
  }

  lemma TargetsAre(d: Doc, f: Field, to: Path)
    ensures multiset(Targets(d, f))[to] == Mentions(d, f, to)
    ensures to in Targets(d, f) <==> Refers(d, f, to)
  {
  }

  lemma EdgeIff(docs: seq<Doc>, e: Edge)
    ensures e in Edges(docs) <==> exists d :: d in docs && d.path == e.from && Refers(d, e.field, e.to)
  {
    hide Targets, Collect, Refers;
    CollectMember(docs, DocEdges, e);
    forall d
      ensures e in DocEdges(d) <==> d.path == e.from && Refers(d, e.field, e.to)
    {
      EdgeOfDoc(d, e);
    }
    if d :| d in docs && d.path == e.from && Refers(d, e.field, e.to) {
      var i :| 0 <= i < |docs| && docs[i] == d;
      assert e in DocEdges(docs[i]);
    }
  }

  lemma EdgeOfDoc(d: Doc, e: Edge)
    ensures e in DocEdges(d) <==> d.path == e.from && Refers(d, e.field, e.to)
  {
    EveryFieldListed(e.field);
    FieldsCounted(d, REFERENCE_FIELDS, e);
    TargetsAre(d, e.field, e.to);
    hide Targets, Collect, Refers, Mentions;
    assert e in DocEdges(d) <==> multiset(DocEdges(d))[e] > 0;
    assert e.to in Targets(d, e.field) <==> multiset(Targets(d, e.field))[e.to] > 0;
  }

  lemma KnownIff(input: seq<Doc>, collate: Path -> real, p: Path)
    ensures p in Known(BuiltFrom(input, collate).docs) <==> IsKnown(input, p)
  {
    hide BuiltFrom, IsDocument;
    var docs := BuiltFrom(input, collate).docs;
    forall d
      ensures d in docs <==> d in input && IsDocument(d)
    {
      DocsIff(input, collate, d);
    }
  }

  /** The documents of the graph are those of the input other than the index and the templates, as often as they are
      there. */
  lemma DocsIff(input: seq<Doc>, collate: Path -> real, d: Doc)
    ensures var docs := BuiltFrom(input, collate).docs;
            && (d in docs <==> d in input && IsDocument(d))
            && multiset(docs)[d] == if IsDocument(d) then multiset(input)[d] else 0
  {
    IndexedIff(d);
    hide Sort, Collect, Indexed, IsDocument;
    var docs := BuiltFrom(input, collate).docs;
    Preorders(collate);
    SortSorts(Kept(input), ByPath(collate));
    FilterCounts(input, KeepIt, d);
    assert d in docs <==> multiset(docs)[d] > 0;
    assert d in input <==> multiset(input)[d] > 0;
  }

  // ----- Everything is sorted -----

  function FieldName(f: Field): string {
    match f
    case GoverningDocs => "governing_docs" case RelatedTickets => "related_tickets" case RelatedSpecs => "related_specs"
    case RelatedAdrs => "related_adrs" case RelatedRuns => "related_runs" case Supersedes => "supersedes"
    case Affects => "affects" case ParentSpec => "parent_spec"
  }

  lemma RelatedInOrder(a: string, b: string)
    requires a != "" && b != "" && a[0] != b[0]
    ensures CodeLeq("related_" + a, "related_" + b) <==> a[0] < b[0]
  {
    SamePrefix("related_", a, b);
  }

  lemma FieldsInOrder(a: Field, b: Field)
    ensures FieldRank(a) <= FieldRank(b) <==> CodeLeq(FieldName(a), FieldName(b))
  {
    if a == b {
      SamePrefix(FieldName(a), "", "");
      assert FieldName(a) + "" == FieldName(a);
    } else if IsRelated(a) && IsRelated(b) {
      RelatedName(a);
      RelatedName(b);
      RelatedInOrder(Related(a), Related(b));
    } else {
      FirstLetter(a);
      FirstLetter(b);
      hide FieldName;
    }
  }

  predicate IsRelated(f: Field) { f in {RelatedTickets, RelatedSpecs, RelatedAdrs, RelatedRuns} }

  function Related(f: Field): string {
    match f
    case RelatedTickets => "tickets" case RelatedSpecs => "specs" case RelatedAdrs => "adrs" case RelatedRuns => "runs"
    case _ => ""
  }

  lemma RelatedName(f: Field)
    requires IsRelated(f)
    ensures FieldName(f) == "related_" + Related(f)
  {
  }

  lemma FirstLetter(f: Field)
    ensures FieldName(f) != ""
    ensures FieldName(f)[0] == match f
                               case Affects => 'a' case GoverningDocs => 'g' case ParentSpec => 'p'
                               case Supersedes => 's' case _ => 'r'
  {
  }

  /** Documents stand by path, backlinks by source and then by the name of the field, dangling references by source and
      then by target. */
  lemma GraphIsSorted(input: seq<Doc>, collate: Path -> real, to: Path)
    ensures var g := BuiltFrom(input, collate); var links := LinksOf(g, to);
            && (forall i, j :: 0 <= i < j < |g.docs| ==> collate(g.docs[i].path) <= collate(g.docs[j].path))
            && (forall i, j :: 0 <= i < j < |links| ==>
                  collate(links[i].from) < collate(links[j].from)
                  || (collate(links[i].from) == collate(links[j].from)
                      && CodeLeq(FieldName(links[i].field), FieldName(links[j].field))))
            && (forall i, j :: 0 <= i < j < |g.dangling| ==>
                  collate(g.dangling[i].from) < collate(g.dangling[j].from)
                  || (collate(g.dangling[i].from) == collate(g.dangling[j].from)
                      && collate(g.dangling[i].to) <= collate(g.dangling[j].to)))
  {
    hide Collect, Sort, FieldName, FieldRank, CodeLeq, TotalPreorder, Edges, Known;
    var g := BuiltFrom(input, collate);
    Preorders(collate);
    SortSorts(Kept(input), ByPath(collate));
    SortSorts(Collect(Edges(g.docs), LinkTo(Known(g.docs), to)), ByFromField(collate));
    SortSorts(Collect(Edges(g.docs), DanglingEdge(Known(g.docs))), ByFromTo(collate));
    forall a, b { FieldsInOrder(a, b); }
  }

  ghost predicate DistinctPaths(docs: seq<Doc>) {
    forall i, j :: 0 <= i < j < |docs| ==> docs[i].path != docs[j].path
  }

  lemma Preorders(collate: Path -> real)
    ensures TotalPreorder(ByPath(collate)) && TotalPreorder(ByFromField(collate)) && TotalPreorder(ByFromTo(collate))
  {
  }

  lemma {:induction false} KeptMember(input: seq<Doc>, d: Doc)
    ensures d in Kept(input) <==> d in input && Indexed(d)
  {
    hide Indexed;
    if input != [] {
      var init, last := input[..|input| - 1], input[|input| - 1];
      assert input == init + [last];
      KeptMember(init, d);
    }
  }

  lemma KnownAlike(a: seq<Doc>, b: seq<Doc>)
    requires multiset(a) == multiset(b)
    ensures Known(a) == Known(b)
  {
    forall d
      ensures d in a <==> d in b
    {
      InPermutation(a, b, d);
    }
  }

  lemma DocsAreKept(input: seq<Doc>, collate: Path -> real)
    requires DistinctPaths(input)
    ensures var docs := BuiltFrom(input, collate).docs;
            && DistinctPaths(docs) && Known(docs) == Known(Kept(input))
            && forall d :: d in docs <==> d in input && Indexed(d)
  {
    hide Sort, Collect, Kept, Indexed, Known;
    var kept, docs := Kept(input), BuiltFrom(input, collate).docs;
    Preorders(collate);
    SortSorts(kept, ByPath(collate));
    KeptDistinct(input);
    forall d
      ensures d in docs <==> d in input && Indexed(d)
    {
      KeptMember(input, d);
      InPermutation(kept, docs, d);
    }
    KnownAlike(kept, docs);
    PermutedPathsDistinct(kept, docs);
  }

  lemma {:induction false} KeptDistinct(input: seq<Doc>)
    requires DistinctPaths(input)
    ensures DistinctPaths(Kept(input)) && forall d :: d in Kept(input) ==> d in input
  {
    if input != [] {
      hide Indexed, Collect;
      var init, last := input[..|input| - 1], input[|input| - 1];
      KeptDistinct(init);
      assert input == init + [last];
      CollectSnoc(init, last, KeepIt);
      forall d | d in init
        ensures d.path != last.path
      {
        var i :| 0 <= i < |init| && init[i] == d;
        assert input[i] == d;
      }
    } else {
      assert Kept([]) == [];
    }
  }

  lemma PermutedPathsDistinct(a: seq<Doc>, b: seq<Doc>)
    requires DistinctPaths(a) && multiset(a) == multiset(b)
    ensures DistinctPaths(b)
  {
    SameMembers(a, b);
    PermutedDistinct(a, b);
    forall i, j | 0 <= i < j < |b|
      ensures b[i].path != b[j].path
    {
      assert b[i] in Elements(b) && b[j] in Elements(b) && b[i] != b[j];
    }
  }

  // ----- Backlinks invert the references, with multiplicity -----

  lemma LinksCounted(edges: seq<Edge>, known: set<Path>, to: Path, b: Backlink)
    ensures multiset(Collect(edges, LinkTo(known, to)))[b]
         == if to in known && b.from != to then multiset(edges)[Edge(b.from, b.field, to)] else 0
  {
    hide Collect;
    MarkCounts(edges, LinkTo(known, to), Edge(b.from, b.field, to), b, to in known && b.from != to);
  }

  lemma TargetsCounted(from: Path, f: Field, targets: seq<Path>, e: Edge)
    ensures multiset(Collect(targets, EdgeFrom(from, f)))[e]
         == if e.from == from && e.field == f then multiset(targets)[e.to] else 0
  {
    hide Collect;
    MarkCounts(targets, EdgeFrom(from, f), e.to, e, e.from == from && e.field == f);
  }

  lemma {:induction false} FieldsCounted(d: Doc, fields: seq<Field>, e: Edge)
    requires Distinct(fields)
    ensures multiset(Collect(fields, FieldEdges(d)))[e]
         == if e.from == d.path && e.field in fields then multiset(Targets(d, e.field))[e.to] else 0
  {
    if fields != [] {
      var init, f := fields[..|fields| - 1], fields[|fields| - 1];
      assert fields == init + [f];
      FieldsCounted(d, init, e);
      TargetsCounted(d.path, f, Targets(d, f), e);
    }
  }

  lemma EveryFieldListed(f: Field)
    ensures Distinct(REFERENCE_FIELDS) && f in REFERENCE_FIELDS
  {
    assert REFERENCE_FIELDS[match f case GoverningDocs => 0 case RelatedTickets => 1 case RelatedSpecs => 2
      case RelatedAdrs => 3 case RelatedRuns => 4 case Supersedes => 5 case Affects => 6 case ParentSpec => 7] == f;
  }

  lemma {:induction false} EdgesCounted(docs: seq<Doc>, d: Doc, f: Field, to: Path)
    requires DistinctPaths(docs)
    ensures d in docs ==> multiset(Edges(docs))[Edge(d.path, f, to)] == multiset(Targets(d, f))[to]
    ensures (forall x :: x in docs ==> x.path != d.path) ==> multiset(Edges(docs))[Edge(d.path, f, to)] == 0
  {
    if docs != [] {
      var init, last := docs[..|docs| - 1], docs[|docs| - 1];
      assert docs == init + [last];
      EdgesCounted(init, d, f, to);
      EveryFieldListed(f);
      FieldsCounted(last, REFERENCE_FIELDS, Edge(d.path, f, to));
    }
  }

  function LinksOf(g: Graph, to: Path): seq<Backlink> {
    if to in g.backlinks then g.backlinks[to] else []
  }

  lemma LinksAre(docs: seq<Doc>, collate: Path -> real, to: Path)
    ensures multiset(LinksOf(GraphOf(docs, collate), to)) == multiset(Collect(Edges(docs), LinkTo(Known(docs), to)))
  {
    Preorders(collate);
    SortSorts(Collect(Edges(docs), LinkTo(Known(docs), to)), ByFromField(collate));
    if to !in Linked(Edges(docs), Known(docs)) { NotLinkedYet(Edges(docs), Known(docs), to); }
  }

  /** A known document is linked from `d` through `f` exactly as often as that field of `d` names it. */
  lemma BacklinksInvertReferences(input: seq<Doc>, collate: Path -> real, d: Doc, f: Field, to: Path)
    requires DistinctPaths(input) && d in input && IsDocument(d)
    ensures multiset(LinksOf(BuiltFrom(input, collate), to))[Backlink(d.path, f)]
         == if IsKnown(input, to) && to != d.path then Mentions(d, f, to) else 0
  {
    var docs := BuiltFrom(input, collate).docs;
    IndexedIff(d);
    DocsAreKept(input, collate);
    LinksAre(docs, collate, to);
    LinksCounted(Edges(docs), Known(docs), to, Backlink(d.path, f));
    EdgesCounted(docs, d, f, to);
    KnownIff(input, collate, to);
    TargetsAre(d, f, to);
    hide IsDocument, IsKnown, Edges, Known, Targets, Mentions, Collect, Sort;
  }

  /** And every backlink comes from an indexed document. */
  lemma BacklinksComeFromDocs(input: seq<Doc>, collate: Path -> real, to: Path, b: Backlink)
    requires b in LinksOf(BuiltFrom(input, collate), to)
    ensures exists d :: d in input && IsDocument(d) && d.path == b.from && Refers(d, b.field, to)
  {
    hide Edges, Known, Refers, Collect, Sort, IsDocument;
    var docs, e := BuiltFrom(input, collate).docs, Edge(b.from, b.field, to);
    LinksAre(docs, collate, to);
    assert multiset(LinksOf(BuiltFrom(input, collate), to))[b] > 0;
    LinksCounted(Edges(docs), Known(docs), to, b);
    assert multiset(Edges(docs))[e] > 0;
    EdgeIff(docs, e);
    var d :| d in docs && d.path == b.from && Refers(d, b.field, to);
    DocsIff(input, collate, d);
  }

  lemma DanglingCounted(docs: seq<Doc>, collate: Path -> real, e: Edge)
    ensures multiset(GraphOf(docs, collate).dangling)[e]
         == if IsDangling(Known(docs), e) then multiset(Edges(docs))[e] else 0
  {
    hide Edges, Known, Collect, Sort, IsDangling;
    FilterCounts(Edges(docs), DanglingEdge(Known(docs)), e);
    Preorders(collate);
    SortSorts(Collect(Edges(docs), DanglingEdge(Known(docs))), ByFromTo(collate));
  }

  /** A reference into the corpus that finds no document is listed as dangling, as often as it is made. */
  lemma DanglingAre(input: seq<Doc>, collate: Path -> real, d: Doc, f: Field, to: Path)
    requires DistinctPaths(input) && d in input && IsDocument(d)
    ensures multiset(BuiltFrom(input, collate).dangling)[Edge(d.path, f, to)]
         == if to != d.path && !IsKnown(input, to) && InCorpus(to) then Mentions(d, f, to) else 0
  {
    hide IsDocument, IsKnown, Edges, Known, Targets, Mentions, Collect, Sort, InCorpus, IsWorkPath, DistinctPaths,
      GraphOf;
    var docs := BuiltFrom(input, collate).docs;
    DocsOfGraph(input, collate);
    IndexedIff(d);
    DocsAreKept(input, collate);
    EdgesCounted(docs, d, f, to);
    KnownIff(input, collate, to);
    WorkPathIff(to);
    TargetsAre(d, f, to);
    DanglingCounted(docs, collate, Edge(d.path, f, to));
  }

  /** And nothing else is. */
  lemma DanglingComeFromDocs(input: seq<Doc>, collate: Path -> real, e: Edge)
    requires e in BuiltFrom(input, collate).dangling
    ensures exists d :: d in input && IsDocument(d) && d.path == e.from && Refers(d, e.field, e.to)
  {
    hide Edges, Known, Refers, Collect, Sort, IsDocument;
    var docs := BuiltFrom(input, collate).docs;
    Preorders(collate);
    SortSorts(Collect(Edges(docs), DanglingEdge(Known(docs))), ByFromTo(collate));
    InPermutation(BuiltFrom(input, collate).dangling, Collect(Edges(docs), DanglingEdge(Known(docs))), e);
    CollectMember(Edges(docs), DanglingEdge(Known(docs)), e);
    EdgeIff(docs, e);
    var d :| d in docs && d.path == e.from && Refers(d, e.field, e.to);
    DocsIff(input, collate, d);
  }

  // ----- Nothing is lost -----

  function Count(edges: seq<Edge>, p: Edge -> bool): nat {
    if edges == [] then 0 else Count(edges[..|edges| - 1], p) + if p(edges[|edges| - 1]) then 1 else 0
  }

  /** Backlinks of all documents together. */
  function TotalLinks(edges: seq<Edge>, known: set<Path>, docs: seq<Doc>): nat {
    if docs == [] then 0
    else TotalLinks(edges, known, docs[..|docs| - 1]) + |Collect(edges, LinkTo(known, docs[|docs| - 1].path))|
  }

  lemma {:induction false} OneMoreTotal(edges: seq<Edge>, e: Edge, known: set<Path>, docs: seq<Doc>)
    requires DistinctPaths(docs)
    ensures TotalLinks(edges + [e], known, docs)
         == TotalLinks(edges, known, docs) + if IsLinked(known, e) && e.to in Known(docs) then 1 else 0
  {
    if docs != [] {
      var init, d := docs[..|docs| - 1], docs[|docs| - 1];
      assert docs == init + [d];
      OneMoreTotal(edges, e, known, init);
      OneMoreLink(edges, e, known, d.path);
      assert Known(docs) == Known(init) + {d.path};
      assert e.to == d.path ==> e.to !in Known(init);
    }
  }

  lemma {:induction false} NoLinksYet(known: set<Path>, docs: seq<Doc>)
    ensures TotalLinks([], known, docs) == 0
  {
    if docs != [] { NoLinksYet(known, docs[..|docs| - 1]); }
  }

  lemma {:induction false} EdgesPartition(edges: seq<Edge>, docs: seq<Doc>)
    requires DistinctPaths(docs)
    ensures |edges| == Count(edges, IsSelf) + TotalLinks(edges, Known(docs), docs)
                       + |Collect(edges, DanglingEdge(Known(docs)))|
                       + Count(edges, (e: Edge) => IsExternal(Known(docs), e))
  {
    if edges == [] {
      NoLinksYet(Known(docs), docs);
    } else {
      var init, e := edges[..|edges| - 1], edges[|edges| - 1];
      assert edges == init + [e];
      EdgesPartition(init, docs);
      OneMoreTotal(init, e, Known(docs), docs);
    }
  }

  function GraphLinks(g: Graph, docs: seq<Doc>): nat {
    if docs == [] then 0 else GraphLinks(g, docs[..|docs| - 1]) + |LinksOf(g, docs[|docs| - 1].path)|
  }

  lemma {:induction false} GraphLinksAreTotal(all: seq<Doc>, collate: Path -> real, docs: seq<Doc>)
    ensures GraphLinks(GraphOf(all, collate), docs) == TotalLinks(Edges(all), Known(all), docs)
  {
    if docs != [] {
      var to := docs[|docs| - 1].path;
      GraphLinksAreTotal(all, collate, docs[..|docs| - 1]);
      LinksAre(all, collate, to);
      SameMembers(LinksOf(GraphOf(all, collate), to), Collect(Edges(all), LinkTo(Known(all), to)));
    }
  }

  /** Every reference occurrence is a self-reference, one backlink, one dangling entry, or leads outside. */
  lemma ReferencesAreConserved(input: seq<Doc>, collate: Path -> real)
    requires DistinctPaths(input)
    ensures var g := BuiltFrom(input, collate); var edges := Edges(g.docs);
            |edges| == Count(edges, IsSelf) + GraphLinks(g, g.docs) + |g.dangling|
                       + Count(edges, (e: Edge) => IsExternal(Known(g.docs), e))
  {
    var g := BuiltFrom(input, collate);
    DocsAreKept(input, collate);
    EdgesPartition(Edges(g.docs), g.docs);
    GraphLinksAreTotal(g.docs, collate, g.docs);
    Preorders(collate);
    SortSorts(Collect(Edges(g.docs), DanglingEdge(Known(g.docs))), ByFromTo(collate));
    SameMembers(g.dangling, Collect(Edges(g.docs), DanglingEdge(Known(g.docs))));
  }

  lemma OrphanOfEdges(docs: seq<Doc>, collate: Path -> real, p: Path)
    ensures p in GraphOf(docs, collate).orphans
       <==> p in Known(docs) && forall e :: e in Edges(docs) && !IsSelf(e) ==> e.from != p && e.to != p
  {
    hide Edges, Collect, Sort;
    var edges, known := Edges(docs), Known(docs);
    CollectMember(docs, OrphanOf(Outbound(edges), Linked(edges, known)), p);
    assert p in Outbound(edges) <==> exists e :: e in edges && !IsSelf(e) && e.from == p;
    assert p in known ==> (p in Linked(edges, known) <==> exists e :: e in edges && !IsSelf(e) && e.to == p);
    if p in known {
      var d :| d in docs && d.path == p;
      var i :| 0 <= i < |docs| && docs[i] == d;
    }
  }

  /** An orphan is an indexed document with no reference, other than to itself, leaving or reaching it. */
  lemma OrphanIff(input: seq<Doc>, collate: Path -> real, p: Path)
    ensures p in BuiltFrom(input, collate).orphans
       <==> && IsKnown(input, p)
            && forall d, f, to :: d in input && IsDocument(d) && Refers(d, f, to) && to != d.path ==>
                 d.path != p && to != p
  {
    hide IsDocument, IsKnown, Refers, Edges, Known, GraphOf, Sort, Kept;
    var docs := BuiltFrom(input, collate).docs;
    assert docs == Sort(Kept(input), ByPath(collate)) by { DocsOfGraph(input, collate); }
    assert BuiltFrom(input, collate) == GraphOf(docs, collate);
    OrphanOfEdges(docs, collate, p);
    KnownIff(input, collate, p);
    hide BuiltFrom;
    forall d { DocsIff(input, collate, d); }
    forall e { EdgeIff(docs, e); }
    if d, f, to :| d in input && IsDocument(d) && Refers(d, f, to) && to != d.path && (d.path == p || to == p) {
      assert Edge(d.path, f, to) in Edges(docs);
    }
  }

  lemma DocsOfGraph(input: seq<Doc>, collate: Path -> real)
    ensures BuiltFrom(input, collate).docs == Sort(Kept(input), ByPath(collate))
  {
    hide Sort, Kept, Edges, Known;
  }

  // ----- The order of the input -----

  function DropIt(d: Doc): seq<Doc> {
    if Indexed(d) then [] else [d]
  }

  lemma KeptAndDropped(input: seq<Doc>)
    ensures multiset(Kept(input)) + multiset(Collect(input, DropIt)) == multiset(input)
  {
    hide Collect, Indexed;
    forall d: Doc
      ensures (multiset(Kept(input)) + multiset(Collect(input, DropIt)))[d] == multiset(input)[d]
    {
      FilterCounts(input, KeepIt, d);
      FilterCounts(input, DropIt, d);
    }
  }

  lemma {:induction false} KeptAgain(input: seq<Doc>)
    ensures Kept(Collect(input, DropIt)) == []
    ensures forall d :: d in Kept(input) ==> Indexed(d)
  {
    if input != [] {
      var init, last := input[..|input| - 1], input[|input| - 1];
      KeptAgain(init);
      if !Indexed(last) {
        CollectConcat(Collect(init, DropIt), [last], KeepIt);
        CollectOne(last, KeepIt);
      } else {
        assert Collect(init, DropIt) + [] == Collect(init, DropIt);
      }
    }
  }

  /** Every order of the documents that count is met by some order of the input. */
  lemma AnyOrderOfKept(input: seq<Doc>, t: seq<Doc>) returns (other: seq<Doc>)
    requires multiset(t) == multiset(Kept(input))
    ensures multiset(other) == multiset(input) && Kept(other) == t
  {
    var dropped := Collect(input, DropIt);
    other := t + dropped;
    KeptAndDropped(input);
    KeptAgain(input);
    SameMembers(t, Kept(input));
    forall d | d in t
      ensures KeepIt(d) == [d]
    {
      assert d in Elements(t) && d in Elements(Kept(input));
    }
    CollectConcat(t, dropped, KeepIt);
    CollectAll(t, KeepIt);
  }

  /** The same documents in any order give the same graph, exactly when no two of them tie under the collation.
      (Distinct paths may tie: canonically equivalent strings compare equal.) */
  lemma OrderOfInputIff(input: seq<Doc>, collate: Path -> real)
    ensures (forall other :: multiset(other) == multiset(input) ==>
               BuiltFrom(other, collate) == BuiltFrom(input, collate))
       <==> NoTies(Kept(input), ByPath(collate))
  {
    Preorders(collate);
    if NoTies(Kept(input), ByPath(collate)) {
      forall other | multiset(other) == multiset(input)
        ensures BuiltFrom(other, collate) == BuiltFrom(input, collate)
      {
        PermutedInputSameGraph(input, other, collate);
      }
    } else {
      OrderIndependentIff(Kept(input), ByPath(collate));
      var t :| multiset(t) == multiset(Kept(input)) && Sort(t, ByPath(collate)) != Sort(Kept(input), ByPath(collate));
      var other := AnyOrderOfKept(input, t);
      assert BuiltFrom(other, collate).docs != BuiltFrom(input, collate).docs;
    }
  }

  /** In particular permuting the input documents changes nothing when no two kept ones tie. */
  lemma PermutedInputSameGraph(a: seq<Doc>, b: seq<Doc>, collate: Path -> real)
    requires multiset(a) == multiset(b) && NoTies(Kept(a), ByPath(collate))
    ensures BuiltFrom(a, collate) == BuiltFrom(b, collate)
  {
    Preorders(collate);
    CollectPermutes(a, b, KeepIt);
    NoTiesNoOrder(Kept(a), Kept(b), ByPath(collate));
  }

  /** A document without a reference. */
  function Lone(p: Path): Doc { Doc(p, map[]) }

  lemma LoneHasNoEdge(p: Path)
    ensures DocEdges(Lone(p)) == []
  {
    assert forall f :: FieldEdges(Lone(p))(f) == [];
    CollectIsEmpty(REFERENCE_FIELDS, FieldEdges(Lone(p)));
  }

  /** Two documents that tie and refer to nothing are listed in the order in which they were read. */
  lemma TwoLoneDocs(x: Path, y: Path, collate: Path -> real)
    requires Indexed(Lone(x)) && Indexed(Lone(y)) && collate(x) == collate(y)
    ensures var g := BuiltFrom([Lone(x), Lone(y)], collate);
            g.docs == [Lone(x), Lone(y)] && g.orphans == [x, y]
  {
    hide DocEdges, Indexed;
    var docs := [Lone(x), Lone(y)];
    assert docs == [Lone(x)] + [Lone(y)];
    CollectConcat([Lone(x)], [Lone(y)], KeepIt);
    CollectOne(Lone(x), KeepIt);
    CollectOne(Lone(y), KeepIt);
    TiedPairStays(Lone(x), Lone(y), ByPath(collate));
    LoneHasNoEdge(x);
    LoneHasNoEdge(y);
    CollectIsEmpty(docs, DocEdges);
    var orphan := OrphanOf({}, {});
    CollectConcat([Lone(x)], [Lone(y)], orphan);
    CollectOne(Lone(x), orphan);
    CollectOne(Lone(y), orphan);
    assert Outbound([]) == {} && Linked([], Known(docs)) == {};
  }

  /** The smallest case in which the order of the input shows: any two distinct paths that tie. */
  lemma TiesShowInGraph(x: Path, y: Path, collate: Path -> real)
    requires x != y && Indexed(Lone(x)) && Indexed(Lone(y)) && collate(x) == collate(y)
    ensures multiset([Lone(x), Lone(y)]) == multiset([Lone(y), Lone(x)])
    ensures BuiltFrom([Lone(x), Lone(y)], collate).orphans != BuiltFrom([Lone(y), Lone(x)], collate).orphans
  {
    hide BuiltFrom, Indexed;
    TwoLoneDocs(x, y, collate);
    TwoLoneDocs(y, x, collate);
    assert [x, y][0] != [y, x][0];
  }
}
