/** The sections of the rendered index: open tickets grouped by class, decisions, runs newest first. */
module IndexRender {
  import opened Prelude
  import opened Sorting
  import opened Text
  import opened WorkIndex
  import WorkIndexLaws

  /** What the renderer reads off a document besides its path; "" is a missing or empty field. */
  datatype View = View(
    documentType: Doc -> string, status: Doc -> string, taskClass: Doc -> string, date: Doc -> string)

  datatype Row = Row(doc: Doc, cameFrom: seq<Backlink>)

  datatype Group = Group(cls: string, rows: seq<Row>)

  datatype Index = Index(openWork: seq<Group>, decisions: seq<Row>, runs: seq<Doc>, orphans: seq<Path>,
                         dangling: seq<Edge>)

  // ----- The order of code units, in which class names are sorted -----

  function ByCode(): (string, string) -> bool { (a: string, b: string) => CodeLeq(a, b) }

  lemma {:induction false} CodeTotal(a: string, b: string)
    ensures CodeLeq(a, b) || CodeLeq(b, a)
    ensures CodeLeq(a, b) && CodeLeq(b, a) ==> a == b
  {
    if a != "" && b != "" {
      CodeTotal(a[1..], b[1..]);
      assert a == [a[0]] + a[1..] && b == [b[0]] + b[1..];
    }
  }

  lemma {:induction false} CodeTransitive(a: string, b: string, c: string)
    ensures CodeLeq(a, b) && CodeLeq(b, c) ==> CodeLeq(a, c)
  {
    if a != "" && b != "" && c != "" { CodeTransitive(a[1..], b[1..], c[1..]); }
  }

  /** Different class names never tie. */
  lemma CodeIsTotal(s: seq<string>)
    ensures TotalPreorder(ByCode()) && NoTies(s, ByCode())
  {
    forall a, b
      ensures ByCode()(a, b) || ByCode()(b, a)
      ensures ByCode()(a, b) && ByCode()(b, a) ==> a == b
    {
      CodeTotal(a, b);
    }
    forall a, b, c | ByCode()(a, b) && ByCode()(b, c)
      ensures ByCode()(a, c)
    {
      CodeTransitive(a, b, c);
    }
  }

  // ----- What the sections hold -----

  predicate IsOpen(v: View, d: Doc) {
    v.documentType(d) == "ticket" && (v.status(d) == "open" || v.status(d) == "in-progress")
  }

  function OpenDoc(v: View): Doc -> seq<Doc> { (d: Doc) => if IsOpen(v, d) then [d] else [] }

  function OfType(v: View, documentType: string): Doc -> seq<Doc> {
    (d: Doc) => if v.documentType(d) == documentType then [d] else []
  }

  function ClassOf(v: View, d: Doc): string {
    if v.taskClass(d) == "" then "unclassified" else v.taskClass(d)
  }

  function ClassIn(v: View): Doc -> seq<string> { (d: Doc) => [ClassOf(v, d)] }

  function InClass(v: View, cls: string): Doc -> seq<Doc> { (d: Doc) => if ClassOf(v, d) == cls then [d] else [] }

  function RowOf(backlinks: map<Path, seq<Backlink>>): Doc -> seq<Row> {
    (d: Doc) => [Row(d, if d.path in backlinks then backlinks[d.path] else [])]
  }

  function Rows(docs: seq<Doc>, backlinks: map<Path, seq<Backlink>>): seq<Row> { Collect(docs, RowOf(backlinks)) }

  function GroupOf(v: View, open: seq<Doc>, backlinks: map<Path, seq<Backlink>>): string -> seq<Group> {
    (cls: string) => [Group(cls, Rows(Collect(open, InClass(v, cls)), backlinks))]
  }

  function Classes(v: View, open: seq<Doc>): seq<string> {
    Sort(Dedup(Collect(open, ClassIn(v))), ByCode())
  }

  /** Newest first. */
  function ByDate(v: View, collate: string -> real): (Doc, Doc) -> bool {
    (a: Doc, b: Doc) => collate(v.date(b)) <= collate(v.date(a))
  }

  function IndexOf(v: View, g: Graph, collate: string -> real): Index {
    var open := Collect(g.docs, OpenDoc(v));
    Index(Collect(Classes(v, open), GroupOf(v, open, g.backlinks)),
          Rows(Collect(g.docs, OfType(v, "adr")), g.backlinks),
          Sort(Collect(g.docs, OfType(v, "run")), ByDate(v, collate)), g.orphans, g.dangling)
  }

  // ----- The loops -----

  /** The map of the source and its keys in insertion order. */
  ghost predicate Grouped(v: View, seen: seq<Doc>, byClass: map<string, seq<Doc>>, order: seq<string>) {
    && order == Dedup(Collect(seen, ClassIn(v)))
    && (forall cls :: cls in byClass <==> cls in order)
    && forall cls :: cls in byClass ==> byClass[cls] == Collect(seen, InClass(v, cls))
  }

  lemma NotSeenYet(v: View, seen: seq<Doc>, cls: string)
    requires cls !in Collect(seen, ClassIn(v))
    ensures Collect(seen, InClass(v, cls)) == []
  {
    if Collect(seen, InClass(v, cls)) != [] {
      var d := Collect(seen, InClass(v, cls))[0];
      CollectMember(seen, InClass(v, cls), d);
      CollectMember(seen, ClassIn(v), cls);
    }
  }

  lemma InClassNext(v: View, seen: seq<Doc>, d: Doc, cls: string)
    ensures Collect(seen + [d], InClass(v, cls))
         == Collect(seen, InClass(v, cls)) + if cls == ClassOf(v, d) then [d] else []
  {
    CollectConcat(seen, [d], InClass(v, cls));
    CollectOne(d, InClass(v, cls));
  }

  lemma ClassesNext(v: View, seen: seq<Doc>, d: Doc)
    ensures var before, cls := Collect(seen, ClassIn(v)), ClassOf(v, d);
            Dedup(Collect(seen + [d], ClassIn(v)))
            == if cls in Dedup(before) then Dedup(before) else Dedup(before) + [cls]
    ensures ClassOf(v, d) !in Dedup(Collect(seen, ClassIn(v))) ==> Collect(seen, InClass(v, ClassOf(v, d))) == []
  {
    hide Dedup;
    var before, cls := Collect(seen, ClassIn(v)), ClassOf(v, d);
    CollectConcat(seen, [d], ClassIn(v));
    CollectOne(d, ClassIn(v));
    DedupNext(before, cls);
    DedupIsDistinct(before);
    if cls !in before { NotSeenYet(v, seen, cls); }
  }

  function Filed(byClass: map<string, seq<Doc>>, cls: string, d: Doc): map<string, seq<Doc>> {
    byClass[cls := (if cls in byClass then byClass[cls] else []) + [d]]
  }

  lemma GroupNext(v: View, seen: seq<Doc>, d: Doc, byClass: map<string, seq<Doc>>, order: seq<string>)
    requires Grouped(v, seen, byClass, order)
    ensures var cls := ClassOf(v, d);
            Grouped(v, seen + [d], Filed(byClass, cls, d), if cls in byClass then order else order + [cls])
  {
    hide Dedup, Collect, InClass, ClassIn, ClassOf;
    var cls := ClassOf(v, d);
    ClassesNext(v, seen, d);
    forall c
      ensures Collect(seen + [d], InClass(v, c)) == Collect(seen, InClass(v, c)) + if c == cls then [d] else []
    {
      InClassNext(v, seen, d, c);
    }
  }

  lemma NothingGrouped(v: View)
    ensures Grouped(v, [], map[], [])
  {
  }

  method GroupByClass(v: View, open: seq<Doc>) returns (byClass: map<string, seq<Doc>>, order: seq<string>)
    ensures Grouped(v, open, byClass, order)
  {
    hide Grouped, ClassOf;
    NothingGrouped(v);
    byClass, order := map[], [];
    for i := 0 to |open|
      invariant Grouped(v, open[..i], byClass, order)
    {
      var d := open[i];
      var cls := ClassOf(v, d);
      GroupNext(v, open[..i], d, byClass, order);
      assert open[..i + 1] == open[..i] + [d];
      ghost var filed := Filed(byClass, cls, d);
      if cls !in byClass {
        byClass := byClass[cls := []];
        order := order + [cls];
      }
      byClass := byClass[cls := byClass[cls] + [d]];
      assert byClass == filed;
    }
    assert open[..|open|] == open;
  }

  method RenderOpen(v: View, open: seq<Doc>, backlinks: map<Path, seq<Backlink>>) returns (groups: seq<Group>)
    ensures groups == Collect(Classes(v, open), GroupOf(v, open, backlinks))
  {
    hide Sort, ByCode, Dedup, Rows, InClass, ClassOf, CodeLeq;
    var byClass, order := GroupByClass(v, open);
    var classes := Sort(order, ByCode());
    groups := [];
    for i := 0 to |classes|
      invariant groups == Collect(classes[..i], GroupOf(v, open, backlinks))
    {
      ClassIsListed(order, classes[i]);
      CollectNext(classes, i, GroupOf(v, open, backlinks));
      groups := groups + [Group(classes[i], Rows(byClass[classes[i]], backlinks))];
    }
    assert classes[..|classes|] == classes;
  }

  lemma ClassIsListed(order: seq<string>, cls: string)
    ensures cls in Sort(order, ByCode()) <==> cls in order
  {
    CodeIsTotal(order);
    SortSorts(order, ByCode());
    SameMembers(order, Sort(order, ByCode()));
    assert cls in Elements(order) <==> cls in Elements(Sort(order, ByCode()));
  }

  method RenderIndex(v: View, g: Graph, collate: string -> real) returns (index: Index)
    ensures index == IndexOf(v, g, collate)
  {
    var open := Collect(g.docs, OpenDoc(v));
    var openWork := RenderOpen(v, open, g.backlinks);
    var decisions := Rows(Collect(g.docs, OfType(v, "adr")), g.backlinks);
    var runs := Sort(Collect(g.docs, OfType(v, "run")), ByDate(v, collate));
    index := Index(openWork, decisions, runs, g.orphans, g.dangling);
  }

  // ----- What the rendered index promises -----

  lemma ClassesAre(v: View, open: seq<Doc>, cls: string)
    ensures Distinct(Classes(v, open)) && Sorted(Classes(v, open), ByCode())
    ensures cls in Classes(v, open) <==> exists i :: 0 <= i < |open| && ClassOf(v, open[i]) == cls
  {
    var names := Collect(open, ClassIn(v));
    CodeIsTotal(names);
    SortSorts(Dedup(names), ByCode());
    DedupIsDistinct(names);
    ClassIsListed(Dedup(names), cls);
    CollectMember(open, ClassIn(v), cls);
    PermutedDistinct(Dedup(names), Sort(Dedup(names), ByCode()));
  }

  function RowsIn(g: Group): seq<Row> { g.rows }

  lemma {:induction false} GroupRows(v: View, open: seq<Doc>, backlinks: map<Path, seq<Backlink>>,
                                     classes: seq<string>, r: Row)
    requires Distinct(classes)
    ensures multiset(Collect(Collect(classes, GroupOf(v, open, backlinks)), RowsIn))[r]
         == if ClassOf(v, r.doc) in classes then multiset(Rows(open, backlinks))[r] else 0
  {
    if classes != [] {
      var init, cls := classes[..|classes| - 1], classes[|classes| - 1];
      assert classes == init + [cls];
      GroupRows(v, open, backlinks, init, r);
      var groups, last := Collect(init, GroupOf(v, open, backlinks)), GroupOf(v, open, backlinks)(cls)[0];
      CollectConcat(groups, [last], RowsIn);
      CollectOne(last, RowsIn);
      RowsOfClass(v, open, backlinks, cls, r);
    }
  }

  lemma RowsOfClass(v: View, open: seq<Doc>, backlinks: map<Path, seq<Backlink>>, cls: string, r: Row)
    ensures multiset(Rows(Collect(open, InClass(v, cls)), backlinks))[r]
         == if ClassOf(v, r.doc) == cls then multiset(Rows(open, backlinks))[r] else 0
  {
    hide Collect, ClassOf;
    var same := r == RowOf(backlinks)(r.doc)[0];
    MarkCounts(open, RowOf(backlinks), r.doc, r, same);
    MarkCounts(Collect(open, InClass(v, cls)), RowOf(backlinks), r.doc, r, same);
    FilterCounts(open, InClass(v, cls), r.doc);
  }

  lemma OneRowCounted(v: View, open: seq<Doc>, backlinks: map<Path, seq<Backlink>>, r: Row)
    ensures multiset(Collect(Collect(Classes(v, open), GroupOf(v, open, backlinks)), RowsIn))[r]
         == multiset(Rows(open, backlinks))[r]
  {
    hide Classes, GroupOf, ClassOf;
    ClassesAre(v, open, ClassOf(v, r.doc));
    GroupRows(v, open, backlinks, Classes(v, open), r);
    CollectMember(open, RowOf(backlinks), r);
  }

  /** The row of an open ticket in the group of its class, read off the document. */
  function OpenRow(v: View, backlinks: map<Path, seq<Backlink>>, cls: string): Doc -> seq<Row> {
    (d: Doc) =>
      if v.documentType(d) == "ticket" && v.status(d) in {"open", "in-progress"}
         && cls == (if v.taskClass(d) == "" then "unclassified" else v.taskClass(d))
      then [Row(d, if d.path in backlinks then backlinks[d.path] else [])] else []
  }

  /** The rows of one type of document. */
  function RowOfType(v: View, backlinks: map<Path, seq<Backlink>>, documentType: string): Doc -> seq<Row> {
    (d: Doc) =>
      if v.documentType(d) == documentType
      then [Row(d, if d.path in backlinks then backlinks[d.path] else [])] else []
  }

  lemma GroupRowsAre(v: View, docs: seq<Doc>, backlinks: map<Path, seq<Backlink>>, cls: string)
    ensures Rows(Collect(Collect(docs, OpenDoc(v)), InClass(v, cls)), backlinks)
         == Collect(docs, OpenRow(v, backlinks, cls))
  {
    var open := Collect(docs, OpenDoc(v));
    var row := (d: Doc) => Collect(InClass(v, cls)(d), RowOf(backlinks));
    hide Collect;
    CollectTwice(open, InClass(v, cls), RowOf(backlinks), row);
    forall d
      ensures OpenRow(v, backlinks, cls)(d) == Collect(OpenDoc(v)(d), row)
    {
      OpenRowIs(v, backlinks, cls, d, row);
    }
    CollectTwice(docs, OpenDoc(v), row, OpenRow(v, backlinks, cls));
  }

  lemma OpenRowIs(v: View, backlinks: map<Path, seq<Backlink>>, cls: string, d: Doc, row: Doc -> seq<Row>)
    requires row(d) == Collect(InClass(v, cls)(d), RowOf(backlinks))
    ensures OpenRow(v, backlinks, cls)(d) == Collect(OpenDoc(v)(d), row)
  {
    CollectOne(d, RowOf(backlinks));
    CollectOne(d, row);
  }

  /** Some open ticket has this class. */
  ghost predicate HasOpenTicket(v: View, docs: seq<Doc>, cls: string) {
    exists d :: d in docs && v.documentType(d) == "ticket" && v.status(d) in {"open", "in-progress"}
                && cls == (if v.taskClass(d) == "" then "unclassified" else v.taskClass(d))
  }

  ghost predicate HasGroup(groups: seq<Group>, cls: string) {
    exists x :: x in groups && x.cls == cls
  }

  lemma OpenClassIff(v: View, docs: seq<Doc>, cls: string)
    ensures cls in Classes(v, Collect(docs, OpenDoc(v))) <==> HasOpenTicket(v, docs, cls)
  {
    hide Collect, Classes;
    var open := Collect(docs, OpenDoc(v));
    ClassesAre(v, open, cls);
    forall d
      ensures d in open <==> d in docs && IsOpen(v, d)
    {
      FilterCounts(docs, OpenDoc(v), d);
      assert d in open <==> multiset(open)[d] > 0;
      assert d in docs <==> multiset(docs)[d] > 0;
    }
    if d :| d in docs && IsOpen(v, d) && ClassOf(v, d) == cls {
      var i :| 0 <= i < |open| && open[i] == d;
    }
  }

  /** Each group holds the rows of the open tickets of its class in document order; there is one group for each class
      that an open ticket has, and they ascend. */
  lemma GroupsAre(v: View, g: Graph, collate: string -> real)
    ensures var groups := IndexOf(v, g, collate).openWork;
            && (forall x :: x in groups ==> x.rows == Collect(g.docs, OpenRow(v, g.backlinks, x.cls)))
            && (forall cls :: HasGroup(groups, cls) <==> HasOpenTicket(v, g.docs, cls))
            && (forall i, j :: 0 <= i < j < |groups| ==>
                  groups[i].cls != groups[j].cls && CodeLeq(groups[i].cls, groups[j].cls))
  {
    hide Collect, Classes, OpenDoc, Rows, OpenRow, InClass, CodeLeq, HasOpenTicket;
    var open, groups := Collect(g.docs, OpenDoc(v)), IndexOf(v, g, collate).openWork;
    var classes := Classes(v, open);
    GroupPerClass(v, open, g.backlinks, classes);
    forall x | x in groups
      ensures x.rows == Collect(g.docs, OpenRow(v, g.backlinks, x.cls))
    {
      GroupRowsAre(v, g.docs, g.backlinks, x.cls);
    }
    forall cls
      ensures HasGroup(groups, cls) <==> HasOpenTicket(v, g.docs, cls)
    {
      OpenClassIff(v, g.docs, cls);
      if cls in classes {
        var i :| 0 <= i < |classes| && classes[i] == cls;
        assert groups[i] in groups;
      }
    }
    ClassesAre(v, open, "");
  }

  lemma {:induction false} GroupPerClass(v: View, open: seq<Doc>, backlinks: map<Path, seq<Backlink>>,
                                         classes: seq<string>)
    ensures var groups := Collect(classes, GroupOf(v, open, backlinks));
            && |groups| == |classes|
            && forall i :: 0 <= i < |classes| ==>
                 groups[i].cls == classes[i] && groups[i].rows == Rows(Collect(open, InClass(v, classes[i])), backlinks)
  {
    if classes != [] {
      var init, cls := classes[..|classes| - 1], classes[|classes| - 1];
      GroupPerClass(v, open, backlinks, init);
      ConcatLast([], classes);
      CollectSnoc(init, cls, GroupOf(v, open, backlinks));
      hide Collect, Rows;
    }
  }

  /** The decisions in document order, and the lists of the graph as they are. */
  lemma DecisionsAre(v: View, g: Graph, collate: string -> real)
    ensures var index := IndexOf(v, g, collate);
            && index.decisions == Collect(g.docs, RowOfType(v, g.backlinks, "adr"))
            && index.orphans == g.orphans && index.dangling == g.dangling
  {
    forall d { CollectOne(d, RowOf(g.backlinks)); }
    forall d
      ensures RowOfType(v, g.backlinks, "adr")(d) == Collect(OfType(v, "adr")(d), RowOf(g.backlinks))
    {
    }
    hide Collect, Sort, Classes;
    CollectTwice(g.docs, OfType(v, "adr"), RowOf(g.backlinks), RowOfType(v, g.backlinks, "adr"));
  }

  /** Grouping loses no open ticket and invents none. */
  lemma OpenWorkIsComplete(v: View, g: Graph, collate: string -> real, r: Row)
    ensures multiset(Collect(IndexOf(v, g, collate).openWork, RowsIn))[r]
         == if v.documentType(r.doc) == "ticket" && v.status(r.doc) in {"open", "in-progress"}
               && r.cameFrom == (if r.doc.path in g.backlinks then g.backlinks[r.doc.path] else [])
            then multiset(g.docs)[r.doc] else 0
  {
    hide Collect, Classes, GroupOf, ClassOf;
    var open := Collect(g.docs, OpenDoc(v));
    OneRowCounted(v, open, g.backlinks, r);
    MarkCounts(open, RowOf(g.backlinks), r.doc, r, r == RowOf(g.backlinks)(r.doc)[0]);
    FilterCounts(g.docs, OpenDoc(v), r.doc);
  }

  function RunOfDate(v: View, collate: string -> real, date: real): Doc -> seq<Doc> {
    (d: Doc) => if v.documentType(d) == "run" && collate(v.date(d)) == date then [d] else []
  }

  /** Runs stand newest first, and runs of one date in the order of their paths. */
  lemma RunsNewestFirst(v: View, g: Graph, collate: string -> real, d: Doc)
    ensures var runs := IndexOf(v, g, collate).runs;
            && multiset(runs)[d] == (if v.documentType(d) == "run" then multiset(g.docs)[d] else 0)
            && (forall i, j :: 0 <= i < j < |runs| ==> collate(v.date(runs[j])) <= collate(v.date(runs[i])))
            && Collect(runs, RunOfDate(v, collate, collate(v.date(d))))
               == Collect(g.docs, RunOfDate(v, collate, collate(v.date(d))))
  {
    hide Collect, Sort;
    var all := Collect(g.docs, OfType(v, "run"));
    SortSorts(all, ByDate(v, collate));
    FilterCounts(g.docs, OfType(v, "run"), d);
    RunsOfDateStay(v, g.docs, collate, d);
  }

  lemma RunsOfDateStay(v: View, docs: seq<Doc>, collate: string -> real, d: Doc)
    ensures var of := RunOfDate(v, collate, collate(v.date(d)));
            Collect(Sort(Collect(docs, OfType(v, "run")), ByDate(v, collate)), of) == Collect(docs, of)
  {
    hide Collect, Sort;
    var all, leq, of := Collect(docs, OfType(v, "run")), ByDate(v, collate), RunOfDate(v, collate, collate(v.date(d)));
    SortSorts(all, leq);
    forall x | x in Sort(all, leq)
      ensures of(x) == TiedWith(d, leq)(x)
    {
      InPermutation(Sort(all, leq), all, x);
      CollectMember(docs, OfType(v, "run"), x);
    }
    CollectAgrees(Sort(all, leq), of, TiedWith(d, leq));
    SortIsStable(all, leq, d);
    RunsTied(v, docs, collate, d);
  }

  lemma RunsTied(v: View, docs: seq<Doc>, collate: string -> real, d: Doc)
    ensures Collect(Collect(docs, OfType(v, "run")), TiedWith(d, ByDate(v, collate)))
         == Collect(docs, RunOfDate(v, collate, collate(v.date(d))))
  {
    var tied, of := TiedWith(d, ByDate(v, collate)), RunOfDate(v, collate, collate(v.date(d)));
    forall x
      ensures of(x) == Collect(OfType(v, "run")(x), tied)
    {
      CollectOne(x, tied);
    }
    hide Collect;
    CollectTwice(docs, OfType(v, "run"), tied, of);
  }

  /** The rendered index does not depend on the order in which the documents were read. */
  lemma PermutedInputSameIndex(v: View, a: seq<Doc>, b: seq<Doc>, collatePath: Path -> real, collate: string -> real)
    requires multiset(a) == multiset(b) && NoTies(Kept(a), ByPath(collatePath))
    ensures IndexOf(v, BuiltFrom(a, collatePath), collate) == IndexOf(v, BuiltFrom(b, collatePath), collate)
  {
    WorkIndexLaws.PermutedInputSameGraph(a, b, collatePath);
  }

  /** It does for two documents without references whose distinct paths tie: they are listed as they were read. */
  lemma TiesShowInIndex(v: View, x: Path, y: Path, collatePath: Path -> real, collate: string -> real)
    requires x != y && Indexed(Doc(x, map[])) && Indexed(Doc(y, map[])) && collatePath(x) == collatePath(y)
    ensures var a, b := [Doc(x, map[]), Doc(y, map[])], [Doc(y, map[]), Doc(x, map[])];
            && multiset(a) == multiset(b)
            && IndexOf(v, BuiltFrom(a, collatePath), collate) != IndexOf(v, BuiltFrom(b, collatePath), collate)
  {
    hide BuiltFrom, Indexed;
    WorkIndexLaws.TiesShowInGraph(x, y, collatePath);
  }

  /** Permuting `a` into `b` does not show in the rendered index. */
  ghost predicate RenderAlike(v: View, a: seq<Doc>, b: seq<Doc>, collatePath: Path -> real, collate: string -> real) {
    multiset(a) == multiset(b) ==>
      IndexOf(v, BuiltFrom(a, collatePath), collate) == IndexOf(v, BuiltFrom(b, collatePath), collate)
  }

  /** No two distinct indexed paths of the set compare equal. */
  ghost predicate PathsNeverTie(paths: set<Path>, collatePath: Path -> real) {
    forall x, y | x in paths && y in paths && Indexed(Doc(x, map[])) && Indexed(Doc(y, map[])) ::
      collatePath(x) == collatePath(y) ==> x == y
  }

  lemma NoDocsTie(a: seq<Doc>, paths: set<Path>, collatePath: Path -> real)
    requires WorkIndexLaws.DistinctPaths(a) && Known(a) <= paths && PathsNeverTie(paths, collatePath)
    ensures NoTies(Kept(a), ByPath(collatePath))
  {
    WorkIndexLaws.KeptDistinct(a);
    forall d, e | d in Kept(a) && e in Kept(a) && collatePath(d.path) == collatePath(e.path)
      ensures d == e
    {
      WorkIndexLaws.KeptMember(a, d);
      WorkIndexLaws.KeptMember(a, e);
      assert d.path in Known(a) && e.path in Known(a);
      assert Indexed(Doc(d.path, map[])) && Indexed(Doc(e.path, map[]));
    }
  }

  /** For documents whose paths are distinct and lie in a given set: all orders of all of them render alike exactly
      when no two distinct indexed paths of the set tie. */
  lemma RenderOrderIff(v: View, paths: set<Path>, collatePath: Path -> real, collate: string -> real)
    ensures (forall a, b :: WorkIndexLaws.DistinctPaths(a) && Known(a) <= paths ==>
               RenderAlike(v, a, b, collatePath, collate))
       <==> PathsNeverTie(paths, collatePath)
  {
    hide IndexOf, BuiltFrom, Kept, Indexed;
    if PathsNeverTie(paths, collatePath) {
      forall a, b | WorkIndexLaws.DistinctPaths(a) && Known(a) <= paths
        ensures RenderAlike(v, a, b, collatePath, collate)
      {
        NoDocsTie(a, paths, collatePath);
        if multiset(a) == multiset(b) { PermutedInputSameIndex(v, a, b, collatePath, collate); }
      }
    } else {
      var x, y :| x in paths && y in paths && Indexed(Doc(x, map[])) && Indexed(Doc(y, map[]))
                  && collatePath(x) == collatePath(y) && x != y;
      var a, b := [Doc(x, map[]), Doc(y, map[])], [Doc(y, map[]), Doc(x, map[])];
      TiesShowInIndex(v, x, y, collatePath, collate);
      assert WorkIndexLaws.DistinctPaths(a) && Known(a) <= paths;
      assert !RenderAlike(v, a, b, collatePath, collate);
    }
  }
}
