/** Board truth on main: a merge titled with a ticket's number whose ticket is still open is drift, unless that
    merge, a later one, or the branch being pushed edited the ticket. */
module MergedTickets {
  import opened Prelude
  import opened Text

  datatype Merge = Merge(subject: string, files: seq<string>)

  datatype Doc = Doc(path: string, closed: bool)

  // ----- Reading the log -----

  predicate IsHeader(line: string) { "@@" <= line }

  function WithLine(entries: seq<Merge>, line: string): seq<Merge> {
    if IsHeader(line) then entries + [Merge(Trim(line[2..]), [])]
    else if Trim(line) != "" && entries != [] then
      var last := entries[|entries| - 1];
      entries[..|entries| - 1] + [last.(files := last.files + [Trim(line)])]
    else entries
  }

  function LogOf(lines: seq<string>): seq<Merge> {
    if lines == [] then [] else WithLine(LogOf(lines[..|lines| - 1]), lines[|lines| - 1])
  }

  method ParseMainLog(raw: string) returns (out: seq<Merge>)
    ensures out == LogOf(SplitLines(raw))
  {
    hide LogOf, SplitOn, Trim;
    var lines := SplitLines(raw);
    out := [];
    NothingLogged();
    for i := 0 to |lines|
      invariant out == LogOf(lines[..i])
    {
      LogNext(lines[..i], lines[i]);
      assert lines[..i + 1] == lines[..i] + [lines[i]];
      if "@@" <= lines[i] {
        out := out + [Merge(Trim(lines[i][2..]), [])];
      } else if Trim(lines[i]) != "" && |out| > 0 {
        var last := out[|out| - 1];
        out := out[..|out| - 1] + [last.(files := last.files + [Trim(lines[i])])];
      }
    }
    assert lines[..|lines|] == lines;
  }

  /** The lines git prints for one commit: a marked subject, an empty line, the file names. */
  function Printed(m: Merge): seq<string> {
    ["@@" + m.subject, ""] + m.files
  }

  ghost predicate Printable(m: Merge) {
    && Trim(m.subject) == m.subject
    && forall i :: 0 <= i < |m.files| ==> m.files[i] != "" && Trim(m.files[i]) == m.files[i] && !IsHeader(m.files[i])
  }

  /** Lines before the first marked subject belong to no commit. */
  lemma {:induction false} NothingBeforeHeader(lines: seq<string>)
    requires forall i :: 0 <= i < |lines| ==> !("@@" <= lines[i])
    ensures LogOf(lines) == []
  {
    if lines != [] { NothingBeforeHeader(lines[..|lines| - 1]); }
  }

  lemma NothingLogged()
    ensures LogOf([]) == []
  {
  }

  lemma LogNext(lines: seq<string>, line: string)
    ensures LogOf(lines + [line]) == WithLine(LogOf(lines), line)
  {
    assert (lines + [line])[..|lines|] == lines;
  }

  lemma {:induction false} FilesParse(lines: seq<string>, subject: string, files: seq<string>)
    requires Printable(Merge(subject, files)) && LogOf(lines) != []
    requires LogOf(lines)[|LogOf(lines)| - 1] == Merge(subject, [])
    ensures LogOf(lines + files) == LogOf(lines)[..|LogOf(lines)| - 1] + [Merge(subject, files)]
  {
    hide LogOf, Trim, IsHeader;
    if files == [] {
      assert lines + files == lines;
    } else {
      var n := |files| - 1;
      FilesParse(lines, subject, files[..n]);
      LogNext(lines + files[..n], files[n]);
      assert lines + files == lines + files[..n] + [files[n]];
      assert files == files[..n] + [files[n]];
    }
  }

  lemma HeaderParses(lines: seq<string>, subject: string)
    requires Trim(subject) == subject
    ensures LogOf(lines + ["@@" + subject] + [""]) == LogOf(lines) + [Merge(subject, [])]
  {
    LogNext(lines, "@@" + subject);
    LogNext(lines + ["@@" + subject], "");
    assert ("@@" + subject)[2..] == subject;
  }

  lemma OneMerge(before: seq<string>, m: Merge)
    requires Printable(m)
    ensures LogOf(before + Printed(m)) == LogOf(before) + [m]
  {
    hide LogOf, Trim, IsHeader;
    var head := before + ["@@" + m.subject] + [""];
    HeaderParses(before, m.subject);
    assert before + Printed(m) == head + m.files;
    FilesParse(head, m.subject, m.files);
  }

  function PrintedLog(merges: seq<Merge>): seq<string> {
    if merges == [] then [] else PrintedLog(merges[..|merges| - 1]) + Printed(merges[|merges| - 1])
  }

  ghost predicate AllPrintable(merges: seq<Merge>) {
    forall i :: 0 <= i < |merges| ==> Printable(merges[i])
  }

  lemma LastMerge(merges: seq<Merge>)
    requires merges != [] && AllPrintable(merges)
    ensures LogOf(PrintedLog(merges)) == LogOf(PrintedLog(merges[..|merges| - 1])) + [merges[|merges| - 1]]
  {
    OneMerge(PrintedLog(merges[..|merges| - 1]), merges[|merges| - 1]);
  }

  /** Reading the lines undoes printing them, for any sequence of printable commits. */
  lemma {:induction false} LogRoundTrip(merges: seq<Merge>)
    requires AllPrintable(merges)
    ensures LogOf(PrintedLog(merges)) == merges
  {
    if merges == [] {
      assert PrintedLog([]) == [] && LogOf([]) == [];
    } else {
      hide LogOf, PrintedLog, Printable;
      var init, last := merges[..|merges| - 1], merges[|merges| - 1];
      assert merges == init + [last];
      LogRoundTrip(init);
      LastMerge(merges);
    }
  }

  /** No line break inside a subject or a file name. */
  ghost predicate OneLined(m: Merge) {
    '\n' !in m.subject && forall i :: 0 <= i < |m.files| ==> '\n' !in m.files[i]
  }

  lemma {:induction false} PrintedIsOneLined(merges: seq<Merge>)
    requires forall i :: 0 <= i < |merges| ==> OneLined(merges[i])
    ensures forall k :: 0 <= k < |PrintedLog(merges)| ==> '\n' !in PrintedLog(merges)[k]
  {
    if merges != [] {
      var m := merges[|merges| - 1];
      PrintedIsOneLined(merges[..|merges| - 1]);
      assert OneLined(m);
    }
  }

  /** The text git writes, every line closed by a line break, is read back as the commits it was printed from. */
  lemma TextRoundTrip(merges: seq<Merge>)
    requires AllPrintable(merges) && forall i :: 0 <= i < |merges| ==> OneLined(merges[i])
    ensures merges != [] ==> LogOf(SplitLines(Join(PrintedLog(merges), "\n") + "\n")) == merges
    ensures LogOf(SplitLines("")) == []
  {
    NoText();
    if merges != [] {
      var lines := PrintedLog(merges);
      hide LogOf, PrintedLog, Printable, SplitOn, Join;
      PrintedIsOneLined(merges);
      LogRoundTrip(merges);
      SomethingPrinted(merges);
      SplitClosed(lines);
      LogNext(lines, "");
      NoFileInBlank(merges);
    }
  }

  lemma NoText()
    ensures SplitLines("") == [""] && LogOf([""]) == []
  {
    assert [""][..0] == [];
  }

  lemma NoFileInBlank(merges: seq<Merge>)
    ensures WithLine(merges, "") == merges
  {
  }

  /** Lines that are each closed by a line break are followed by an empty one. */
  lemma SplitClosed(lines: seq<string>)
    requires lines != [] && forall k :: 0 <= k < |lines| ==> '\n' !in lines[k]
    ensures SplitLines(Join(lines, "\n") + "\n") == lines + [""]
  {
    hide SplitOn, Join;
    SplitUndoesJoin(lines, '\n');
    SplitAt(Join(lines, "\n"), '\n', "");
    assert Join(lines, "\n") + "\n" + "" == Join(lines, "\n") + "\n";
    SplitOnePiece("", '\n');
  }

  lemma SomethingPrinted(merges: seq<Merge>)
    requires merges != []
    ensures PrintedLog(merges) != []
  {
  }

  // ----- The fold over the history, newest first -----

  /** The ticket number a subject starts with, and whether a document carries a number, are decided by regular
      expressions. */
  datatype Rules = Rules(ticketOf: string -> Option<nat>, carries: (nat, string) -> bool)

  /** Merge `index` (0 is the newest) shipped the ticket at `path` without ever looking at it. */
  datatype Finding = Finding(index: nat, subject: string, path: string)

  predicate Resolves(r: Rules, m: Merge, d: Doc) {
    r.ticketOf(m.subject).Some? && r.carries(r.ticketOf(m.subject).value, d.path)
  }

  function DriftOf(r: Rules, m: Merge, index: nat, touched: set<string>): Doc -> seq<Finding> {
    (d: Doc) =>
      if Resolves(r, m, d) && !d.closed && d.path !in touched then [Finding(index, m.subject, d.path)] else []
  }

  function Touched(merges: seq<Merge>, branchFiles: seq<string>): set<string> {
    if merges == [] then Elements(branchFiles)
    else Touched(merges[..|merges| - 1], branchFiles) + Elements(merges[|merges| - 1].files)
  }

  function Drift(r: Rules, merges: seq<Merge>, docs: seq<Doc>, branchFiles: seq<string>): seq<Finding> {
    if merges == [] then []
    else
      Drift(r, merges[..|merges| - 1], docs, branchFiles)
      + Collect(docs, DriftOf(r, merges[|merges| - 1], |merges| - 1, Touched(merges, branchFiles)))
  }

  method DriftIn(r: Rules, m: Merge, index: nat, touched: set<string>, docs: seq<Doc>) returns (found: seq<Finding>)
    ensures found == Collect(docs, DriftOf(r, m, index, touched))
  {
    found := [];
    if r.ticketOf(m.subject).None? {
      NoTicketNoDrift(r, m, index, touched, docs);
      return;
    }
    for k := 0 to |docs|
      invariant found == Collect(docs[..k], DriftOf(r, m, index, touched))
    {
      CollectNext(docs, k, DriftOf(r, m, index, touched));
      var doc := docs[k];
      if !r.carries(r.ticketOf(m.subject).value, doc.path) { continue; }
      if doc.closed || doc.path in touched { continue; }
      found := found + [Finding(index, m.subject, doc.path)];
    }
    assert docs[..|docs|] == docs;
  }

  method CheckMergedTicketStatus(r: Rules, merges: seq<Merge>, docs: seq<Doc>, branchFiles: seq<string>)
    returns (out: seq<Finding>)
    ensures out == Drift(r, merges, docs, branchFiles)
  {
    out := [];
    var touched := Elements(branchFiles);
    for i := 0 to |merges|
      invariant out == Drift(r, merges[..i], docs, branchFiles) && touched == Touched(merges[..i], branchFiles)
    {
      assert merges[..i + 1][..i] == merges[..i];
      touched := touched + Elements(merges[i].files);
      var found := DriftIn(r, merges[i], i, touched, docs);
      out := out + found;
    }
    assert merges[..|merges|] == merges;
  }

  lemma {:induction false} NoTicketNoDrift(r: Rules, m: Merge, index: nat, touched: set<string>, docs: seq<Doc>)
    requires r.ticketOf(m.subject).None?
    ensures Collect(docs, DriftOf(r, m, index, touched)) == []
  {
    if docs != [] { NoTicketNoDrift(r, m, index, touched, docs[..|docs| - 1]); }
  }

  // ----- What is flagged -----

  /** Nobody who could have recorded the decision edited the ticket: not the branch, nor any merge up to `i`. */
  ghost predicate NeverEdited(merges: seq<Merge>, branchFiles: seq<string>, i: nat, path: string)
    requires i < |merges|
  {
    path !in branchFiles && forall j :: 0 <= j <= i ==> path !in merges[j].files
  }

  lemma {:induction false} TouchedIff(merges: seq<Merge>, branchFiles: seq<string>, path: string)
    ensures path in Touched(merges, branchFiles)
       <==> path in branchFiles || exists j :: 0 <= j < |merges| && path in merges[j].files
  {
    if merges != [] {
      TouchedIff(merges[..|merges| - 1], branchFiles, path);
    }
  }

  lemma DriftIff(r: Rules, m: Merge, index: nat, touched: set<string>, docs: seq<Doc>, f: Finding)
    ensures f in Collect(docs, DriftOf(r, m, index, touched))
       <==> && f.index == index && f.subject == m.subject && f.path !in touched
            && exists d :: d in docs && d.path == f.path && !d.closed && Resolves(r, m, d)
  {
    var drift := DriftOf(r, m, index, touched);
    CollectMember(docs, drift, f);
    if f in Collect(docs, drift) {
      var k :| 0 <= k < |docs| && f in drift(docs[k]);
      assert docs[k] in docs;
    }
    if exists d :: d in docs && d.path == f.path && !d.closed && Resolves(r, m, d) {
      var d :| d in docs && d.path == f.path && !d.closed && Resolves(r, m, d);
      var k :| 0 <= k < |docs| && docs[k] == d;
      assert drift(docs[k]) == drift(d);
    }
  }

  lemma NeverEditedIff(merges: seq<Merge>, branchFiles: seq<string>, path: string)
    requires merges != []
    ensures path !in Touched(merges, branchFiles) <==> NeverEdited(merges, branchFiles, |merges| - 1, path)
  {
    TouchedIff(merges, branchFiles, path);
  }

  /** The subject names a ticket whose number the document carries, and the document is not closed. */
  predicate ShipsOpen(r: Rules, m: Merge, d: Doc) {
    !d.closed && r.ticketOf(m.subject).Some? && r.carries(r.ticketOf(m.subject).value, d.path)
  }

  /** The finding on merge `i` and this document, if any, read off the history. */
  ghost function DriftAt(r: Rules, merges: seq<Merge>, branchFiles: seq<string>, i: nat): Doc -> seq<Finding>
    requires i < |merges|
  {
    (d: Doc) =>
      if ShipsOpen(r, merges[i], d) && NeverEdited(merges, branchFiles, i, d.path)
      then [Finding(i, merges[i].subject, d.path)] else []
  }

  ghost function DriftUpTo(r: Rules, merges: seq<Merge>, docs: seq<Doc>, branchFiles: seq<string>, n: nat): seq<Finding>
    requires n <= |merges|
  {
    if n == 0 then []
    else DriftUpTo(r, merges, docs, branchFiles, n - 1) + Collect(docs, DriftAt(r, merges, branchFiles, n - 1))
  }

  lemma EditedBefore(merges: seq<Merge>, branchFiles: seq<string>, n: nat, path: string)
    requires 0 < n <= |merges|
    ensures path !in Touched(merges[..n], branchFiles) <==> NeverEdited(merges, branchFiles, n - 1, path)
  {
    hide Touched;
    NeverEditedIff(merges[..n], branchFiles, path);
  }

  /** The findings stand merge by merge, newest first, and in document order within a merge. */
  lemma {:induction false} DriftInOrder(r: Rules, merges: seq<Merge>, docs: seq<Doc>, branchFiles: seq<string>, n: nat)
    requires n <= |merges|
    ensures Drift(r, merges[..n], docs, branchFiles) == DriftUpTo(r, merges, docs, branchFiles, n)
  {
    if n > 0 {
      DriftInOrder(r, merges, docs, branchFiles, n - 1);
      assert merges[..n][..n - 1] == merges[..n - 1];
      hide Collect, Touched, NeverEdited;
      var of := DriftOf(r, merges[n - 1], n - 1, Touched(merges[..n], branchFiles));
      forall d: Doc
        ensures of(d) == DriftAt(r, merges, branchFiles, n - 1)(d)
      {
        EditedBefore(merges, branchFiles, n, d.path);
      }
      CollectAgrees(docs, of, DriftAt(r, merges, branchFiles, n - 1));
    }
  }

  /** Merge `i` is flagged for a document exactly when it names the document's ticket, the ticket is open, and
      neither the branch nor any merge from the newest down to `i` edited it. */
  lemma {:induction false} FlaggedIff(r: Rules, merges: seq<Merge>, docs: seq<Doc>, branchFiles: seq<string>,
                                      f: Finding)
    ensures f in Drift(r, merges, docs, branchFiles)
       <==> && f.index < |merges| && f.subject == merges[f.index].subject
            && NeverEdited(merges, branchFiles, f.index, f.path)
            && exists d :: d in docs && d.path == f.path && ShipsOpen(r, merges[f.index], d)
  {
    hide DriftOf, Touched;
    if merges != [] {
      var n := |merges| - 1;
      FlaggedIff(r, merges[..n], docs, branchFiles, f);
      DriftIff(r, merges[n], n, Touched(merges, branchFiles), docs, f);
      NeverEditedIff(merges, branchFiles, f.path);
    }
  }

  /** Newer commits never add a finding about an older merge, and one that edits a ticket clears them all. */
  lemma NewerCommitsOnlyClear(r: Rules, newer: seq<Merge>, merges: seq<Merge>, docs: seq<Doc>, branchFiles: seq<string>,
                              i: nat, path: string)
    requires i < |merges|
    ensures Finding(|newer| + i, merges[i].subject, path) in Drift(r, newer + merges, docs, branchFiles)
       <==> && Finding(i, merges[i].subject, path) in Drift(r, merges, docs, branchFiles)
            && forall j :: 0 <= j < |newer| ==> path !in newer[j].files
  {
    hide Drift, Resolves, Elements;
    var all := newer + merges;
    FlaggedIff(r, all, docs, branchFiles, Finding(|newer| + i, merges[i].subject, path));
    FlaggedIff(r, merges, docs, branchFiles, Finding(i, merges[i].subject, path));
    assert all[|newer| + i] == merges[i];
    assert NeverEdited(all, branchFiles, |newer| + i, path)
      <==> NeverEdited(merges, branchFiles, i, path) && forall j :: 0 <= j < |newer| ==> path !in newer[j].files by {
      forall j | 0 <= j < |all|
        ensures all[j] == if j < |newer| then newer[j] else merges[j - |newer|]
      {
      }
      if NeverEdited(all, branchFiles, |newer| + i, path) {
        forall j | 0 <= j <= i
          ensures path !in merges[j].files
        {
          assert all[|newer| + j] == merges[j];
        }
        forall j | 0 <= j < |newer|
          ensures path !in newer[j].files
        {
          assert all[j] == newer[j];
        }
      }
    }
  }
}
