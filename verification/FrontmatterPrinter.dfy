/** Frontmatter in printed form, and what the parser makes of it. */
module FrontmatterPrinter {
  import opened Prelude
  import opened Text
  import opened Frontmatter

  /** An entry of a block list: text, or the pairs of a flat map in written order. */
  datatype Entry = Bare(text: string) | Mapping(pairs: seq<Pair>)

  datatype Field = Inline(key: string, raw: string) | Block(key: string, entries: seq<Entry>)

  // ----- What may be printed -----

  predicate IsIdent(k: string) {
    k != "" && IdentStart(k[0]) && forall i :: 0 <= i < |k| ==> IdentPart(k[i])
  }

  predicate PairFits(p: Pair) { IsIdent(p.key) && OneLine(p.rest) }

  predicate EntryFits(e: Entry) {
    match e
    case Bare(t) => OneLine(t) && EntryPair(t, 0).None?
    case Mapping(ps) => ps != [] && forall i :: 0 <= i < |ps| ==> PairFits(ps[i])
  }

  predicate FieldFits(f: Field) {
    && IsIdent(f.key)
    && match f
       case Inline(_, raw) => OneLine(raw)
       case Block(_, es) => forall i :: 0 <= i < |es| ==> EntryFits(es[i])
  }

  // ----- The printed lines -----

  function Continued(ps: seq<Pair>): seq<string> {
    if ps == [] then [] else ["    " + (ps[0].key + ": " + ps[0].rest)] + Continued(ps[1..])
  }

  function EntryLines(e: Entry): seq<string> {
    match e
    case Bare(t) => ["  - " + t]
    case Mapping(ps) => if ps == [] then [] else ["  - " + (ps[0].key + ": " + ps[0].rest)] + Continued(ps[1..])
  }

  function BlockLines(es: seq<Entry>): seq<string> {
    if es == [] then [] else EntryLines(es[0]) + BlockLines(es[1..])
  }

  function FieldLines(f: Field): seq<string> {
    match f
    case Inline(k, raw) => [k + ": " + raw]
    case Block(k, es) => [k + ":"] + BlockLines(es)
  }

  function Printed(fs: seq<Field>): seq<string> {
    if fs == [] then [] else FieldLines(fs[0]) + Printed(fs[1..])
  }

  // ----- What they mean -----

  function WithPairs(obj: map<string, string>, ps: seq<Pair>): map<string, string>
    decreases |ps|
  {
    if ps == [] then obj else WithPairs(obj[ps[0].key := Unquote(Trim(ps[0].rest))], ps[1..])
  }

  function EntryMeaning(e: Entry): Item {
    match e
    case Bare(t) => ItemText(Unquote(Trim(t)))
    case Mapping(ps) => ItemMap(WithPairs(map[], ps))
  }

  function BlockMeaning(es: seq<Entry>): (r: seq<Item>)
    ensures |r| == |es|
  {
    if es == [] then [] else [EntryMeaning(es[0])] + BlockMeaning(es[1..])
  }

  function FieldMeaning(f: Field): Value {
    match f
    case Inline(_, raw) => if Trim(raw) == "" then Text("") else ScalarOrInlineList(Trim(raw))
    case Block(_, es) => if es == [] then Text("") else List(BlockMeaning(es))
  }

  function WithFields(data: Data, fs: seq<Field>): Data
    decreases |fs|
  {
    if fs == [] then data else WithFields(data[fs[0].key := FieldMeaning(fs[0])], fs[1..])
  }

  // ----- Single lines -----

  lemma {:induction false} IdentEndIff(s: string, i: nat, e: nat)
    requires i <= e <= |s|
    ensures IdentEnd(s, i) == e <==> (forall k :: i <= k < e ==> IdentPart(s[k])) && (e < |s| ==> !IdentPart(s[e]))
    decreases |s| - i
  {
    if i < |s| && IdentPart(s[i]) && i < e { IdentEndIff(s, i + 1, e); }
  }

  lemma {:induction false} SkipSpacesIff(s: string, i: nat, e: nat)
    requires i <= e <= |s|
    ensures SkipSpaces(s, i) == e <==> (forall k :: i <= k < e ==> IsSpace(s[k])) && (e < |s| ==> !IsSpace(s[e]))
    decreases |s| - i
  {
    if i < |s| && IsSpace(s[i]) && i < e { SkipSpacesIff(s, i + 1, e); }
  }

  lemma KeyAtKey(pre: string, k: string, rest: string)
    requires IsIdent(k)
    ensures KeyAt(pre + (k + ":" + rest), |pre|) == Some(Pair(k, rest))
  {
    var s, i := pre + (k + ":" + rest), |pre|;
    var e := i + |k|;
    forall j | i <= j < e
      ensures IdentPart(s[j])
    {
      assert s[j] == k[j - i];
    }
    assert s[e] == ':';
    IdentEndIff(s, i, e);
    assert s[i] == k[0];
    assert s[i..e] == k && s[e + 1..] == rest;
  }

  lemma {:induction false} TrimStartIsSuffix(s: string)
    ensures |TrimStart(s)| <= |s| && TrimStart(s) == s[|s| - |TrimStart(s)|..]
  {
    if s != [] && IsSpace(s[0]) { TrimStartIsSuffix(s[1..]); }
  }

  lemma AfterBlank(raw: string)
    ensures TrimStart(" " + raw) == TrimStart(raw) && Trim(" " + raw) == Trim(raw)
  {
    assert (" " + raw)[1..] == raw;
  }

  lemma TrimNothing()
    ensures Trim("") == ""
  {
  }

  lemma EntryPairPrinted(pre: string, p: Pair)
    requires PairFits(p)
    ensures EntryPair(pre + (p.key + ": " + p.rest), |pre|) == Some(Pair(p.key, Unquote(Trim(p.rest))))
  {
    var rest := " " + p.rest;
    assert p.key + ": " + p.rest == p.key + ":" + rest;
    KeyAtKey(pre, p.key, rest);
    AfterBlank(p.rest);
    TrimStartIsSuffix(p.rest);
  }

  lemma {:induction false} TrimEndKeepsHead(s: string)
    requires s != "" && !IsSpace(s[0])
    ensures TrimEnd(s) != "" && TrimEnd(s)[0] == s[0]
  {
    if IsSpace(s[|s| - 1]) { TrimEndKeepsHead(s[..|s| - 1]); }
  }

  lemma IdentIsNoSpace(c: char)
    requires IdentStart(c)
    ensures !IsSpace(c) && c != '#'
  {
  }

  lemma KeyLinePrinted(k: string, rest: string)
    requires IsIdent(k) && OneLine(rest)
    ensures KeyLine(k + ":" + rest) == Some(Pair(k, rest)) && !IsSkipped(k + ":" + rest)
  {
    var line := k + ":" + rest;
    KeyAtKey("", k, rest);
    assert "" + line == line;
    IdentIsNoSpace(k[0]);
    assert line[0] == k[0];
    TrimEndKeepsHead(line);
  }

  lemma ItemLinePrinted(t: string)
    ensures IsItemLine("  - " + t) && EntryOf("  - " + t) == t && ContinuedPair("  - " + t).None?
  {
    var line := "  - " + t;
    SkipSpacesIff(line, 0, 2);
    assert line[4..] == t;
  }

  lemma IndentOf(text: string)
    requires text != "" && IdentStart(text[0])
    ensures SkipSpaces("    " + text, 0) == 4
  {
    var line := "    " + text;
    IdentIsNoSpace(text[0]);
    assert line[4] == text[0];
    SkipSpacesIff(line, 0, 4);
  }

  lemma ContinuedPrinted(p: Pair)
    requires PairFits(p)
    ensures ContinuedPair("    " + (p.key + ": " + p.rest)) == Some(Pair(p.key, Unquote(Trim(p.rest))))
    ensures !IsItemLine("    " + (p.key + ": " + p.rest))
  {
    hide EntryPair, KeyAt, Unquote, Trim, IsSpace;
    var text := p.key + ": " + p.rest;
    assert text[0] == p.key[0];
    IndentOf(text);
    assert ("    " + text)[4] == text[0];
    EntryPairPrinted("    ", p);
  }

  // ----- Blocks of lines -----

  /** `part` stands in `lines` from `i` on. */
  ghost predicate At(lines: seq<string>, i: nat, part: seq<string>) {
    i + |part| <= |lines| && forall k :: 0 <= k < |part| ==> lines[i + k] == part[k]
  }

  lemma AtSplit(lines: seq<string>, i: nat, a: seq<string>, b: seq<string>)
    requires At(lines, i, a + b)
    ensures At(lines, i, a) && At(lines, i + |a|, b)
  {
    forall k | 0 <= k < |a|
      ensures lines[i + k] == a[k]
    {
      assert (a + b)[k] == a[k];
    }
    forall k | 0 <= k < |b|
      ensures lines[i + |a| + k] == b[k]
    {
      assert (a + b)[|a| + k] == b[k];
    }
  }

  /** What may follow a block: the end, or a line that is not indented. */
  predicate Flush(lines: seq<string>, i: nat) {
    i < |lines| ==> lines[i] != "" && !IsSpace(lines[i][0])
  }

  /** What may follow a map entry. */
  predicate NoPair(lines: seq<string>, i: nat) {
    i < |lines| ==> ContinuedPair(lines[i]).None?
  }

  lemma FlushStops(line: string)
    requires line != "" && !IsSpace(line[0])
    ensures !IsItemLine(line) && ContinuedPair(line).None?
  {
  }

  lemma {:induction false} ParsePairsPrinted(lines: seq<string>, i: nat, ps: seq<Pair>, obj: map<string, string>)
    requires forall k :: 0 <= k < |ps| ==> PairFits(ps[k])
    requires At(lines, i, Continued(ps)) && NoPair(lines, i + |Continued(ps)|)
    ensures ParsePairs(lines, i, obj) == Pairs(WithPairs(obj, ps), i + |Continued(ps)|)
    decreases |ps|
  {
    hide ContinuedPair, Unquote, Trim, PairFits;
    if ps != [] {
      var line := "    " + (ps[0].key + ": " + ps[0].rest);
      AtSplit(lines, i, [line], Continued(ps[1..]));
      assert lines[i + 0] == [line][0];
      ContinuedPrinted(ps[0]);
      ParsePairsPrinted(lines, i + 1, ps[1..], obj[ps[0].key := Unquote(Trim(ps[0].rest))]);
    }
  }

  lemma TextStep(lines: seq<string>, i: nat, t: string, items: seq<Item>)
    requires i < |lines| && lines[i] == "  - " + t && EntryFits(Bare(t))
    ensures ParseItems(lines, i, items) == ParseItems(lines, i + 1, items + [EntryMeaning(Bare(t))])
    ensures ContinuedPair(lines[i]).None?
  {
    ItemLinePrinted(t);
  }

  lemma MapStep(lines: seq<string>, i: nat, p: Pair, items: seq<Item>, more: Pairs)
    requires i < |lines| && lines[i] == "  - " + (p.key + ": " + p.rest) && PairFits(p)
    requires more == ParsePairs(lines, i + 1, map[p.key := Unquote(Trim(p.rest))])
    ensures ParseItems(lines, i, items) == ParseItems(lines, more.next, items + [ItemMap(more.fields)])
    ensures ContinuedPair(lines[i]).None?
  {
    var text := p.key + ": " + p.rest;
    ItemLinePrinted(text);
    EntryPairPrinted("", p);
    assert "" + text == text;
  }

  lemma ParseOneEntry(lines: seq<string>, i: nat, e: Entry, items: seq<Item>)
    requires EntryFits(e) && At(lines, i, EntryLines(e)) && NoPair(lines, i + |EntryLines(e)|)
    ensures ParseItems(lines, i, items) == ParseItems(lines, i + |EntryLines(e)|, items + [EntryMeaning(e)])
    ensures i < |lines| && ContinuedPair(lines[i]).None?
  {
    hide ContinuedPair, Unquote, Trim, PairFits, ParseItems, EntryPair;
    match e
    case Bare(t) =>
      assert lines[i + 0] == EntryLines(e)[0];
      TextStep(lines, i, t, items);
    case Mapping(ps) =>
      var first := "  - " + (ps[0].key + ": " + ps[0].rest);
      AtSplit(lines, i, [first], Continued(ps[1..]));
      assert lines[i + 0] == [first][0];
      var obj := map[ps[0].key := Unquote(Trim(ps[0].rest))];
      ParsePairsPrinted(lines, i + 1, ps[1..], obj);
      MapStep(lines, i, ps[0], items, Pairs(WithPairs(obj, ps[1..]), i + 1 + |Continued(ps[1..])|));
  }

  lemma NoMoreItems(lines: seq<string>, i: nat, items: seq<Item>)
    requires i <= |lines| && Flush(lines, i)
    ensures ParseItems(lines, i, items) == Items(items, i) && NoPair(lines, i)
  {
    hide ContinuedPair, IsItemLine;
    if i < |lines| { FlushStops(lines[i]); }
  }

  lemma {:induction false} ParseItemsPrinted(lines: seq<string>, i: nat, es: seq<Entry>, items: seq<Item>)
    requires forall k :: 0 <= k < |es| ==> EntryFits(es[k])
    requires At(lines, i, BlockLines(es)) && Flush(lines, i + |BlockLines(es)|)
    ensures ParseItems(lines, i, items) == Items(items + BlockMeaning(es), i + |BlockLines(es)|)
    ensures NoPair(lines, i)
    decreases |es|
  {
    hide ContinuedPair, ParseItems, EntryFits, EntryMeaning, EntryLines;
    if es == [] {
      NoMoreItems(lines, i, items);
    } else {
      var head := EntryLines(es[0]);
      AtSplit(lines, i, head, BlockLines(es[1..]));
      ParseItemsPrinted(lines, i + |head|, es[1..], items + [EntryMeaning(es[0])]);
      ParseOneEntry(lines, i, es[0], items);
      assert items + BlockMeaning(es) == items + [EntryMeaning(es[0])] + BlockMeaning(es[1..]);
    }
  }

  lemma ParseInlineField(lines: seq<string>, i: nat, f: Field, data: Data)
    requires f.Inline? && FieldFits(f) && At(lines, i, FieldLines(f)) && Flush(lines, i + |FieldLines(f)|)
    ensures ParseFrom(lines, i, data) == ParseFrom(lines, i + |FieldLines(f)|, data[f.key := FieldMeaning(f)])
    ensures Flush(lines, i)
  {
    hide ContinuedPair, IsItemLine, KeyLine, IsSkipped, Trim, ScalarOrInlineList;
    assert lines[i + 0] == FieldLines(f)[0];
    assert lines[i] == f.key + ":" + (" " + f.raw);
    KeyLinePrinted(f.key, " " + f.raw);
    AfterBlank(f.raw);
    if i + 1 < |lines| { FlushStops(lines[i + 1]); }
  }

  /** A bare key and the entries below it. */
  lemma BareKeyStep(lines: seq<string>, i: nat, k: string, items: seq<Item>, next: nat, data: Data)
    requires i < |lines| && lines[i] == k + ":" + "" && IsIdent(k) && ParseItems(lines, i + 1, []) == Items(items, next)
    ensures ParseFrom(lines, i, data)
         == ParseFrom(lines, next, data[k := if items == [] then Text("") else List(items)])
    ensures Flush(lines, i)
  {
    hide KeyLine, IsSkipped, Trim, ScalarOrInlineList, ParseItems;
    KeyLinePrinted(k, "");
    TrimNothing();
    IdentIsNoSpace(k[0]);
    assert (k + ":" + "")[0] == k[0];
  }

  lemma ParseBlockField(lines: seq<string>, i: nat, f: Field, data: Data)
    requires f.Block? && FieldFits(f) && At(lines, i, FieldLines(f)) && Flush(lines, i + |FieldLines(f)|)
    ensures ParseFrom(lines, i, data) == ParseFrom(lines, i + |FieldLines(f)|, data[f.key := FieldMeaning(f)])
    ensures Flush(lines, i)
  {
    hide ContinuedPair, EntryFits, EntryMeaning, EntryLines, ParseFrom, ParseItems, BlockLines, BlockMeaning, IsIdent;
    assert lines[i + 0] == FieldLines(f)[0];
    assert lines[i] == f.key + ":" + "";
    AtSplit(lines, i, [f.key + ":"], BlockLines(f.entries));
    ParseItemsPrinted(lines, i + 1, f.entries, []);
    assert [] + BlockMeaning(f.entries) == BlockMeaning(f.entries);
    BareKeyStep(lines, i, f.key, BlockMeaning(f.entries), i + 1 + |BlockLines(f.entries)|, data);
  }

  lemma ParseOneField(lines: seq<string>, i: nat, f: Field, data: Data)
    requires FieldFits(f) && At(lines, i, FieldLines(f)) && Flush(lines, i + |FieldLines(f)|)
    ensures ParseFrom(lines, i, data) == ParseFrom(lines, i + |FieldLines(f)|, data[f.key := FieldMeaning(f)])
    ensures Flush(lines, i)
  {
    hide FieldFits, FieldLines, FieldMeaning, ParseFrom, At, Flush;
    if f.Inline? { ParseInlineField(lines, i, f, data); } else { ParseBlockField(lines, i, f, data); }
  }

  /** Parsing printed fields yields what each of them means, later fields over earlier ones. */
  lemma {:induction false} ParsePrinted(lines: seq<string>, i: nat, fs: seq<Field>, data: Data)
    requires forall k :: 0 <= k < |fs| ==> FieldFits(fs[k])
    requires At(lines, i, Printed(fs)) && Flush(lines, i + |Printed(fs)|)
    ensures ParseFrom(lines, i, data) == ParseFrom(lines, i + |Printed(fs)|, WithFields(data, fs)) && Flush(lines, i)
    ensures i + |Printed(fs)| == |lines| ==> ParseFrom(lines, i, data) == Some(WithFields(data, fs))
    decreases |fs|
  {
    hide FieldFits, FieldMeaning, FieldLines, KeyLine, IsSkipped, Trim, IsItemLine;
    if fs != [] {
      var head := FieldLines(fs[0]);
      AtSplit(lines, i, head, Printed(fs[1..]));
      ParsePrinted(lines, i + |head|, fs[1..], data[fs[0].key := FieldMeaning(fs[0])]);
      ParseOneField(lines, i, fs[0], data);
    }
  }

  predicate IsComment(line: string) { line != "" && line[0] == '#' }

  lemma CommentIsSkipped(line: string)
    requires IsComment(line)
    ensures IsSkipped(line) && line != "" && !IsSpace(line[0])
  {
    TrimEndKeepsHead(line);
  }

  lemma SkipStep(lines: seq<string>, i: nat, data: Data)
    requires i < |lines| && IsSkipped(lines[i])
    ensures ParseFrom(lines, i, data) == ParseFrom(lines, i + 1, data)
  {
    hide IsSkipped, KeyLine, ParseItems, ScalarOrInlineList, Trim;
  }

  /** Comment lines between the fields are passed over. */
  lemma {:induction false} CommentsAreSkipped(lines: seq<string>, i: nat, k: nat, data: Data)
    requires i <= k <= |lines| && forall j :: i <= j < k ==> IsComment(lines[j])
    ensures ParseFrom(lines, i, data) == ParseFrom(lines, k, data)
    ensures i < k ==> Flush(lines, i)
    decreases k - i
  {
    hide IsSkipped, IsSpace, ParseFrom, IsComment;
    if i < k {
      CommentIsSkipped(lines[i]);
      SkipStep(lines, i, data);
      CommentsAreSkipped(lines, i + 1, k, data);
    }
  }

  /** Where the three parts of a text of lines stand. */
  lemma PartsAt(a: seq<string>, b: seq<string>, c: seq<string>)
    ensures At(a + b + c, 0, a) && At(a + b + c, |a|, b) && At(a + b + c, |a| + |b|, c)
  {
  }

  /** Comments between two runs of fields leave no trace. */
  lemma PrintedWithComments(fs: seq<Field>, comments: seq<string>, gs: seq<Field>, data: Data)
    requires forall k :: 0 <= k < |fs| ==> FieldFits(fs[k])
    requires forall k :: 0 <= k < |gs| ==> FieldFits(gs[k])
    requires forall k :: 0 <= k < |comments| ==> IsComment(comments[k])
    ensures ParseFrom(Printed(fs) + comments + Printed(gs), 0, data) == Some(WithFields(WithFields(data, fs), gs))
  {
    hide FieldFits, Printed, WithFields, ParseFrom, Flush, At, IsComment;
    var a, c := Printed(fs), Printed(gs);
    var lines, n, m := a + comments + c, |a|, |a| + |comments|;
    PartsAt(a, comments, c);
    CommentsAt(lines, n, comments);
    assert Flush(lines, |lines|) by { NothingLeft(lines); }
    ParsePrinted(lines, m, gs, WithFields(data, fs));
    CommentsAreSkipped(lines, n, m, WithFields(data, fs));
    ParsePrinted(lines, 0, fs, data);
  }

  lemma NothingLeft(lines: seq<string>)
    ensures Flush(lines, |lines|)
  {
  }

  lemma CommentsAt(lines: seq<string>, n: nat, comments: seq<string>)
    requires At(lines, n, comments) && forall k :: 0 <= k < |comments| ==> IsComment(comments[k])
    ensures forall j :: n <= j < n + |comments| ==> IsComment(lines[j])
  {
    hide IsComment;
    forall j | n <= j < n + |comments|
      ensures IsComment(lines[j])
    {
      assert lines[n + (j - n)] == comments[j - n];
    }
  }

  lemma NoKey(bad: string)
    requires bad != "" && bad[0] != '#' && !IsSpace(bad[0]) && ':' !in bad
    ensures KeyLine(bad) == None && !IsSkipped(bad)
  {
    TrimEndKeepsHead(bad);
  }

  /** A line that is neither a comment nor blank nor indented, and has no colon, makes the whole block fail. */
  lemma BadLineFails(fs: seq<Field>, bad: string, rest: seq<string>, data: Data)
    requires forall k :: 0 <= k < |fs| ==> FieldFits(fs[k])
    requires bad != "" && bad[0] != '#' && !IsSpace(bad[0]) && ':' !in bad
    ensures ParseFrom(Printed(fs) + [bad] + rest, 0, data) == None
  {
    hide FieldFits, Printed, WithFields, IsSkipped, KeyLine, IsSpace, IsItemLine, ContinuedPair;
    var lines, n := Printed(fs) + [bad] + rest, |Printed(fs)|;
    PartsAt(Printed(fs), [bad], rest);
    assert lines[n + 0] == [bad][0];
    NoKey(bad);
    ParsePrinted(lines, 0, fs, data);
  }
}
