/** Parsing undoes printing, for whole documents and for the values the subset has. */
module FrontmatterRoundTrip {
  import opened Prelude
  import opened Text
  import opened Frontmatter
  import opened FrontmatterPrinter

  // ----- Whole documents -----

  function Document(fs: seq<Field>, body: string): string {
    Join([OPEN] + Printed(fs) + [OPEN], "\n") + "\n" + body
  }

  predicate HeaderLine(line: string) { line != "" && line[0] != '-' && '\n' !in line }

  predicate HeaderLines(lines: seq<string>) {
    forall i :: 0 <= i < |lines| ==> HeaderLine(lines[i])
  }

  lemma PairLine(pre: string, p: Pair)
    requires PairFits(p) && '\n' !in pre
    ensures '\n' !in pre + (p.key + ": " + p.rest)
  {
  }

  lemma {:induction false} ContinuedAreHeader(ps: seq<Pair>)
    requires forall i :: 0 <= i < |ps| ==> PairFits(ps[i])
    ensures HeaderLines(Continued(ps))
    decreases |ps|
  {
    if ps != [] {
      PairLine("    ", ps[0]);
      ContinuedAreHeader(ps[1..]);
    }
  }

  lemma EntryIsHeader(e: Entry)
    requires EntryFits(e)
    ensures HeaderLines(EntryLines(e))
  {
    match e
    case Bare(t) =>
    case Mapping(ps) =>
      PairLine("  - ", ps[0]);
      ContinuedAreHeader(ps[1..]);
  }

  lemma {:induction false} BlockIsHeader(es: seq<Entry>)
    requires forall i :: 0 <= i < |es| ==> EntryFits(es[i])
    ensures HeaderLines(BlockLines(es))
    decreases |es|
  {
    hide EntryFits, EntryLines, HeaderLine;
    if es != [] {
      EntryIsHeader(es[0]);
      BlockIsHeader(es[1..]);
    }
  }

  lemma FieldIsHeader(f: Field)
    requires FieldFits(f)
    ensures HeaderLines(FieldLines(f))
  {
    hide EntryFits, EntryLines;
    match f
    case Inline(k, raw) => PairLine("", Pair(k, raw));
    case Block(k, es) => BlockIsHeader(es);
  }

  lemma {:induction false} PrintedIsHeader(fs: seq<Field>)
    requires forall i :: 0 <= i < |fs| ==> FieldFits(fs[i])
    ensures HeaderLines(Printed(fs))
    decreases |fs|
  {
    hide FieldFits, FieldLines, HeaderLine;
    if fs != [] {
      FieldIsHeader(fs[0]);
      PrintedIsHeader(fs[1..]);
    }
  }

  lemma {:induction false} FindsClose(lines: seq<string>, i: nat, close: nat)
    requires i <= close < |lines| && lines[close] == OPEN
    requires forall k :: i <= k < close ==> lines[k] != OPEN
    ensures IndexOfClose(lines, i) == Some(close)
    decreases close - i
  {
    if i < close { FindsClose(lines, i + 1, close); }
  }

  lemma HeadIsOneLined(fs: seq<Field>, i: nat)
    requires forall i :: 0 <= i < |fs| ==> FieldFits(fs[i])
    requires i < |[OPEN] + Printed(fs) + [OPEN]|
    ensures '\n' !in ([OPEN] + Printed(fs) + [OPEN])[i]
  {
    hide FieldFits, FieldLines;
    PrintedIsHeader(fs);
    if 0 < i <= |Printed(fs)| { assert HeaderLine(Printed(fs)[i - 1]); }
  }

  lemma DocumentLines(fs: seq<Field>, body: string)
    requires forall i :: 0 <= i < |fs| ==> FieldFits(fs[i])
    ensures SplitLines(Document(fs, body)) == [OPEN] + Printed(fs) + [OPEN] + SplitLines(body)
  {
    hide FieldFits, FieldLines, Printed, SplitOn, Join;
    var head := [OPEN] + Printed(fs) + [OPEN];
    forall i | 0 <= i < |head|
      ensures '\n' !in head[i]
    {
      HeadIsOneLined(fs, i);
    }
    SplitUndoesJoin(head, '\n');
    SplitAt(Join(head, "\n"), '\n', body);
  }

  lemma ClosesAfter(head: seq<string>, rest: seq<string>)
    requires HeaderLines(head)
    ensures IndexOfClose([OPEN] + head + [OPEN] + rest, 1) == Some(|head| + 1)
  {
    var lines := [OPEN] + head + [OPEN] + rest;
    forall k | 1 <= k < |head| + 1
      ensures lines[k] != OPEN
    {
      assert HeaderLine(head[k - 1]) && lines[k] == head[k - 1];
    }
    FindsClose(lines, 1, |head| + 1);
  }

  /** A printed document parses into the meaning of its fields, and its body comes back untouched. */
  lemma DocumentRoundTrip(fs: seq<Field>, body: string)
    requires forall i :: 0 <= i < |fs| ==> FieldFits(fs[i])
    ensures ParsedLines(SplitLines(Document(fs, body))) == Parsed(WithFields(map[], fs), body)
  {
    hide FieldFits, FieldMeaning, HeaderLines, Trim, ParseFrom, IndexOfClose, Document, Printed, WithFields, SplitOn,
      Join;
    var head, rest := Printed(fs), SplitLines(body);
    var lines := [OPEN] + head + [OPEN] + rest;
    DocumentLines(fs, body);
    PrintedIsHeader(fs);
    ClosesAfter(head, rest);
    TrimTight(OPEN);
    assert lines[1..|head| + 1] == head && lines[|head| + 2..] == rest;
    ParsePrinted(head, 0, fs, map[]);
    JoinUndoesSplit(body, '\n');
  }

  // ----- Quoting -----

  function Quoted(t: string): string { "\"" + t + "\"" }

  lemma TrimTight(s: string)
    requires s != "" && !IsSpace(s[0]) && !IsSpace(s[|s| - 1])
    ensures Trim(s) == s && Trim(" " + s) == s
  {
    AfterBlank(s);
  }

  /** Quoting protects any one-line text: quotes, brackets, blanks, number-like and null-like texts included. */
  lemma QuotedReadsBack(t: string)
    ensures Trim(Quoted(t)) == Quoted(t) == Trim(" " + Quoted(t)) && Unquote(Quoted(t)) == t
    ensures ScalarOrInlineList(Quoted(t)) == Text(t) && EntryPair(Quoted(t), 0).None?
  {
    var q := Quoted(t);
    TrimTight(q);
    assert q[1..|q| - 1] == t;
    assert q[0] == '"' && !IsDigit(q[0]);
    assert Unquote(q) == t && EntryPair(q, 0).None?;
    assert !IsInteger(q);
    hide Unquote, Trim, SplitOn, Collect, EntryPair, IsInteger;
    assert "null"[0] == 'n' && "true"[0] == 't' && "false"[0] == 'f' && "~"[0] == '~';
  }

  // ----- Numbers -----

  function Digit(d: nat): char
    requires d < 10
  {
    (d + '0' as int) as char
  }

  function Decimal(n: nat): string {
    if n < 10 then [Digit(n)] else Decimal(n / 10) + [Digit(n % 10)]
  }

  function Written(n: int): string {
    if n < 0 then "-" + Decimal(-n) else Decimal(n)
  }

  lemma {:induction false} DecimalReadsBack(n: nat)
    ensures Decimal(n) != "" && DigitsValue(Decimal(n)) == n
    ensures forall i :: 0 <= i < |Decimal(n)| ==> IsDigit(Decimal(n)[i])
  {
    if n >= 10 {
      DecimalReadsBack(n / 10);
      assert Decimal(n)[..|Decimal(n)| - 1] == Decimal(n / 10);
    } else {
      assert [Digit(n)][..0] == "";
    }
  }

  lemma IntegerReadsBack(s: string)
    requires IsInteger(s)
    ensures Trim(s) == s && OneLine(s) && ScalarOrInlineList(s) == Number(IntegerValue(s))
  {
    hide IntegerValue;
    assert s[0] == '-' || IsDigit(s[0]);
    assert forall i :: 0 < i < |s| ==> IsDigit(s[i]) by {
      if s[0] == '-' { assert forall i :: 0 < i < |s| ==> s[i] == s[1..][i - 1]; }
    }
    TrimTight(s);
    assert "null"[0] == 'n' && "true"[0] == 't' && "false"[0] == 'f' && "~"[0] == '~';
  }

  lemma NumberReadsBack(n: int)
    ensures Trim(Written(n)) == Written(n) && OneLine(Written(n)) && ScalarOrInlineList(Written(n)) == Number(n)
  {
    hide Trim, OneLine, ScalarOrInlineList, Decimal;
    var digits := Decimal(if n < 0 then -n else n);
    DecimalReadsBack(if n < 0 then -n else n);
    assert n < 0 ==> Written(n)[1..] == digits;
    IntegerReadsBack(Written(n));
  }

  // ----- Inline lists -----

  function AllQuoted(texts: seq<string>): seq<string> {
    seq(|texts|, i requires 0 <= i < |texts| => Quoted(texts[i]))
  }

  function InlineList(pieces: seq<string>): string { "[" + Join(pieces, ", ") + "]" }

  function Texts(texts: seq<string>): seq<Item> {
    seq(|texts|, i requires 0 <= i < |texts| => ItemText(texts[i]))
  }

  /** Joined by comma and blank, every piece but the first comes back with a blank before it. */
  function Spaced(pieces: seq<string>): seq<string> {
    seq(|pieces|, i requires 0 <= i < |pieces| => if i == 0 then pieces[i] else " " + pieces[i])
  }

  lemma SpacedNext(pieces: seq<string>)
    requires |pieces| > 1
    ensures Spaced(pieces) == Spaced(pieces[..|pieces| - 1]) + [" " + pieces[|pieces| - 1]]
  {
  }

  lemma {:induction false} SplitSpaced(pieces: seq<string>)
    requires pieces != [] && forall i :: 0 <= i < |pieces| ==> ',' !in pieces[i]
    ensures SplitOn(Join(pieces, ", "), ',') == Spaced(pieces)
  {
    var n := |pieces| - 1;
    var last := pieces[n];
    if n == 0 {
      SplitOnePiece(last, ',');
      assert Join(pieces, ", ") == last && Spaced(pieces) == [last];
    } else {
      hide Join, SplitOn, Spaced;
      var init := pieces[..n];
      SplitSpaced(init);
      JoinNext(pieces, ", ");
      SplitLast(Join(init, ", "), last);
      SpacedNext(pieces);
    }
  }

  lemma SplitLast(init: string, last: string)
    requires ',' !in last
    ensures SplitOn(init + ", " + last, ',') == SplitOn(init, ',') + [" " + last]
  {
    hide SplitOn;
    SplitOnePiece(" " + last, ',');
    SplitAt(init, ',', " " + last);
    assert init + ", " + last == init + [','] + (" " + last);
  }

  /** A piece that survives trimming and unquoting as `text`. */
  predicate ReadsAs(piece: string, text: string) {
    piece != "" && !IsSpace(piece[0]) && !IsSpace(piece[|piece| - 1]) && Unquote(piece) == text
  }

  lemma ElementReadsAs(piece: string, text: string)
    requires ReadsAs(piece, text)
    ensures ListElement(piece) == ListElement(" " + piece) == if text == "" then [] else [ItemText(text)]
  {
    TrimTight(piece);
  }

  lemma {:induction false} ElementsReadAs(pieces: seq<string>, texts: seq<string>, n: nat)
    requires n <= |pieces| == |texts|
    requires forall i :: 0 <= i < |pieces| ==> ReadsAs(pieces[i], texts[i]) && texts[i] != ""
    ensures Collect(Spaced(pieces)[..n], ListElement) == Texts(texts)[..n]
  {
    hide ListElement, ReadsAs;
    if n > 0 {
      ElementsReadAs(pieces, texts, n - 1);
      hide Collect;
      CollectNext(Spaced(pieces), n - 1, ListElement);
      TakeNext(Texts(texts), n - 1);
      ElementReadsAs(pieces[n - 1], texts[n - 1]);
    }
  }

  lemma JoinEnds(pieces: seq<string>)
    requires pieces != [] && forall i :: 0 <= i < |pieces| ==> pieces[i] != ""
    ensures Join(pieces, ", ") != "" && Join(pieces, ", ")[0] == pieces[0][0]
    ensures var s, last := Join(pieces, ", "), pieces[|pieces| - 1]; s[|s| - 1] == last[|last| - 1]
  {
    if |pieces| > 1 { JoinEnds(pieces[..|pieces| - 1]); }
  }

  lemma BracketedList(inner: string)
    requires Trim(inner) == inner != ""
    ensures Trim("[" + inner + "]") == "[" + inner + "]"
    ensures ScalarOrInlineList("[" + inner + "]") == List(Collect(SplitOn(inner, ','), ListElement))
  {
    hide Trim;
    var raw := "[" + inner + "]";
    TrimTight(raw);
    assert raw[1..|raw| - 1] == inner;
  }

  lemma InlineListIs(pieces: seq<string>, texts: seq<string>)
    requires pieces != [] && |pieces| == |texts| && forall i :: 0 <= i < |pieces| ==> ReadsAs(pieces[i], texts[i])
    ensures Trim(InlineList(pieces)) == InlineList(pieces)
    ensures ScalarOrInlineList(InlineList(pieces)) == List(Collect(SplitOn(Join(pieces, ", "), ','), ListElement))
  {
    hide Unquote, Trim, IsSpace, ScalarOrInlineList;
    JoinEnds(pieces);
    TrimTight(Join(pieces, ", "));
    BracketedList(Join(pieces, ", "));
  }

  lemma ElementIsClean(piece: string)
    requires ',' !in piece
    ensures ListElement(piece) == [] || exists t :: ListElement(piece) == [ItemText(t)] && t != "" && ',' !in t
  {
    TrimStartIsSuffix(piece);
    TrimEndIsPrefix(TrimStart(piece));
    var v := Unquote(Trim(piece));
    assert ',' !in TrimStart(piece) && ',' !in Trim(piece);
    UnquotedIsClean(Trim(piece));
    hide Trim, Unquote;
    if v != "" { assert ListElement(piece) == [ItemText(v)]; }
  }

  lemma UnquotedIsClean(v: string)
    requires ',' !in v
    ensures ',' !in Unquote(v)
  {
  }

  /** No element of a parsed inline list is empty or holds a comma. */
  lemma ParsedElements(s: string, i: nat)
    requires i < |Collect(SplitOn(s, ','), ListElement)|
    ensures var item := Collect(SplitOn(s, ','), ListElement)[i];
            item.ItemText? && item.text != "" && ',' !in item.text
  {
    hide ListElement;
    var pieces := SplitOn(s, ',');
    var item := Collect(pieces, ListElement)[i];
    CollectMember(pieces, ListElement, item);
    var k :| 0 <= k < |pieces| && item in ListElement(pieces[k]);
    PiecesAreFree(s, ',', k);
    ElementIsClean(pieces[k]);
  }

  lemma {:induction false} TrimEndIsPrefix(s: string)
    ensures |TrimEnd(s)| <= |s| && TrimEnd(s) == s[..|TrimEnd(s)|]
  {
    if s != [] && IsSpace(s[|s| - 1]) { TrimEndIsPrefix(s[..|s| - 1]); }
  }

  /** A printed inline list reads back as its texts exactly when none of them is empty and none holds a comma. */
  lemma InlineListIff(pieces: seq<string>, texts: seq<string>)
    requires |pieces| == |texts|
    requires forall i :: 0 <= i < |pieces| ==> ReadsAs(pieces[i], texts[i]) && (',' in pieces[i] <==> ',' in texts[i])
    ensures Trim(InlineList(pieces)) == InlineList(pieces)
    ensures ScalarOrInlineList(InlineList(pieces)) == List(Texts(texts))
       <==> forall i :: 0 <= i < |texts| ==> texts[i] != "" && ',' !in texts[i]
  {
    hide ReadsAs, Trim, ScalarOrInlineList;
    if pieces == [] {
      EmptyList();
    } else {
      InlineListIs(pieces, texts);
      if forall i :: 0 <= i < |texts| ==> texts[i] != "" && ',' !in texts[i] {
        SplitSpaced(pieces);
        ElementsReadAs(pieces, texts, |pieces|);
        assert Spaced(pieces)[..|pieces|] == Spaced(pieces) && Texts(texts)[..|texts|] == Texts(texts);
      } else {
        OnlyClean(Join(pieces, ", "), texts);
      }
    }
  }

  lemma EmptyList()
    ensures InlineList([]) == "[]" && Trim("[]") == "[]" && ScalarOrInlineList("[]") == List([])
  {
    assert InlineList([]) == "[]";
    TrimTight("[]");
  }

  lemma OnlyClean(inner: string, texts: seq<string>)
    ensures Collect(SplitOn(inner, ','), ListElement) == Texts(texts)
        ==> forall i :: 0 <= i < |texts| ==> texts[i] != "" && ',' !in texts[i]
  {
    hide ListElement;
    var parsed := Collect(SplitOn(inner, ','), ListElement);
    if parsed == Texts(texts) {
      forall i | 0 <= i < |texts|
        ensures texts[i] != "" && ',' !in texts[i]
      {
        ParsedElements(inner, i);
        assert parsed[i] == ItemText(texts[i]);
      }
    }
  }

  // ----- The canonical subset -----

  /** A value and the form it is written in; the texts of `Bare` and `Mapping` are the intended ones, unquoted. */
  datatype Canonical = Scalar(value: Value) | Inlined(texts: seq<string>) | Listed(entries: seq<Entry>)

  predicate EntryIsCanonical(e: Entry) {
    match e
    case Bare(t) => OneLine(t)
    case Mapping(ps) => ps != [] && forall i :: 0 <= i < |ps| ==> PairFits(ps[i])
  }

  predicate IsCanonical(c: Canonical) {
    match c
    case Scalar(Text(t)) => OneLine(t)
    case Scalar(List(items)) => items == []
    case Scalar(_) => true
    case Inlined(ts) => forall i :: 0 <= i < |ts| ==> OneLine(ts[i]) && ts[i] != "" && ',' !in ts[i]
    case Listed(es) => es != [] && forall i :: 0 <= i < |es| ==> EntryIsCanonical(es[i])
  }

  function QuotedPairs(ps: seq<Pair>): (r: seq<Pair>)
    ensures |r| == |ps|
  {
    if ps == [] then [] else [Pair(ps[0].key, Quoted(ps[0].rest))] + QuotedPairs(ps[1..])
  }

  function QuotedEntry(e: Entry): Entry {
    match e
    case Bare(t) => Bare(Quoted(t))
    case Mapping(ps) => Mapping(QuotedPairs(ps))
  }

  function QuotedEntries(es: seq<Entry>): (r: seq<Entry>)
    ensures |r| == |es|
  {
    if es == [] then [] else [QuotedEntry(es[0])] + QuotedEntries(es[1..])
  }

  function Encoded(key: string, c: Canonical): Field {
    match c
    case Scalar(Text(t)) => Inline(key, Quoted(t))
    case Scalar(Null) => Inline(key, "null")
    case Scalar(Bool(b)) => Inline(key, if b then "true" else "false")
    case Scalar(Number(n)) => Inline(key, Written(n))
    case Scalar(List(_)) => Inline(key, "[]")
    case Inlined(ts) => Inline(key, InlineList(AllQuoted(ts)))
    case Listed(es) => Block(key, QuotedEntries(es))
  }

  function MapOf(obj: map<string, string>, ps: seq<Pair>): map<string, string>
    decreases |ps|
  {
    if ps == [] then obj else MapOf(obj[ps[0].key := ps[0].rest], ps[1..])
  }

  function IntendedItem(e: Entry): Item {
    match e
    case Bare(t) => ItemText(t)
    case Mapping(ps) => ItemMap(MapOf(map[], ps))
  }

  function IntendedItems(es: seq<Entry>): seq<Item> {
    if es == [] then [] else [IntendedItem(es[0])] + IntendedItems(es[1..])
  }

  function Intended(c: Canonical): Value {
    match c
    case Scalar(v) => v
    case Inlined(ts) => List(Texts(ts))
    case Listed(es) => List(IntendedItems(es))
  }

  lemma {:induction false} QuotedPairsReadBack(obj: map<string, string>, ps: seq<Pair>)
    requires forall i :: 0 <= i < |ps| ==> PairFits(ps[i])
    ensures forall i :: 0 <= i < |ps| ==> PairFits(QuotedPairs(ps)[i])
    ensures WithPairs(obj, QuotedPairs(ps)) == MapOf(obj, ps)
    decreases |ps|
  {
    hide Unquote, Trim, IsIdent;
    if ps != [] {
      QuotedReadsBack(ps[0].rest);
      QuotedPairsReadBack(obj[ps[0].key := ps[0].rest], ps[1..]);
    }
  }

  lemma QuotedEntryReadsBack(e: Entry)
    requires EntryIsCanonical(e)
    ensures EntryFits(QuotedEntry(e)) && EntryMeaning(QuotedEntry(e)) == IntendedItem(e)
  {
    hide Unquote, Trim, IsIdent, EntryPair;
    match e
    case Bare(t) => QuotedReadsBack(t);
    case Mapping(ps) => QuotedPairsReadBack(map[], ps);
  }

  lemma {:induction false} QuotedEntriesReadBack(es: seq<Entry>)
    requires forall i :: 0 <= i < |es| ==> EntryIsCanonical(es[i])
    ensures forall i :: 0 <= i < |es| ==> EntryFits(QuotedEntries(es)[i])
    ensures BlockMeaning(QuotedEntries(es)) == IntendedItems(es)
    decreases |es|
  {
    hide EntryFits, EntryMeaning, QuotedEntry, IntendedItem, EntryIsCanonical;
    if es != [] {
      QuotedEntryReadsBack(es[0]);
      QuotedEntriesReadBack(es[1..]);
    }
  }

  lemma {:induction false} JoinOneLine(pieces: seq<string>)
    requires forall i :: 0 <= i < |pieces| ==> OneLine(pieces[i])
    ensures OneLine(Join(pieces, ", "))
  {
    if |pieces| > 1 { JoinOneLine(pieces[..|pieces| - 1]); }
  }

  lemma InlinedReadsBack(ts: seq<string>)
    requires IsCanonical(Inlined(ts))
    ensures var raw := InlineList(AllQuoted(ts));
            OneLine(raw) && Trim(raw) == raw && ScalarOrInlineList(raw) == List(Texts(ts))
  {
    hide Unquote, Trim, ScalarOrInlineList;
    var qs := AllQuoted(ts);
    forall i | 0 <= i < |ts|
      ensures ReadsAs(qs[i], ts[i]) && (',' in qs[i] <==> ',' in ts[i]) && OneLine(qs[i])
    {
      QuotedReadsBack(ts[i]);
    }
    JoinOneLine(qs);
    InlineListIff(qs, ts);
  }

  lemma ScalarReadsBack(key: string, v: Value)
    requires IsIdent(key) && IsCanonical(Scalar(v))
    ensures FieldFits(Encoded(key, Scalar(v))) && FieldMeaning(Encoded(key, Scalar(v))) == v
  {
    hide IsIdent, Trim, ScalarOrInlineList;
    match v
    case Text(t) => QuotedReadsBack(t);
    case Number(n) => NumberReadsBack(n);
    case Null => WordsReadBack();
    case Bool(b) => WordsReadBack();
    case List(_) => EmptyList();
  }

  lemma WordsReadBack()
    ensures Trim("null") == "null" && ScalarOrInlineList("null") == Null
    ensures Trim("true") == "true" && ScalarOrInlineList("true") == Bool(true)
    ensures Trim("false") == "false" && ScalarOrInlineList("false") == Bool(false)
  {
    TrimTight("null");
    TrimTight("true");
    TrimTight("false");
    assert "null"[0] == 'n' && "true"[0] == 't' && "false"[0] == 'f';
  }

  /** Every canonical value, written in its own form, is read back as itself. */
  lemma CanonicalReadsBack(key: string, c: Canonical)
    requires IsIdent(key) && IsCanonical(c)
    ensures FieldFits(Encoded(key, c)) && Encoded(key, c).key == key && FieldMeaning(Encoded(key, c)) == Intended(c)
  {
    hide IsIdent, Trim, ScalarOrInlineList, EntryFits, EntryIsCanonical;
    match c
    case Scalar(v) => ScalarReadsBack(key, v);
    case Inlined(ts) => InlinedReadsBack(ts);
    case Listed(es) => QuotedEntriesReadBack(es);
  }

  datatype Slot = Slot(key: string, value: Canonical)

  predicate IsRecord(record: seq<Slot>) {
    forall i :: 0 <= i < |record| ==> IsIdent(record[i].key) && IsCanonical(record[i].value)
  }

  function EncodedRecord(record: seq<Slot>): (r: seq<Field>)
    ensures |r| == |record|
  {
    if record == [] then [] else [Encoded(record[0].key, record[0].value)] + EncodedRecord(record[1..])
  }

  function IntendedRecord(data: Data, record: seq<Slot>): Data
    decreases |record|
  {
    if record == [] then data else IntendedRecord(data[record[0].key := Intended(record[0].value)], record[1..])
  }

  lemma {:induction false} FieldsReadBack(data: Data, record: seq<Slot>)
    requires IsRecord(record)
    ensures forall i :: 0 <= i < |record| ==> FieldFits(EncodedRecord(record)[i])
    ensures WithFields(data, EncodedRecord(record)) == IntendedRecord(data, record)
    decreases |record|
  {
    hide IsIdent, IsCanonical, FieldFits, FieldMeaning, Encoded, Intended;
    if record != [] {
      CanonicalReadsBack(record[0].key, record[0].value);
      FieldsReadBack(data[record[0].key := Intended(record[0].value)], record[1..]);
      assert EncodedRecord(record)[1..] == EncodedRecord(record[1..]);
    }
  }

  /** Printing a record of canonical values above any body and parsing the text gives the record and the body back. */
  lemma RecordRoundTrip(record: seq<Slot>, body: string)
    requires IsRecord(record)
    ensures forall i :: 0 <= i < |record| ==> FieldFits(EncodedRecord(record)[i])
    ensures ParsedLines(SplitLines(Document(EncodedRecord(record), body)))
         == Parsed(IntendedRecord(map[], record), body)
  {
    hide *;
    FieldsReadBack(map[], record);
    DocumentRoundTrip(EncodedRecord(record), body);
  }
}
