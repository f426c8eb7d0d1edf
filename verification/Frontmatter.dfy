/** The frontmatter subset: scalars, inline lists, block lists, and block lists of flat maps. */
module Frontmatter {
  import opened Prelude
  import opened Text

  datatype Item = ItemText(text: string) | ItemMap(fields: map<string, string>)

  datatype Value = Text(text: string) | Null | Bool(b: bool) | Number(n: int) | List(items: seq<Item>)

  type Data = map<string, Value>

  // ----- Characters -----

  predicate IdentStart(c: char) { 'A' <= c <= 'Z' || 'a' <= c <= 'z' || c == '_' }

  predicate IdentPart(c: char) { IdentStart(c) || '0' <= c <= '9' }

  predicate IsDigit(c: char) { '0' <= c <= '9' }

  /** What `.` does not match. */
  predicate IsTerminator(c: char) { c == '\n' || c == '\r' || c == '\U{2028}' || c == '\U{2029}' }

  predicate OneLine(s: string) {
    forall i :: 0 <= i < |s| ==> !IsTerminator(s[i])
  }

  // ----- The expressions that recognise lines -----

  function IdentEnd(s: string, i: nat): (e: nat)
    requires i <= |s|
    ensures i <= e <= |s|
    decreases |s| - i
  {
    if i < |s| && IdentPart(s[i]) then IdentEnd(s, i + 1) else i
  }

  function SkipSpaces(s: string, i: nat): (e: nat)
    requires i <= |s|
    ensures i <= e <= |s|
    decreases |s| - i
  {
    if i < |s| && IsSpace(s[i]) then SkipSpaces(s, i + 1) else i
  }

  datatype Pair = Pair(key: string, rest: string)

  /** An identifier at `i` directly followed by a colon, and everything after the colon. */
  function KeyAt(s: string, i: nat): Option<Pair>
    requires i <= |s|
  {
    var e := IdentEnd(s, i);
    if i < e < |s| && IdentStart(s[i]) && s[e] == ':' then Some(Pair(s[i..e], s[e + 1..])) else None
  }

  /** `key: rest` at the start of a line. */
  function KeyLine(line: string): Option<Pair> {
    match KeyAt(line, 0)
    case None => None
    case Some(p) => if OneLine(p.rest) then Some(p) else None
  }

  /** `key: value` inside an entry, blanks around the value ignored. */
  function EntryPair(s: string, i: nat): Option<Pair>
    requires i <= |s|
  {
    match KeyAt(s, i)
    case None => None
    case Some(p) => if OneLine(TrimStart(p.rest)) then Some(Pair(p.key, Unquote(Trim(p.rest)))) else None
  }

  /** An indented dash followed by a blank. */
  predicate IsItemLine(line: string) {
    var s := SkipSpaces(line, 0);
    0 < s && s + 1 < |line| && line[s] == '-' && IsSpace(line[s + 1])
  }

  function EntryOf(line: string): string
    requires IsItemLine(line)
  {
    line[SkipSpaces(line, 0) + 2..]
  }

  /** An indented identifier, which continues a map entry when it is a pair. */
  function ContinuedPair(line: string): Option<Pair> {
    var s := SkipSpaces(line, 0);
    if 0 < s < |line| && IdentStart(line[s]) then EntryPair(line, s) else None
  }

  function Unquote(v: string): string {
    if |v| >= 2 && ((v[0] == '"' && v[|v| - 1] == '"') || (v[0] == '\'' && v[|v| - 1] == '\''))
    then v[1..|v| - 1] else v
  }

  // ----- Scalars and inline lists -----

  function ListElement(piece: string): seq<Item> {
    var v := Unquote(Trim(piece));
    if v == "" then [] else [ItemText(v)]
  }

  predicate AllDigits(s: string) { s != [] && forall i :: 0 <= i < |s| ==> IsDigit(s[i]) }

  predicate IsInteger(s: string) { AllDigits(s) || (s != [] && s[0] == '-' && AllDigits(s[1..])) }

  function DigitValue(c: char): nat {
    if IsDigit(c) then c as int - '0' as int else 0
  }

  function DigitsValue(s: string): nat {
    if s == [] then 0 else 10 * DigitsValue(s[..|s| - 1]) + DigitValue(s[|s| - 1])
  }

  function IntegerValue(s: string): int {
    if s != [] && s[0] == '-' then -(DigitsValue(s[1..]) as int) else DigitsValue(s)
  }

  function ScalarOrInlineList(raw: string): Value {
    if raw != [] && raw[0] == '[' && raw[|raw| - 1] == ']' then
      var inner := if |raw| >= 2 then Trim(raw[1..|raw| - 1]) else "";
      if inner == "" then List([]) else List(Collect(SplitOn(inner, ','), ListElement))
    else if raw == "null" || raw == "~" then Null
    else if raw == "true" then Bool(true)
    else if raw == "false" then Bool(false)
    else if IsInteger(raw) then Number(IntegerValue(raw))
    else Text(Unquote(raw))
  }

  // ----- Blocks -----

  datatype Pairs = Pairs(fields: map<string, string>, next: nat)

  datatype Items = Items(items: seq<Item>, next: nat)

  function ParsePairs(lines: seq<string>, i: nat, obj: map<string, string>): (r: Pairs)
    requires i <= |lines|
    ensures i <= r.next <= |lines|
    decreases |lines| - i
  {
    if i == |lines| || ContinuedPair(lines[i]).None? then Pairs(obj, i)
    else
      var p := ContinuedPair(lines[i]).value;
      ParsePairs(lines, i + 1, obj[p.key := p.rest])
  }

  function ParseItems(lines: seq<string>, i: nat, items: seq<Item>): (r: Items)
    requires i <= |lines|
    ensures i <= r.next <= |lines|
    decreases |lines| - i
  {
    if i == |lines| || !IsItemLine(lines[i]) then Items(items, i)
    else
      var entry := EntryOf(lines[i]);
      match EntryPair(entry, 0)
      case None => ParseItems(lines, i + 1, items + [ItemText(Unquote(Trim(entry)))])
      case Some(p) =>
        var more := ParsePairs(lines, i + 1, map[p.key := p.rest]);
        ParseItems(lines, more.next, items + [ItemMap(more.fields)])
  }

  predicate IsSkipped(line: string) {
    Trim(line) == "" || Trim(line)[0] == '#'
  }

  /** None when a line cannot be parsed. */
  function ParseFrom(lines: seq<string>, i: nat, data: Data): Option<Data>
    requires i <= |lines|
    decreases |lines| - i
  {
    if i == |lines| then Some(data)
    else if IsSkipped(lines[i]) then ParseFrom(lines, i + 1, data)
    else match KeyLine(lines[i])
      case None => None
      case Some(p) =>
        if Trim(p.rest) != "" then ParseFrom(lines, i + 1, data[p.key := ScalarOrInlineList(Trim(p.rest))])
        else
          var r := ParseItems(lines, i + 1, []);
          ParseFrom(lines, r.next, data[p.key := if r.items == [] then Text("") else List(r.items)])
  }

  method ReadPairs(lines: seq<string>, from: nat, first: Pair) returns (obj: map<string, string>, i: nat)
    requires from <= |lines|
    ensures Pairs(obj, i) == ParsePairs(lines, from, map[first.key := first.rest])
  {
    obj, i := map[first.key := first.rest], from;
    while i < |lines|
      invariant from <= i <= |lines|
      invariant ParsePairs(lines, from, map[first.key := first.rest]) == ParsePairs(lines, i, obj)
    {
      var pair := ContinuedPair(lines[i]);
      if pair.None? { break; }
      obj := obj[pair.value.key := pair.value.rest];
      i := i + 1;
    }
  }

  method ReadItems(lines: seq<string>, from: nat) returns (items: seq<Item>, i: nat)
    requires from <= |lines|
    ensures Items(items, i) == ParseItems(lines, from, [])
  {
    items, i := [], from;
    while i < |lines| && IsItemLine(lines[i])
      invariant from <= i <= |lines| && ParseItems(lines, from, []) == ParseItems(lines, i, items)
      decreases |lines| - i
    {
      var entry := EntryOf(lines[i]);
      var first := EntryPair(entry, 0);
      if first.None? {
        items := items + [ItemText(Unquote(Trim(entry)))];
        i := i + 1;
      } else {
        var obj, next := ReadPairs(lines, i + 1, first.value);
        items := items + [ItemMap(obj)];
        i := next;
      }
    }
  }

  method ParseBlock(lines: seq<string>) returns (r: Option<Data>)
    ensures r == ParseFrom(lines, 0, map[])
  {
    hide ScalarOrInlineList, Trim, KeyLine, IsSkipped, ParseItems;
    var data: Data := map[];
    var i := 0;
    while i < |lines|
      invariant 0 <= i <= |lines| && ParseFrom(lines, 0, map[]) == ParseFrom(lines, i, data)
      decreases |lines| - i
    {
      if IsSkipped(lines[i]) { i := i + 1; continue; }
      var pair := KeyLine(lines[i]);
      if pair.None? { return None; }
      var inline := Trim(pair.value.rest);
      if inline != "" {
        data := data[pair.value.key := ScalarOrInlineList(inline)];
        i := i + 1;
      } else {
        var items, next := ReadItems(lines, i + 1);
        data := data[pair.value.key := if items == [] then Text("") else List(items)];
        i := next;
      }
    }
    return Some(data);
  }

  // ----- The whole document -----

  const OPEN := "---"

  datatype Parsed = NoFrontmatter | Unterminated | Unparsable | Parsed(data: Data, body: string)

  function IndexOfClose(lines: seq<string>, i: nat): (r: Option<nat>)
    requires i <= |lines|
    ensures r.Some? ==> i <= r.value < |lines|
    decreases |lines| - i
  {
    if i == |lines| then None else if lines[i] == OPEN then Some(i) else IndexOfClose(lines, i + 1)
  }

  function ParsedLines(lines: seq<string>): Parsed {
    if lines == [] || Trim(lines[0]) != OPEN then NoFrontmatter
    else match IndexOfClose(lines, 1)
      case None => Unterminated
      case Some(close) =>
        match ParseFrom(lines[1..close], 0, map[])
        case None => Unparsable
        case Some(data) => Parsed(data, Join(lines[close + 1..], "\n"))
  }

  method ParseFrontmatter(source: string) returns (r: Parsed)
    ensures r == ParsedLines(SplitLines(source))
  {
    var lines := SplitLines(source);
    if Trim(lines[0]) != OPEN { return NoFrontmatter; }
    var close := IndexOfClose(lines, 1);
    if close.None? { return Unterminated; }
    var data := ParseBlock(lines[1..close.value]);
    if data.None? { return Unparsable; }
    return Parsed(data.value, Join(lines[close.value + 1..], "\n"));
  }

  /** What a document is read as: a first line that is the delimiter but for white space opens the block, the first
      later line that is exactly the delimiter closes it, and the body is what follows. */
  lemma OutcomeIff(lines: seq<string>, close: nat)
    ensures ParsedLines(lines).NoFrontmatter? <==> lines == [] || Trim(lines[0]) != "---"
    ensures ParsedLines(lines).Unterminated? <==>
              lines != [] && Trim(lines[0]) == "---" && forall i :: 1 <= i < |lines| ==> lines[i] != "---"
    ensures && lines != [] && Trim(lines[0]) == "---"
            && 1 <= close < |lines| && lines[close] == "---" && (forall i :: 1 <= i < close ==> lines[i] != "---") ==>
              ParsedLines(lines) == match ParseFrom(lines[1..close], 0, map[])
                                    case None => Unparsable
                                    case Some(data) => Parsed(data, Join(lines[close + 1..], "\n"))
  {
    hide Trim, ParseFrom, Join;
    if lines != [] { CloseIff(lines, 1, close); }
  }

  lemma {:induction false} CloseIff(lines: seq<string>, i: nat, close: nat)
    requires i <= |lines|
    ensures IndexOfClose(lines, i) == None <==> forall k :: i <= k < |lines| ==> lines[k] != "---"
    ensures i <= close < |lines| && lines[close] == "---" && (forall k :: i <= k < close ==> lines[k] != "---") ==>
              IndexOfClose(lines, i) == Some(close)
    decreases |lines| - i
  {
    if i < |lines| { CloseIff(lines, i + 1, close); }
  }

  // ----- Reference fields -----

  /** An element of a field read as a list: text, a flat map, or a value that is neither. */
  datatype Element = Str(text: string) | Obj(fields: map<string, string>) | Other

  function ElementOf(item: Item): Element {
    match item
    case ItemText(t) => Str(t)
    case ItemMap(m) => Obj(m)
  }

  /** A field as a list: a lone value counts as one element, an absent or empty one as none. */
  function AsList(value: Option<Value>): seq<Element> {
    match value
    case None => []
    case Some(Null) => []
    case Some(Text(t)) => if t == "" then [] else [Str(t)]
    case Some(List(items)) => seq(|items|, i requires 0 <= i < |items| => ElementOf(items[i]))
    case Some(_) => [Other]
  }

  function Lookup(data: Data, key: string): Option<Value> {
    if key in data then Some(data[key]) else None
  }

  /** What a field reads as when read as a list. */
  lemma ListedIff(value: Option<Value>, e: Element)
    ensures e in AsList(value) <==>
              && value.Some?
              && match value.value
                 case Null => false
                 case Text(t) => t != "" && e == Str(t)
                 case List(items) =>
                   (e.Str? && ItemText(e.text) in items) || (e.Obj? && ItemMap(e.fields) in items)
                 case Bool(_) => e == Other
                 case Number(_) => e == Other
  {
    if value.Some? && value.value.List? {
      var items, all := value.value.items, AsList(value);
      if e in all {
        var i :| 0 <= i < |all| && all[i] == e;
        assert items[i] in items;
      }
      if e.Str? && ItemText(e.text) in items {
        var i :| 0 <= i < |items| && items[i] == ItemText(e.text);
        assert all[i] == e;
      }
      if e.Obj? && ItemMap(e.fields) in items {
        var i :| 0 <= i < |items| && items[i] == ItemMap(e.fields);
        assert all[i] == e;
      }
    }
  }

  lemma EmptyIff(value: Option<Value>)
    ensures AsList(value) == [] <==> value.None? || value.value in {Null, Text(""), List([])}
  {
  }

  // ----- Scalars, literally -----

  /** A raw value that is no inline list: the two spellings of null, the two truth values, decimal digits with an
      optional minus, or text without its quotes. */
  lemma ScalarIs(raw: string)
    requires !(raw != "" && raw[0] == '[' && raw[|raw| - 1] == ']')
    ensures ScalarOrInlineList(raw) == Null <==> raw == "null" || raw == "~"
    ensures ScalarOrInlineList(raw) == Bool(true) <==> raw == "true"
    ensures ScalarOrInlineList(raw) == Bool(false) <==> raw == "false"
    ensures ScalarOrInlineList(raw).Number? <==>
              var digits := if raw != "" && raw[0] == '-' then raw[1..] else raw;
              digits != "" && forall i :: 0 <= i < |digits| ==> '0' <= digits[i] <= '9'
    ensures ScalarOrInlineList(raw).Text? ==> ScalarOrInlineList(raw) == Text(Unquote(raw))
    ensures !ScalarOrInlineList(raw).List?
  {
    assert "null"[0] == 'n' && "true"[0] == 't' && "false"[0] == 'f' && "~"[0] == '~';
    assert "null" != "true" && "null" != "false" && "true" != "false";
  }

  /** One pair of equal quotes around a text is taken off, and nothing else. */
  lemma UnquoteIff(v: string)
    ensures Unquote(v) != v <==> |v| >= 2 && v[0] == v[|v| - 1] && (v[0] == '"' || v[0] == '\'')
    ensures Unquote(v) != v ==> v == [v[0]] + Unquote(v) + [v[0]]
  {
  }
}
