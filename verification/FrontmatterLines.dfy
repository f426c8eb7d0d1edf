/** What each kind of frontmatter line looks like, in terms of its characters alone. */
module FrontmatterLines {
  import opened Prelude
  import opened Text
  import opened Frontmatter
  import opened FrontmatterPrinter

  // ----- Characters -----

  ghost predicate StartsName(c: char) {
    c in {
      'A', 'B', 'C', 'D', 'E', 'F', 'G', 'H', 'I', 'J', 'K', 'L', 'M', 'N', 'O', 'P', 'Q', 'R',
      'S', 'T', 'U', 'V', 'W', 'X', 'Y', 'Z', 'a', 'b', 'c', 'd', 'e', 'f', 'g', 'h', 'i', 'j',
      'k', 'l', 'm', 'n', 'o', 'p', 'q', 'r', 's', 't', 'u', 'v', 'w', 'x', 'y', 'z', '_'
    }
  }

  ghost predicate InName(c: char) {
    StartsName(c) || c in {'0', '1', '2', '3', '4', '5', '6', '7', '8', '9'}
  }

  /** A letter or underscore, then letters, digits and underscores. */
  ghost predicate IsName(k: string) {
    k != "" && StartsName(k[0]) && forall i :: 0 <= i < |k| ==> InName(k[i])
  }

  /** None of the four line terminators. */
  ghost predicate Unended(s: string) {
    '\n' !in s && '\r' !in s && '\U{2028}' !in s && '\U{2029}' !in s
  }

  lemma NameCharsAre(c: char)
    ensures IdentStart(c) <==> StartsName(c)
    ensures IdentPart(c) <==> InName(c)
  {
  }

  lemma IsNameIff(k: string)
    ensures IsIdent(k) <==> IsName(k)
  {
    hide IdentStart, IdentPart, StartsName, InName;
    if k != "" { NameCharsAre(k[0]); }
    forall i | 0 <= i < |k|
      ensures IdentPart(k[i]) <==> InName(k[i])
    {
      NameCharsAre(k[i]);
    }
  }

  lemma UnendedIff(s: string)
    ensures OneLine(s) <==> Unended(s)
  {
  }

  // ----- Lines -----

  lemma KeyAtIs(s: string, i: nat, k: string, rest: string)
    requires i <= |s|
    ensures KeyAt(s, i) == Some(Pair(k, rest)) <==> IsName(k) && s[i..] == k + ":" + rest
  {
    hide IdentPart, IdentStart, IsName;
    IsNameIff(k);
    if KeyAt(s, i) == Some(Pair(k, rest)) {
      var e := IdentEnd(s, i);
      IdentEndIff(s, i, e);
      assert s[i..] == s[i..e] + ":" + s[e + 1..];
      assert k[0] == s[i] && forall j :: 0 <= j < |k| ==> k[j] == s[i + j];
    }
    if IsName(k) && s[i..] == k + ":" + rest {
      KeyAtKey(s[..i], k, rest);
      assert s == s[..i] + (k + ":" + rest);
    }
  }

  /** A field line: a name, a colon, and the rest of the line. */
  lemma KeyLineIff(line: string, k: string, rest: string)
    ensures KeyLine(line) == Some(Pair(k, rest)) <==> line == k + ":" + rest && IsName(k) && Unended(rest)
  {
    hide KeyAt, IsName, Unended, OneLine;
    assert line[0..] == line;
    KeyAtIs(line, 0, k, rest);
    UnendedIff(rest);
  }

  /** An entry line: white space, a dash, one more blank, and the entry. */
  ghost predicate IsItem(line: string, pad: string, blank: char, entry: string) {
    && line == pad + "-" + [blank] + entry
    && pad != "" && IsSpace(blank) && forall i :: 0 <= i < |pad| ==> IsSpace(pad[i])
  }

  lemma ItemLineIs(line: string, pad: string, blank: char, entry: string)
    requires IsItem(line, pad, blank, entry)
    ensures IsItemLine(line) && EntryOf(line) == entry
  {
    assert forall i :: 0 <= i < |pad| ==> line[i] == pad[i];
    assert line[|pad|] == '-' && line[|pad| + 1] == blank;
    SkipSpacesIff(line, 0, |pad|);
    assert line[|pad| + 2..] == entry;
  }

  lemma OnlyItemsAreItems(line: string)
    requires IsItemLine(line)
    ensures var s := SkipSpaces(line, 0); IsItem(line, line[..s], line[s + 1], line[s + 2..])
  {
    var s := SkipSpaces(line, 0);
    SkipSpacesIff(line, 0, s);
    assert line == line[..s] + "-" + [line[s + 1]] + line[s + 2..];
  }

  /** A pair in an entry, and what it means. */
  lemma EntryPairIs(s: string, i: nat, k: string, rest: string)
    requires i <= |s| && IsName(k) && s[i..] == k + ":" + rest
    ensures EntryPair(s, i) == if Unended(TrimStart(rest)) then Some(Pair(k, Unquote(Trim(rest)))) else None
  {
    hide KeyAt, IsName, Unended, OneLine, Trim, Unquote, TrimStart;
    KeyAtIs(s, i, k, rest);
    UnendedIff(TrimStart(rest));
  }

  /** No name and colon, no pair. */
  lemma NoEntryPair(s: string, i: nat)
    requires i <= |s| && forall k, rest :: IsName(k) ==> s[i..] != k + ":" + rest
    ensures EntryPair(s, i) == None
  {
    hide IsName, Unended, OneLine, Trim, Unquote, TrimStart, IdentEnd;
    if KeyAt(s, i).Some? { KeyAtIs(s, i, KeyAt(s, i).value.key, KeyAt(s, i).value.rest); }
  }

  /** A line that continues a map: white space, then a pair that starts right there. */
  lemma ContinuedIs(line: string, pad: string, text: string)
    requires line == pad + text && pad != "" && forall i :: 0 <= i < |pad| ==> IsSpace(pad[i])
    requires text != "" && !IsSpace(text[0])
    ensures ContinuedPair(line) == if StartsName(text[0]) then EntryPair(line, |pad|) else None
  {
    hide EntryPair, IdentStart, StartsName;
    assert forall i :: 0 <= i < |pad| ==> line[i] == pad[i];
    assert line[|pad|] == text[0];
    SkipSpacesIff(line, 0, |pad|);
    NameCharsAre(text[0]);
  }
}
