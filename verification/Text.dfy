/** Characters, trimming and lines. */
module Text {
  import opened Prelude

  /** White space in the sense of the host language. */
  predicate IsSpace(c: char) {
    || '\t' <= c <= '\r' || c == ' ' || c == '\U{00A0}' || c == '\U{1680}' || '\U{2000}' <= c <= '\U{200A}'
    || c == '\U{2028}' || c == '\U{2029}' || c == '\U{202F}' || c == '\U{205F}' || c == '\U{3000}' || c == '\U{FEFF}'
  }

  function TrimStart(s: string): string {
    if s != [] && IsSpace(s[0]) then TrimStart(s[1..]) else s
  }

  function TrimEnd(s: string): string {
    if s != [] && IsSpace(s[|s| - 1]) then TrimEnd(s[..|s| - 1]) else s
  }

  function Trim(s: string): string {
    TrimEnd(TrimStart(s))
  }

  lemma WhiteSpaceIs(c: char)
    ensures IsSpace(c) <==>
              c in {'\t', '\n', '\U{000B}', '\U{000C}', '\r', ' ', '\U{00A0}', '\U{1680}', '\U{2000}', '\U{2001}',
                    '\U{2002}', '\U{2003}', '\U{2004}', '\U{2005}', '\U{2006}', '\U{2007}', '\U{2008}', '\U{2009}',
                    '\U{200A}', '\U{2028}', '\U{2029}', '\U{202F}', '\U{205F}', '\U{3000}', '\U{FEFF}'}
  {
  }

  lemma {:induction false} TrimStartIs(a: string, t: string)
    requires (forall i :: 0 <= i < |a| ==> IsSpace(a[i])) && (t != "" ==> !IsSpace(t[0]))
    ensures TrimStart(a + t) == t
  {
    if a == "" {
      assert a + t == t;
    } else {
      TrimStartIs(a[1..], t);
      ConcatFirst(a, t);
    }
  }

  lemma {:induction false} TrimEndIs(t: string, b: string)
    requires (forall i :: 0 <= i < |b| ==> IsSpace(b[i])) && (t != "" ==> !IsSpace(t[|t| - 1]))
    ensures TrimEnd(t + b) == t
  {
    if b == "" {
      assert t + b == t;
    } else {
      var init, c := b[..|b| - 1], b[|b| - 1];
      TrimEndIs(t, init);
      ConcatLast(t, b);
      assert ((t + init) + [c])[..|t + init|] == t + init;
    }
  }

  /** Trimming takes away the white space around a text, and nothing else. */
  lemma TrimIs(a: string, t: string, b: string)
    requires (forall i :: 0 <= i < |a| ==> IsSpace(a[i])) && (forall i :: 0 <= i < |b| ==> IsSpace(b[i]))
    requires t != "" ==> !IsSpace(t[0]) && !IsSpace(t[|t| - 1])
    ensures Trim(a + t + b) == t
  {
    hide IsSpace, TrimStart, TrimEnd;
    if t == "" {
      assert a + t + b == a + b + "";
      TrimStartIs(a + b, "");
      TrimEndIs("", "");
      assert "" + "" == "";
    } else {
      ConcatAssociates(a, t, b);
      TrimStartIs(a, t + b);
      TrimEndIs(t, b);
    }
  }

  /** Both line endings, and a lone carriage return, become a newline. */
  function Normalised(s: string): string {
    if s == [] then []
    else
      var init, c := s[..|s| - 1], s[|s| - 1];
      if c == '\n' && init != [] && init[|init| - 1] == '\r' then Normalised(init)
      else if c == '\r' then Normalised(init) + "\n"
      else Normalised(init) + [c]
  }

  function AddChar(pieces: seq<string>, sep: char, c: char): (r: seq<string>)
    requires |pieces| > 0
    ensures |r| > 0
  {
    if c == sep then pieces + [""] else pieces[..|pieces| - 1] + [pieces[|pieces| - 1] + [c]]
  }

  /** The pieces between separators; always at least one. */
  function SplitOn(s: string, sep: char): (r: seq<string>)
    ensures |r| > 0
  {
    if s == [] then [""] else AddChar(SplitOn(s[..|s| - 1], sep), sep, s[|s| - 1])
  }

  function SplitLines(s: string): (r: seq<string>)
    ensures |r| > 0
  {
    SplitOn(s, '\n')
  }

  function Lines(text: string): (r: seq<string>)
    ensures |r| > 0
  {
    SplitLines(Normalised(text))
  }

  function Join(pieces: seq<string>, sep: string): string {
    if pieces == [] then ""
    else if |pieces| == 1 then pieces[0]
    else Join(pieces[..|pieces| - 1], sep) + sep + pieces[|pieces| - 1]
  }

  lemma JoinNext(pieces: seq<string>, sep: string)
    requires |pieces| > 1
    ensures Join(pieces, sep) == Join(pieces[..|pieces| - 1], sep) + sep + pieces[|pieces| - 1]
  {
  }

  lemma AddCharAfter(a: seq<string>, b: seq<string>, sep: char, c: char)
    requires |b| > 0
    ensures AddChar(a + b, sep, c) == a + AddChar(b, sep, c)
  {
  }

  lemma SplitOneMore(s: string, sep: char, c: char)
    ensures SplitOn(s + [c], sep) == AddChar(SplitOn(s, sep), sep, c)
  {
    assert (s + [c])[..|s|] == s;
  }

  lemma {:induction false} SplitAt(a: string, sep: char, b: string)
    ensures SplitOn(a + [sep] + b, sep) == SplitOn(a, sep) + SplitOn(b, sep)
  {
    if b == [] {
      assert a + [sep] + b == a + [sep];
      SplitOneMore(a, sep, sep);
    } else {
      var init, c := b[..|b| - 1], b[|b| - 1];
      SplitAt(a, sep, init);
      assert b == init + [c];
      assert a + [sep] + b == (a + [sep] + init) + [c];
      SplitOneMore(a + [sep] + init, sep, c);
      SplitOneMore(init, sep, c);
      AddCharAfter(SplitOn(a, sep), SplitOn(init, sep), sep, c);
    }
  }

  lemma NormalisedNext(s: string, c: char)
    ensures Normalised(s + [c]) == if c == '\n' && s != [] && s[|s| - 1] == '\r' then Normalised(s)
                                   else if c == '\r' then Normalised(s) + "\n"
                                   else Normalised(s) + [c]
  {
    hide Normalised;
    assert (s + [c])[..|s|] == s;
    NormalisedLast(s + [c], s, c);
  }

  lemma NormalisedLast(t: string, s: string, c: char)
    requires t != "" && t[..|t| - 1] == s && t[|t| - 1] == c
    ensures Normalised(t) == if c == '\n' && s != [] && s[|s| - 1] == '\r' then Normalised(s)
                             else if c == '\r' then Normalised(s) + "\n"
                             else Normalised(s) + [c]
  {
  }

  lemma {:induction false} NormalisedAfterNewline(head: string, b: string)
    requires head != "" && head[|head| - 1] == '\n'
    ensures Normalised(head + b) == Normalised(head) + Normalised(b)
  {
    if b == [] {
      assert head + b == head;
    } else {
      hide Normalised;
      var init, c := b[..|b| - 1], b[|b| - 1];
      NormalisedAfterNewline(head, init);
      ConcatLast(head, b);
      assert (head + init)[|head + init| - 1] == if init == [] then '\n' else init[|init| - 1];
      NormalisedNext(head + init, c);
      NormalisedNext(init, c);
      if c == '\r' {
        ConcatAssociates(Normalised(head), Normalised(init), "\n");
      } else {
        ConcatAssociates(Normalised(head), Normalised(init), [c]);
      }
    }
  }

  lemma NormalisedNewline(text: string)
    ensures var closes := text != [] && text[|text| - 1] == '\r';
            Normalised(text + "\n") == if closes then Normalised(text) else Normalised(text) + "\n"
  {
    hide Normalised;
    NormalisedNext(text, '\n');
  }

  /** Appending lines to a text appends them to its lines, once a dangling carriage return is closed. */
  lemma AppendedLines(text: string, more: string)
    ensures Lines(text + "\n" + more)
         == (if text != [] && text[|text| - 1] == '\r' then Lines(text)[..|Lines(text)| - 1] else Lines(text))
           + Lines(more)
    ensures text != [] && text[|text| - 1] == '\r' ==> Lines(text)[|Lines(text)| - 1] == ""
  {
    NormalisedAfterNewline(text + "\n", more);
    NormalisedNewline(text);
    if text != [] && text[|text| - 1] == '\r' {
      var before := Normalised(text[..|text| - 1]);
      assert Normalised(text) == before + "\n";
      hide Normalised, SplitOn;
      SplitAt(before, '\n', Normalised(more));
      SplitOneMore(before, '\n', '\n');
    } else {
      hide Normalised, SplitOn;
      SplitAt(Normalised(text), '\n', Normalised(more));
    }
  }

  lemma {:induction false} SplitOnePiece(s: string, sep: char)
    requires sep !in s
    ensures SplitOn(s, sep) == [s]
  {
    if s != [] {
      hide SplitOn;
      var init, c := s[..|s| - 1], s[|s| - 1];
      SplitOnePiece(init, sep);
      assert s == init + [c];
      SplitOneMore(init, sep, c);
    }
  }

  /** Pieces joined by the separator split back into themselves. */
  lemma {:induction false} SplitUndoesJoin(pieces: seq<string>, sep: char)
    requires pieces != [] && forall i :: 0 <= i < |pieces| ==> sep !in pieces[i]
    ensures SplitOn(Join(pieces, [sep]), sep) == pieces
  {
    var n := |pieces| - 1;
    SplitOnePiece(pieces[n], sep);
    if n > 0 {
      SplitUndoesJoin(pieces[..n], sep);
      SplitAt(Join(pieces[..n], [sep]), sep, pieces[n]);
      assert pieces == pieces[..n] + [pieces[n]];
    }
  }

  lemma JoinAddChar(pieces: seq<string>, sep: char, c: char)
    requires |pieces| > 0
    ensures Join(AddChar(pieces, sep, c), [sep]) == Join(pieces, [sep]) + [c]
  {
    var n, more := |pieces| - 1, AddChar(pieces, sep, c);
    if c == sep {
      hide Join;
      JoinNext(more, [sep]);
      assert more[..|pieces|] == pieces && more[|pieces|] == "";
    } else if n > 0 {
      hide Join;
      JoinNext(more, [sep]);
      JoinNext(pieces, [sep]);
      assert more[..n] == pieces[..n] && more[n] == pieces[n] + [c];
      ConcatAssociates(Join(pieces[..n], [sep]) + [sep], pieces[n], [c]);
    }
  }

  /** And the pieces of any text join back into it. */
  lemma {:induction false} JoinUndoesSplit(s: string, sep: char)
    ensures Join(SplitOn(s, sep), [sep]) == s
  {
    if s != [] {
      var init := s[..|s| - 1];
      JoinUndoesSplit(init, sep);
      JoinAddChar(SplitOn(init, sep), sep, s[|s| - 1]);
    }
  }

  /** Pieces are free of the separator. */
  lemma {:induction false} PiecesAreFree(s: string, sep: char, i: nat)
    requires i < |SplitOn(s, sep)|
    ensures sep !in SplitOn(s, sep)[i]
  {
    if s != [] {
      var before := SplitOn(s[..|s| - 1], sep);
      PiecesAreFree(s[..|s| - 1], sep, if i < |before| then i else 0);
    }
  }

  // ----- What the lines of a text are -----

  predicate Unbroken(s: string) { '\n' !in s && '\r' !in s }

  predicate IsEnd(s: string) { s == "\n" || s == "\r\n" || s == "\r" }

  /** Lines, each with its own end. */
  function Ended(lines: seq<string>, ends: seq<string>): string
    requires |lines| == |ends|
  {
    if lines == [] then ""
    else Ended(lines[..|lines| - 1], ends[..|ends| - 1]) + lines[|lines| - 1] + ends[|ends| - 1]
  }

  lemma {:induction false} NormalisedFree(head: string, s: string)
    requires Unbroken(s)
    ensures Normalised(head + s) == Normalised(head) + s
  {
    if s == "" {
      assert head + s == head && Normalised(head) + s == Normalised(head);
    } else {
      hide Normalised;
      var init, c := s[..|s| - 1], s[|s| - 1];
      NormalisedFree(head, init);
      NormalisedNext(head + init, c);
      ConcatLast(head, s);
      ConcatLast(Normalised(head), s);
    }
  }

  lemma OneMoreEnd(text: string, end: string, rest: string)
    requires IsEnd(end) && Unbroken(rest)
    requires text != "" && text[|text| - 1] == '\r' ==> end != "\n"
    ensures Lines(text + end + rest) == Lines(text) + [rest]
  {
    hide Normalised, SplitOn;
    assert Normalised(text + end) == Normalised(text) + "\n" by {
      if end == "\n" {
        NormalisedNext(text, '\n');
      } else {
        NormalisedNext(text, '\r');
        NormalisedNext(text + "\r", '\n');
        assert text + "\r\n" == (text + "\r") + "\n";
      }
    }
    NormalisedFree(text + end, rest);
    SplitAt(Normalised(text), '\n', rest);
    SplitOnePiece(rest, '\n');
  }

  /** Lines without breaks and their ends.  A newline right after a carriage return belongs to the same end. */
  ghost predicate Closed(lines: seq<string>, ends: seq<string>) {
    && |lines| == |ends|
    && (forall i :: 0 <= i < |lines| ==> Unbroken(lines[i]) && IsEnd(ends[i]))
    && forall i :: 0 < i < |lines| && lines[i] == "" && ends[i] == "\n" ==> ends[i - 1] != "\r"
  }

  lemma ClosedLast(lines: seq<string>, ends: seq<string>)
    requires Closed(lines, ends) && lines != []
    ensures var n := |lines| - 1;
            && Closed(lines[..n], ends[..n]) && Unbroken(lines[n]) && IsEnd(ends[n])
            && var text := Ended(lines[..n], ends[..n]) + lines[n];
               text != "" && text[|text| - 1] == '\r' ==> ends[n] != "\n"
  {
    var n := |lines| - 1;
    var text := Ended(lines[..n], ends[..n]) + lines[n];
    if text != "" && text[|text| - 1] == '\r' { LastOf(lines[..n], ends[..n], lines[n]); }
  }

  /** A line ends with a newline, a carriage return, or both; what follows the last end is a line too. */
  lemma {:induction false} LinesAre(lines: seq<string>, ends: seq<string>, rest: string)
    requires Closed(lines, ends) && Unbroken(rest)
    ensures Lines(Ended(lines, ends) + rest) == lines + [rest]
  {
    if lines == [] {
      NormalisedFree("", rest);
      SplitOnePiece(rest, '\n');
      assert Normalised("") == "" && "" + rest == rest;
    } else {
      ClosedLast(lines, ends);
      assert |lines| == |ends|;
      hide Lines, Closed, Unbroken, IsEnd;
      var n := |lines| - 1;
      LinesAre(lines[..n], ends[..n], lines[n]);
      ConcatLast([], lines);
      OneMoreEnd(Ended(lines[..n], ends[..n]) + lines[n], ends[n], rest);
    }
  }

  lemma LastOf(lines: seq<string>, ends: seq<string>, rest: string)
    requires |lines| == |ends| && Unbroken(rest) && forall i :: 0 <= i < |ends| ==> IsEnd(ends[i])
    requires var text := Ended(lines, ends) + rest; text != "" && text[|text| - 1] == '\r'
    ensures rest == "" && lines != [] && ends[|ends| - 1] == "\r"
  {
    var text := Ended(lines, ends) + rest;
    if rest == "" { assert text == Ended(lines, ends); }
  }

  // ----- The order of code units -----

  predicate CodeLeq(a: string, b: string) {
    a == "" || (b != "" && (a[0] < b[0] || (a[0] == b[0] && CodeLeq(a[1..], b[1..]))))
  }

  lemma {:induction false} SamePrefix(p: string, a: string, b: string)
    ensures CodeLeq(p + a, p + b) <==> CodeLeq(a, b)
  {
    if p == "" {
      assert p + a == a && p + b == b;
    } else {
      SamePrefix(p[1..], a, b);
      ConcatFirst(p, a);
      ConcatFirst(p, b);
    }
  }
}
