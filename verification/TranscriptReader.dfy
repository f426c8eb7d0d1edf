/** The incremental transcript reader: a chunked read that splits lines at newline bytes, keeps the
    unfinished tail as a carry buffer, and reports how far it got so that the next read can resume.

    What one line yields is a parameter: `parse` stands for the substring pre-check and the decoding.
 */
module TranscriptReader {
  import opened Prelude

  type Byte = x: int | 0 <= x < 256

  const NEWLINE: Byte := 10

  // ----- Complete lines, independently of any buffering -----

  /** The index of the first newline at or after `from`, or -1. */
  function IndexOf(s: seq<Byte>, from: nat): (r: int)
    requires from <= |s|
    ensures r == -1 || (from <= r < |s| && s[r] == NEWLINE)
    ensures forall i :: from <= i < (if r == -1 then |s| else r) ==> s[i] != NEWLINE
    decreases |s| - from
  {
    if from == |s| then -1 else if s[from] == NEWLINE then from else IndexOf(s, from + 1)
  }

  /** The lines that are terminated by a newline. */
  function Lines(data: seq<Byte>): seq<seq<Byte>> {
    if data == [] then []
    else
      var init := data[..|data| - 1];
      if data[|data| - 1] == NEWLINE then Lines(init) + [Tail(init)] else Lines(init)
  }

  /** What follows the last newline. */
  function Tail(data: seq<Byte>): seq<Byte> {
    if data == [] || data[|data| - 1] == NEWLINE then [] else Tail(data[..|data| - 1]) + [data[|data| - 1]]
  }

  /** The bytes up to and including the last newline. */
  function Consumed(data: seq<Byte>): (r: nat)
    ensures r <= |data|
  {
    if data == [] then 0
    else if data[|data| - 1] == NEWLINE then |data| else Consumed(data[..|data| - 1])
  }

  lemma {:induction false} TailIsTheRest(data: seq<Byte>)
    ensures data == data[..Consumed(data)] + Tail(data)
    ensures Consumed(data) > 0 ==> data[Consumed(data) - 1] == NEWLINE
    ensures NEWLINE !in Tail(data)
  {
    if data != [] && data[|data| - 1] != NEWLINE {
      var init, last := data[..|data| - 1], data[|data| - 1];
      TailIsTheRest(init);
      ConcatLast([], data);
      ConcatAssociates(init[..Consumed(init)], Tail(init), [last]);
      assert data[..Consumed(init)] == init[..Consumed(init)];
    }
  }

  lemma ConsumedEndsALine(data: seq<Byte>)
    ensures Consumed(data) > 0 ==> data[Consumed(data) - 1] == NEWLINE
  {
    TailIsTheRest(data);
  }

  function LineEvents<E>(parse: seq<Byte> -> seq<E>, line: seq<Byte>): seq<E> {
    if |line| > 0 then parse(line) else []
  }

  function EventsOf<E>(parse: seq<Byte> -> seq<E>, lines: seq<seq<Byte>>): seq<E> {
    if lines == [] then [] else LineEvents(parse, lines[0]) + EventsOf(parse, lines[1..])
  }

  function Flatten(chunks: seq<seq<Byte>>): seq<Byte> {
    if chunks == [] then [] else Flatten(chunks[..|chunks| - 1]) + chunks[|chunks| - 1]
  }

  lemma OneMoreByte(data: seq<Byte>, b: Byte)
    ensures Lines(data + [b]) == if b == NEWLINE then Lines(data) + [Tail(data)] else Lines(data)
    ensures Tail(data + [b]) == if b == NEWLINE then [] else Tail(data) + [b]
  {
    assert (data + [b])[..|data|] == data;
  }

  /** Splitting anywhere: the unfinished tail of the first part is completed by the second. */
  lemma {:induction false} LinesSplit(a: seq<Byte>, b: seq<Byte>)
    ensures Lines(a + b) == Lines(a) + Lines(Tail(a) + b)
    ensures Tail(a + b) == Tail(Tail(a) + b)
  {
    hide Lines, Tail;
    if b == [] {
      assert a + b == a && Tail(a) + b == Tail(a);
      TailIsTheRest(a);
      NoNewlineNoLine(Tail(a));
    } else {
      var n := |b| - 1;
      LinesSplit(a, b[..n]);
      OneMoreByte(a + b[..n], b[n]);
      OneMoreByte(Tail(a) + b[..n], b[n]);
      ConcatLast(a, b);
      ConcatLast(Tail(a), b);
    }
  }

  lemma {:induction false} NoNewlineNoLine(data: seq<Byte>)
    requires NEWLINE !in data
    ensures Lines(data) == [] && Tail(data) == data
  {
    if data != [] {
      NoNewlineNoLine(data[..|data| - 1]);
      assert data == data[..|data| - 1] + [data[|data| - 1]];
    }
  }

  /** A terminated line stands alone in front of whatever follows it. */
  lemma FirstLine(line: seq<Byte>, rest: seq<Byte>)
    requires NEWLINE !in line
    ensures Lines(line + [NEWLINE] + rest) == [line] + Lines(rest)
    ensures Tail(line + [NEWLINE] + rest) == Tail(rest)
  {
    NoNewlineNoLine(line);
    assert (line + [NEWLINE])[..|line|] == line;
    LinesSplit(line + [NEWLINE], rest);
    assert [] + rest == rest;
  }

  lemma FirstEvents<E>(parse: seq<Byte> -> seq<E>, lines: seq<seq<Byte>>)
    requires lines != []
    ensures EventsOf(parse, lines) == LineEvents(parse, lines[0]) + EventsOf(parse, lines[1..])
  {
  }

  lemma {:induction false} EventsConcat<E>(parse: seq<Byte> -> seq<E>, a: seq<seq<Byte>>, b: seq<seq<Byte>>)
    ensures EventsOf(parse, a + b) == EventsOf(parse, a) + EventsOf(parse, b)
  {
    if a == [] {
      assert a + b == b;
    } else {
      hide EventsOf, LineEvents;
      EventsConcat(parse, a[1..], b);
      FirstEvents(parse, a);
      FirstEvents(parse, a + b);
      ConcatFirst(a, b);
      ConcatAssociates(LineEvents(parse, a[0]), EventsOf(parse, a[1..]), EventsOf(parse, b));
    }
  }

  // ----- The reader -----

  datatype Read<+E> = Rewound(endByte: nat) | Progress(events: seq<E>, endByte: nat, bytesRead: nat)

  /** What a read of `data`, the bytes from `startByte` on, reports; no chunk appears in it. */
  function ReadOf<E>(parse: seq<Byte> -> seq<E>, size: nat, startByte: nat, data: seq<Byte>): Read<E> {
    if startByte > size then Rewound(size)
    else if startByte == size then Progress([], size, 0)
    else Progress(EventsOf(parse, Lines(data)), startByte + Consumed(data), Consumed(data))
  }

  /** The `data` callback on the carry and the next chunk: every line it completes, then the new carry. */
  method OnData<E>(parse: seq<Byte> -> seq<E>, buf: seq<Byte>)
    returns (events: seq<E>, carry: seq<Byte>, consumed: nat)
    ensures events == EventsOf(parse, Lines(buf)) && carry == Tail(buf) && consumed + |carry| == |buf|
  {
    hide Lines, Tail, EventsOf, IndexOf;
    events := [];
    consumed := 0;
    var searchFrom := 0;
    assert buf[0..] == buf;
    var newlineIdx := IndexOf(buf, searchFrom);
    while newlineIdx != -1
      invariant 0 <= searchFrom <= |buf| && newlineIdx == IndexOf(buf, searchFrom)
      invariant EventsOf(parse, Lines(buf)) == events + EventsOf(parse, Lines(buf[searchFrom..]))
      invariant Tail(buf) == Tail(buf[searchFrom..])
      invariant consumed == searchFrom
      decreases |buf| - searchFrom
    {
      var line := buf[searchFrom..newlineIdx];
      NextLine(parse, buf, searchFrom, newlineIdx);
      ghost var yielded := if |line| > 0 then parse(line) else [];
      assert (events + yielded) + EventsOf(parse, Lines(buf[newlineIdx + 1..]))
          == events + (yielded + EventsOf(parse, Lines(buf[newlineIdx + 1..])));
      consumed := consumed + newlineIdx - searchFrom + 1;
      searchFrom := newlineIdx + 1;
      if |line| > 0 {
        events := events + parse(line);
      }
      newlineIdx := IndexOf(buf, searchFrom);
    }
    NoMoreLines(buf, searchFrom);
    NoBytesYet(parse);
    carry := buf[searchFrom..];
  }

  lemma NoBytesYet<E>(parse: seq<Byte> -> seq<E>)
    ensures Lines([]) == [] && Tail([]) == [] && EventsOf(parse, []) == [] && Flatten([]) == []
  {
  }

  /** `size` is what stat said; `chunks` is how the stream delivered the bytes from `startByte` on. */
  method ReadEventsFromOffset<E>(parse: seq<Byte> -> seq<E>, size: nat, startByte: nat, chunks: seq<seq<Byte>>)
    returns (r: Read<E>)
    ensures r == ReadOf(parse, size, startByte, Flatten(chunks))
  {
    if startByte > size { return Rewound(size); }
    if startByte == size { return Progress([], size, 0); }
    hide Lines, Tail, EventsOf, Consumed, Flatten, IndexOf;
    NoBytesYet(parse);
    var events: seq<E> := [];
    var carry: seq<Byte> := [];
    var consumedBytes := 0;
    ghost var seen: seq<Byte> := [];
    for i := 0 to |chunks|
      invariant seen == Flatten(chunks[..i])
      invariant events == EventsOf(parse, Lines(seen)) && carry == Tail(seen) && consumedBytes + |carry| == |seen|
    {
      var buf := if |carry| > 0 then carry + chunks[i] else chunks[i];
      assert buf == Tail(seen) + chunks[i];
      var more, rest, consumed := OnData(parse, buf);
      events, carry, consumedBytes := events + more, rest, consumedBytes + consumed;
      NextChunk(parse, chunks, i, seen);
      seen := seen + chunks[i];
    }
    assert chunks[..|chunks|] == chunks;
    TailIsTheRest(seen);
    return Progress(events, startByte + consumedBytes, consumedBytes);
  }

  lemma NextChunk<E>(parse: seq<Byte> -> seq<E>, chunks: seq<seq<Byte>>, i: nat, seen: seq<Byte>)
    requires i < |chunks| && seen == Flatten(chunks[..i])
    ensures Flatten(chunks[..i + 1]) == seen + chunks[i]
    ensures EventsOf(parse, Lines(seen + chunks[i]))
         == EventsOf(parse, Lines(seen)) + EventsOf(parse, Lines(Tail(seen) + chunks[i]))
    ensures Tail(seen + chunks[i]) == Tail(Tail(seen) + chunks[i])
  {
    hide Lines, Tail, EventsOf;
    assert chunks[..i + 1][..i] == chunks[..i];
    LinesSplit(seen, chunks[i]);
    EventsConcat(parse, Lines(seen), Lines(Tail(seen) + chunks[i]));
  }

  lemma NextLine<E>(parse: seq<Byte> -> seq<E>, buf: seq<Byte>, from: nat, k: nat)
    requires from <= k < |buf| && k == IndexOf(buf, from)
    ensures EventsOf(parse, Lines(buf[from..]))
         == (if k > from then parse(buf[from..k]) else []) + EventsOf(parse, Lines(buf[k + 1..]))
    ensures Tail(buf[from..]) == Tail(buf[k + 1..])
  {
    var line, rest := buf[from..k], buf[k + 1..];
    assert buf[from..] == line + [NEWLINE] + rest;
    FirstLine(line, rest);
    assert ([line] + Lines(rest))[1..] == Lines(rest);
  }

  lemma NoMoreLines(buf: seq<Byte>, from: nat)
    requires from <= |buf| && IndexOf(buf, from) == -1
    ensures Lines(buf[from..]) == [] && Tail(buf[from..]) == buf[from..]
  {
    NoNewlineNoLine(buf[from..]);
  }

  // ----- What is read, in terms of lines alone -----

  /** The bytes of lines, each ended by the byte 10. */
  function Terminated(lines: seq<seq<Byte>>): seq<Byte> {
    if lines == [] then [] else Terminated(lines[..|lines| - 1]) + (lines[|lines| - 1] + [10])
  }

  lemma TerminatedNext(lines: seq<seq<Byte>>, line: seq<Byte>)
    ensures Terminated(lines + [line]) == Terminated(lines) + (line + [10])
  {
    assert (lines + [line])[..|lines|] == lines;
  }

  /** Every text is its lines, each ended by the byte 10, and an unfinished rest; neither holds that byte. */
  lemma {:induction false} LinesPrintBack(data: seq<Byte>)
    ensures Terminated(Lines(data)) + Tail(data) == data && Consumed(data) == |Terminated(Lines(data))|
    ensures (forall line :: line in Lines(data) ==> 10 !in line) && 10 !in Tail(data)
  {
    if data != [] {
      var init, b := data[..|data| - 1], data[|data| - 1];
      LinesPrintBack(init);
      ConcatLast([], data);
      OneMoreByte(init, b);
      hide Lines, Tail, Terminated;
      if b == NEWLINE {
        TerminatedNext(Lines(init), Tail(init));
        assert Terminated(Lines(init)) + (Tail(init) + [10]) == (Terminated(Lines(init)) + Tail(init)) + [b];
        assert Terminated(Lines(data)) + [] == Terminated(Lines(data));
      } else {
        ConcatAssociates(Terminated(Lines(init)), Tail(init), [b]);
      }
    }
  }

  /** And only those lines and that rest are. */
  lemma {:induction false} LinesOfPrinted(lines: seq<seq<Byte>>, rest: seq<Byte>)
    requires (forall line :: line in lines ==> 10 !in line) && 10 !in rest
    ensures Lines(Terminated(lines) + rest) == lines && Tail(Terminated(lines) + rest) == rest
  {
    if lines == [] {
      NoNewlineNoLine(rest);
      assert [] + rest == rest;
    } else {
      var init, line := lines[..|lines| - 1], lines[|lines| - 1];
      ConcatLast([], lines);
      TerminatedNext(init, line);
      hide Lines, Tail, Terminated;
      LinesOfPrinted(init, line);
      ConcatAssociates(Terminated(init), line, [10]);
      OneMoreByte(Terminated(init) + line, 10);
      UnfinishedRest(Terminated(lines), rest);
    }
  }

  lemma UnfinishedRest(data: seq<Byte>, rest: seq<Byte>)
    requires Tail(data) == [] && NEWLINE !in rest
    ensures Lines(data + rest) == Lines(data) && Tail(data + rest) == rest
  {
    hide Lines, Tail;
    NoNewlineNoLine(rest);
    LinesSplit(data, rest);
    assert [] + rest == rest && Lines(data) + [] == Lines(data);
  }

  /** A blank line yields nothing. */
  function OfLine<E>(parse: seq<Byte> -> seq<E>): seq<Byte> -> seq<E> {
    (line: seq<Byte>) => if line == [] then [] else parse(line)
  }

  lemma {:induction false} EventsAre<E>(parse: seq<Byte> -> seq<E>, lines: seq<seq<Byte>>)
    ensures EventsOf(parse, lines) == Collect(lines, OfLine(parse))
  {
    if lines != [] {
      var init, line := lines[..|lines| - 1], lines[|lines| - 1];
      EventsAre(parse, init);
      EventsConcat(parse, init, [line]);
      ConcatLast([], lines);
      assert EventsOf(parse, [line]) == OfLine(parse)(line) + EventsOf(parse, []);
    }
  }

  /** A read from below the size yields the events of the finished lines, blank ones aside, and has read those lines
      with their ends; at the size there is nothing to read, and above it the file has shrunk. */
  lemma ReadIs<E>(parse: seq<Byte> -> seq<E>, size: nat, startByte: nat, lines: seq<seq<Byte>>, rest: seq<Byte>)
    requires (forall line :: line in lines ==> 10 !in line) && 10 !in rest
    ensures ReadOf(parse, size, startByte, Terminated(lines) + rest)
         == if startByte < size then
              Progress(Collect(lines, OfLine(parse)), startByte + |Terminated(lines)|, |Terminated(lines)|)
            else if startByte == size then Progress([], size, 0)
            else Rewound(size)
  {
    hide Lines, Tail, Terminated, Collect, EventsOf, Consumed;
    LinesOfPrinted(lines, rest);
    LinesPrintBack(Terminated(lines) + rest);
    EventsAre(parse, lines);
  }

  // ----- Reading a growing file again and again -----

  /** One poll sees `statSize` when it asks for the size and `content` by the time it has read. */
  datatype Snapshot = Snapshot(statSize: nat, content: seq<Byte>)

  /** One poll of the worker: read from the cursor, and from zero when the file shrank below it. */
  function Poll<E>(parse: seq<Byte> -> seq<E>, s: Snapshot, cursor: nat): Read<E> {
    match ReadOf(parse, s.statSize, cursor, if cursor <= |s.content| then s.content[cursor..] else [])
    case Rewound(_) => ReadOf(parse, s.statSize, 0, s.content)
    case progress => progress
  }

  datatype Session<E> = Session(events: seq<E>, cursor: nat)

  function PollAll<E>(parse: seq<Byte> -> seq<E>, history: seq<Snapshot>): Session<E> {
    if history == [] then Session([], 0)
    else
      var before := PollAll(parse, history[..|history| - 1]);
      match Poll(parse, history[|history| - 1], before.cursor)
      case Progress(events, endByte, _) => Session(before.events + events, endByte)
      case Rewound(_) => before
  }

  /** The file is only ever appended to, also between a poll's stat and its read. */
  ghost predicate AppendOnly(history: seq<Snapshot>) {
    && (forall i :: 0 <= i < |history| ==> history[i].statSize <= |history[i].content|)
    && (forall i :: 0 <= i < |history| - 1 ==>
          history[i].content <= history[i + 1].content && |history[i].content| <= history[i + 1].statSize)
  }

  /** The session has consumed exactly the complete lines of the file up to its cursor. */
  ghost predicate UpTo<E>(parse: seq<Byte> -> seq<E>, file: seq<Byte>, session: Session<E>) {
    && session.cursor <= |file|
    && (session.cursor > 0 ==> file[session.cursor - 1] == NEWLINE)
    && session.events == EventsOf(parse, Lines(file[..session.cursor]))
  }

  /** Reading, appending and resuming, any number of times: every complete line before the cursor has been
      consumed exactly once and in order, and the cursor stands just past a newline. */
  lemma {:induction false} EachLineOnce<E>(parse: seq<Byte> -> seq<E>, history: seq<Snapshot>)
    requires AppendOnly(history) && history != []
    ensures UpTo(parse, history[|history| - 1].content, PollAll(parse, history))
    ensures history[|history| - 1].statSize == |history[|history| - 1].content| ==>
              PollAll(parse, history) == Session(EventsOf(parse, Lines(history[|history| - 1].content)),
                                                 Consumed(history[|history| - 1].content))
  {
    var n := |history| - 1;
    var before := PollAll(parse, history[..n]);
    if n > 0 {
      EachLineOnce(parse, history[..n]);
      Appended(parse, history[n - 1].content, history[n].content, before);
    }
    assert UpTo(parse, history[n].content, before) && before.cursor <= history[n].statSize;
    hide UpTo, Lines, EventsOf, Consumed, Poll, ReadOf;
    OnePoll(parse, history[n], before);
  }

  lemma Appended<E>(parse: seq<Byte> -> seq<E>, file: seq<Byte>, longer: seq<Byte>, session: Session<E>)
    requires UpTo(parse, file, session) && file <= longer
    ensures UpTo(parse, longer, session)
  {
    assert longer[..session.cursor] == file[..session.cursor];
  }

  lemma OnePoll<E>(parse: seq<Byte> -> seq<E>, s: Snapshot, session: Session<E>)
    requires session.cursor <= s.statSize <= |s.content| && UpTo(parse, s.content, session)
    ensures var r := Poll(parse, s, session.cursor);
            && r.Progress?
            && UpTo(parse, s.content, Session(session.events + r.events, r.endByte))
            && (s.statSize == |s.content| ==>
                  session.events + r.events == EventsOf(parse, Lines(s.content)) && r.endByte == Consumed(s.content))
  {
    var c := session.cursor;
    if c == s.statSize {
      assert session.events + [] == session.events;
      if c == |s.content| { WholeFile(s.content); }
    } else {
      ReadOn(parse, s, session);
    }
  }

  lemma WholeFile(file: seq<Byte>)
    requires file != [] ==> file[|file| - 1] == NEWLINE
    ensures file[..|file|] == file && Consumed(file) == |file|
  {
  }

  lemma ReadOn<E>(parse: seq<Byte> -> seq<E>, s: Snapshot, session: Session<E>)
    requires session.cursor < s.statSize <= |s.content| && UpTo(parse, s.content, session)
    ensures var r := Poll(parse, s, session.cursor);
            && r.Progress?
            && session.events + r.events == EventsOf(parse, Lines(s.content)) && r.endByte == Consumed(s.content)
            && UpTo(parse, s.content, Session(session.events + r.events, r.endByte))
  {
    hide Lines, EventsOf, Consumed;
    ResumeAt(parse, s.content, session.cursor);
  }

  /** One read from a cursor just past a newline continues the reading of the whole file. */
  lemma ResumeAt<E>(parse: seq<Byte> -> seq<E>, file: seq<Byte>, cursor: nat)
    requires cursor <= |file| && (cursor > 0 ==> file[cursor - 1] == NEWLINE)
    ensures var data := file[cursor..]; var end := cursor + Consumed(data);
            && end == Consumed(file)
            && EventsOf(parse, Lines(file)) == EventsOf(parse, Lines(file[..cursor])) + EventsOf(parse, Lines(data))
            && EventsOf(parse, Lines(file[..end])) == EventsOf(parse, Lines(file))
            && (end > 0 ==> file[end - 1] == NEWLINE)
  {
    hide Lines, EventsOf, Consumed, Tail;
    var head, data := file[..cursor], file[cursor..];
    CutAt(file, cursor);
    LinesResume(head, data);
    EventsConcat(parse, Lines(head), Lines(data));
    ConsumedSplit(head, data);
    TailHoldsNoLine(file);
    ConsumedEndsALine(file);
  }

  lemma LinesResume(head: seq<Byte>, data: seq<Byte>)
    requires head == [] || head[|head| - 1] == NEWLINE
    ensures Lines(head + data) == Lines(head) + Lines(data)
  {
    hide Lines;
    LinesSplit(head, data);
    assert Tail(head) == [];
    assert [] + data == data;
  }

  lemma {:induction false} ConsumedSplit(head: seq<Byte>, data: seq<Byte>)
    requires head == [] || head[|head| - 1] == NEWLINE
    ensures Consumed(head + data) == |head| + Consumed(data)
  {
    if data == [] {
      assert head + data == head;
    } else {
      var n := |data| - 1;
      ConsumedSplit(head, data[..n]);
      assert (head + data)[..|head + data| - 1] == head + data[..n];
    }
  }

  lemma {:induction false} TailHoldsNoLine(data: seq<Byte>)
    ensures Lines(data[..Consumed(data)]) == Lines(data)
  {
    if data == [] || data[|data| - 1] == NEWLINE {
      assert data[..|data|] == data;
    } else {
      var init := data[..|data| - 1];
      TailHoldsNoLine(init);
      assert data[..Consumed(data)] == init[..Consumed(data)];
    }
  }

  // ----- Reading a file that was replaced -----

  /** What the lines before the cursor yield, and the line the cursor falls into, against what is left of that line. */
  ghost predicate FragmentStandsIn<E>(parse: seq<Byte> -> seq<E>, file: seq<Byte>, cursor: nat)
    requires cursor <= |file|
  {
    var before, k := file[..cursor], IndexOf(file, cursor);
    if k == -1 then EventsOf(parse, Lines(before)) == []
    else
      var fragment := file[cursor..k];
      LineEvents(parse, fragment) == EventsOf(parse, Lines(before)) + LineEvents(parse, Tail(before) + fragment)
  }

  lemma LineFirst<E>(parse: seq<Byte> -> seq<E>, line: seq<Byte>, rest: seq<Byte>)
    requires NEWLINE !in line
    ensures EventsOf(parse, Lines(line + [NEWLINE] + rest)) == LineEvents(parse, line) + EventsOf(parse, Lines(rest))
  {
    FirstLine(line, rest);
    assert ([line] + Lines(rest))[1..] == Lines(rest);
  }

  lemma SameBeforeSame<T>(a: seq<T>, b: seq<T>, rest: seq<T>)
    ensures a + rest == b + rest <==> a == b
  {
    if a + rest == b + rest {
      assert a == (a + rest)[..|a|] && b == (b + rest)[..|b|];
    }
  }

  /** The events of the whole file, taken apart where the cursor falls. */
  lemma EventsAround<E>(parse: seq<Byte> -> seq<E>, file: seq<Byte>, cursor: nat)
    requires cursor <= |file|
    ensures EventsOf(parse, Lines(file))
         == EventsOf(parse, Lines(file[..cursor])) + EventsOf(parse, Lines(Tail(file[..cursor]) + file[cursor..]))
  {
    hide Lines, EventsOf, Tail;
    CutAt(file, cursor);
    LinesSplit(file[..cursor], file[cursor..]);
    EventsConcat(parse, Lines(file[..cursor]), Lines(Tail(file[..cursor]) + file[cursor..]));
  }

  /** From the cursor on, the first line is what is left of one, or that line made whole by the bytes before it. */
  lemma EventsFrom<E>(parse: seq<Byte> -> seq<E>, file: seq<Byte>, cursor: nat, carry: seq<Byte>)
    requires cursor <= |file| && IndexOf(file, cursor) != -1 && NEWLINE !in carry
    ensures var k := IndexOf(file, cursor);
            EventsOf(parse, Lines(carry + file[cursor..]))
            == LineEvents(parse, carry + file[cursor..k]) + EventsOf(parse, Lines(file[k + 1..]))
  {
    hide Lines, EventsOf, LineEvents;
    var k := IndexOf(file, cursor);
    var line := carry + file[cursor..k];
    assert carry + file[cursor..] == line + [NEWLINE] + file[k + 1..];
    LineFirst(parse, line, file[k + 1..]);
  }

  lemma FragmentEvents<E>(parse: seq<Byte> -> seq<E>, file: seq<Byte>, cursor: nat)
    requires cursor <= |file| && IndexOf(file, cursor) != -1
    ensures var k := IndexOf(file, cursor);
            EventsOf(parse, Lines(file[cursor..]))
            == LineEvents(parse, file[cursor..k]) + EventsOf(parse, Lines(file[k + 1..]))
  {
    hide Lines, EventsOf, LineEvents, IndexOf;
    EventsFrom(parse, file, cursor, []);
    assert [] + file[cursor..] == file[cursor..];
    assert [] + file[cursor..IndexOf(file, cursor)] == file[cursor..IndexOf(file, cursor)];
  }

  lemma NoLineFrom(file: seq<Byte>, cursor: nat)
    requires cursor <= |file| && IndexOf(file, cursor) == -1
    ensures Lines(file[cursor..]) == [] && Lines(Tail(file[..cursor]) + file[cursor..]) == []
  {
    TailIsTheRest(file[..cursor]);
    NoNewlineNoLine(file[cursor..]);
    NoNewlineNoLine(Tail(file[..cursor]) + file[cursor..]);
  }

  lemma NoFragment<E>(parse: seq<Byte> -> seq<E>, file: seq<Byte>, cursor: nat)
    requires cursor <= |file| && IndexOf(file, cursor) == -1
    ensures EventsOf(parse, Lines(file[cursor..])) == []
    ensures EventsOf(parse, Lines(file)) == EventsOf(parse, Lines(file[..cursor]))
  {
    hide Lines, EventsOf, Tail, IndexOf;
    EventsAround(parse, file, cursor);
    NoLineFrom(file, cursor);
    NoBytesYet(parse);
  }

  lemma WithFragment<E>(parse: seq<Byte> -> seq<E>, file: seq<Byte>, cursor: nat)
    requires cursor <= |file| && IndexOf(file, cursor) != -1
    ensures var before, fragment := file[..cursor], file[cursor..IndexOf(file, cursor)];
            EventsOf(parse, Lines(file[cursor..])) == EventsOf(parse, Lines(file))
            <==> LineEvents(parse, fragment)
                 == EventsOf(parse, Lines(before)) + LineEvents(parse, Tail(before) + fragment)
  {
    hide Lines, EventsOf, Tail, IndexOf, LineEvents;
    var before, k := file[..cursor], IndexOf(file, cursor);
    EventsAround(parse, file, cursor);
    FragmentEvents(parse, file, cursor);
    NoNewlineLeft(before);
    EventsFrom(parse, file, cursor, Tail(before));
    SplitAlike(LineEvents(parse, file[cursor..k]), EventsOf(parse, Lines(before)),
               LineEvents(parse, Tail(before) + file[cursor..k]), EventsOf(parse, Lines(file[k + 1..])));
  }

  lemma NoNewlineLeft(data: seq<Byte>)
    ensures NEWLINE !in Tail(data)
  {
    TailIsTheRest(data);
  }

  lemma FragmentIff<E>(parse: seq<Byte> -> seq<E>, file: seq<Byte>, cursor: nat)
    requires cursor <= |file|
    ensures EventsOf(parse, Lines(file[cursor..])) == EventsOf(parse, Lines(file))
       <==> FragmentStandsIn(parse, file, cursor)
  {
    hide Lines, EventsOf, Tail, IndexOf, LineEvents;
    if IndexOf(file, cursor) == -1 { NoFragment(parse, file, cursor); } else { WithFragment(parse, file, cursor); }
  }

  lemma SplitAlike<T>(a: seq<T>, b: seq<T>, c: seq<T>, rest: seq<T>)
    ensures a + rest == b + (c + rest) <==> a == b + c
  {
    assert b + (c + rest) == (b + c) + rest;
    SameBeforeSame(a, b + c, rest);
  }

  /** A file that shrank below the cursor is read again from its start.  One replaced by at least as many bytes is read
      from the old cursor on, as if a line began there: the poll yields the events of the file exactly when what is left
      of the line the cursor falls into yields what the lines before and that whole line would have yielded. */
  lemma ReplacedFile<E>(parse: seq<Byte> -> seq<E>, file: seq<Byte>, cursor: nat)
    ensures var r := Poll(parse, Snapshot(|file|, file), cursor);
            && (cursor > |file| ==> r == Progress(EventsOf(parse, Lines(file)), Consumed(file), Consumed(file)))
            && (cursor <= |file| ==>
                  && r == Progress(EventsOf(parse, Lines(file[cursor..])), cursor + Consumed(file[cursor..]),
                                   Consumed(file[cursor..]))
                  && (r.events == EventsOf(parse, Lines(file)) <==> FragmentStandsIn(parse, file, cursor)))
  {
    hide Lines, EventsOf, FragmentStandsIn;
    NoBytesYet(parse);
    if cursor <= |file| {
      FragmentIff(parse, file, cursor);
      if cursor == |file| { assert file[cursor..] == []; }
    } else {
      assert file[0..] == file;
    }
  }

  /** Just past a newline nothing is missed exactly when no event stands before the cursor. */
  lemma ReplacedAtNewline<E>(parse: seq<Byte> -> seq<E>, file: seq<Byte>, cursor: nat)
    requires 0 < cursor <= |file| && file[cursor - 1] == NEWLINE
    ensures FragmentStandsIn(parse, file, cursor) <==> EventsOf(parse, Lines(file[..cursor])) == []
  {
    var k := IndexOf(file, cursor);
    assert Tail(file[..cursor]) == [];
    if k != -1 {
      var own := LineEvents(parse, file[cursor..k]);
      assert [] + file[cursor..k] == file[cursor..k];
      SameBeforeSame([], EventsOf(parse, Lines(file[..cursor])), own);
      assert [] + own == own;
    }
  }

  // ----- The smallest replaced file that is not read whole: the lines ab and cd -----

  const AB: seq<Byte> := [97, 98]
  const CD: seq<Byte> := [99, 100]

  function TwoLines(): seq<Byte> {
    AB + [NEWLINE] + (CD + [NEWLINE] + [])
  }

  /** Every line is its own event. */
  function Itself(): seq<Byte> -> seq<seq<Byte>> {
    (line: seq<Byte>) => [line]
  }

  lemma TwoLinesSay()
    ensures EventsOf(Itself(), Lines(TwoLines())) == [AB, CD]
    ensures EventsOf(Itself(), Lines(TwoLines()[3..])) == [CD]
    ensures EventsOf(Itself(), Lines(TwoLines()[4..])) == [[100]]
  {
    hide Lines, EventsOf;
    NoBytesYet(Itself());
    LineFirst(Itself(), AB, CD + [NEWLINE] + []);
    LineFirst(Itself(), CD, []);
    LineFirst(Itself(), [100], []);
    assert TwoLines()[3..] == CD + [NEWLINE] + [];
    assert TwoLines()[4..] == [100] + [NEWLINE] + [];
  }

  /** From a cursor at the second line the first event is missed; from inside that line what is left of it is read as
      if it were a line. */
  lemma ReplacedFileMissesEvents()
    ensures EventsOf(Itself(), Lines(TwoLines())) == [AB, CD]
    ensures var r := Poll(Itself(), Snapshot(6, TwoLines()), 3);
            r.Progress? && r.events == [CD] && !FragmentStandsIn(Itself(), TwoLines(), 3)
    ensures var r := Poll(Itself(), Snapshot(6, TwoLines()), 4);
            r.Progress? && r.events == [[100]] && !FragmentStandsIn(Itself(), TwoLines(), 4)
  {
    hide Lines, EventsOf, Poll, FragmentStandsIn, Itself;
    TwoLinesSay();
    assert |TwoLines()| == 6;
    ReplacedFile(Itself(), TwoLines(), 3);
    ReplacedFile(Itself(), TwoLines(), 4);
    assert [CD] != [AB, CD] && [[100]] != [AB, CD];
  }
}
