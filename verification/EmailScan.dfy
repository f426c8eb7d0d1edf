/** The e-mail scanner: for each '@', one run of characters to the left and one to the right, no backtracking. */
module EmailScan {
  import opened Prelude

  predicate IsLetter(c: char) { 'A' <= c <= 'Z' || 'a' <= c <= 'z' }

  predicate IsDigit(c: char) { '0' <= c <= '9' }

  predicate IsLocal(c: char) {
    IsLetter(c) || IsDigit(c) || c == '.' || c == '_' || c == '%' || c == '+' || c == '-'
  }

  predicate IsDomain(c: char) { IsLetter(c) || IsDigit(c) || c == '.' || c == '-' }

  // ----- What a candidate is -----

  /** The character classes of the expressions, written out. */
  ghost predicate InLetters(c: char) {
    c in {
      'A', 'B', 'C', 'D', 'E', 'F', 'G', 'H', 'I', 'J', 'K', 'L', 'M', 'N', 'O', 'P', 'Q', 'R',
      'S', 'T', 'U', 'V', 'W', 'X', 'Y', 'Z', 'a', 'b', 'c', 'd', 'e', 'f', 'g', 'h', 'i', 'j',
      'k', 'l', 'm', 'n', 'o', 'p', 'q', 'r', 's', 't', 'u', 'v', 'w', 'x', 'y', 'z'
    }
  }

  ghost predicate InDomain(c: char) {
    InLetters(c) || c in {'0', '1', '2', '3', '4', '5', '6', '7', '8', '9', '.', '-'}
  }

  ghost predicate InLocal(c: char) {
    InDomain(c) || c in {'_', '%', '+'}
  }

  lemma CharsAre(c: char)
    ensures IsLetter(c) <==> InLetters(c)
    ensures IsDomain(c) <==> InDomain(c)
    ensures IsLocal(c) <==> InLocal(c)
  {
  }

  /** line[start..at] is the maximal run of local characters before the '@' at `at`, line[at + 1..stop] the maximal run
      of domain characters after it, and line[dot..end] the last place in it with a dot and two letters or more. */
  ghost predicate IsCandidate(line: string, start: nat, at: nat, dot: nat, end: nat, stop: nat) {
    && start < at < dot && dot + 3 <= end <= stop <= |line| && line[at] == '@' && line[dot] == '.'
    && (forall k :: start <= k < at ==> InLocal(line[k])) && (start > 0 ==> !InLocal(line[start - 1]))
    && (forall k :: at < k < stop ==> InDomain(line[k])) && (stop < |line| ==> !InDomain(line[stop]))
    && (forall k :: dot < k < end ==> InLetters(line[k])) && (end < stop ==> !InLetters(line[end]))
    && forall k :: dot < k < stop - 2 && line[k] == '.' ==> !InLetters(line[k + 1]) || !InLetters(line[k + 2])
  }

  ghost predicate AllLocal(line: string, from: nat, to: nat)
    requires to <= |line|
  {
    forall k :: from <= k < to ==> IsLocal(line[k])
  }

  ghost predicate AllDomain(line: string, from: nat, to: nat)
    requires to <= |line|
  {
    forall k :: from <= k < to ==> IsDomain(line[k])
  }

  ghost predicate AllLetters(line: string, from: nat, to: nat)
    requires to <= |line|
  {
    forall k :: from <= k < to ==> IsLetter(line[k])
  }

  /** A dot followed by at least two letters, all before `stop`. */
  predicate TldAt(line: string, k: nat, stop: nat)
    requires stop <= |line|
  {
    k + 2 < stop && line[k] == '.' && IsLetter(line[k + 1]) && IsLetter(line[k + 2])
  }

  ghost predicate NoTld(line: string, from: nat, to: nat, stop: nat)
    requires stop <= |line|
  {
    forall k: nat :: from <= k < to ==> !TldAt(line, k, stop)
  }

  /** The ends of the runs around the '@' at `at`, and the last top-level domain in the right one. */
  ghost predicate Scanned(line: string, start: nat, at: nat, dot: nat, end: nat, stop: nat) {
    && start < at < |line| && line[at] == '@'
    && AllLocal(line, start, at) && (start > 0 ==> !IsLocal(line[start - 1]))
    && at < stop <= |line| && AllDomain(line, at + 1, stop) && (stop < |line| ==> !IsDomain(line[stop]))
    && at < dot && TldAt(line, dot, stop) && NoTld(line, dot + 1, stop, stop)
    && dot < end <= stop && AllLetters(line, dot + 1, end) && (end < stop ==> !IsLetter(line[end]))
  }

  // ----- The ends of the runs -----

  function LocalStart(line: string, i: nat): (s: nat)
    requires i <= |line|
    ensures s <= i
  {
    if i > 0 && IsLocal(line[i - 1]) then LocalStart(line, i - 1) else i
  }

  function DomainEnd(line: string, i: nat): (e: nat)
    requires i <= |line|
    ensures i <= e <= |line|
    decreases |line| - i
  {
    if i < |line| && IsDomain(line[i]) then DomainEnd(line, i + 1) else i
  }

  function LettersEnd(line: string, i: nat, stop: nat): (e: nat)
    requires i <= stop <= |line|
    ensures i <= e <= stop
    decreases stop - i
  {
    if i < stop && IsLetter(line[i]) then LettersEnd(line, i + 1, stop) else i
  }

  function LastTld(line: string, from: nat, n: nat, stop: nat): (r: Option<nat>)
    requires from <= n <= stop <= |line|
    ensures r.Some? ==> from <= r.value < n && TldAt(line, r.value, stop)
    decreases n - from
  {
    if n == from then None else if TldAt(line, n - 1, stop) then Some(n - 1) else LastTld(line, from, n - 1, stop)
  }

  lemma {:induction false} LocalStartIff(line: string, start: nat, i: nat)
    requires start <= i <= |line|
    ensures LocalStart(line, i) == start <==> AllLocal(line, start, i) && (start > 0 ==> !IsLocal(line[start - 1]))
    decreases i
  {
    if i > 0 && IsLocal(line[i - 1]) && start < i { LocalStartIff(line, start, i - 1); }
  }

  lemma {:induction false} DomainEndIff(line: string, i: nat, stop: nat)
    requires i <= stop <= |line|
    ensures DomainEnd(line, i) == stop <==> AllDomain(line, i, stop) && (stop < |line| ==> !IsDomain(line[stop]))
    decreases |line| - i
  {
    if i < |line| && IsDomain(line[i]) && i < stop { DomainEndIff(line, i + 1, stop); }
  }

  lemma {:induction false} LettersEndIff(line: string, i: nat, end: nat, stop: nat)
    requires i <= end <= stop <= |line|
    ensures LettersEnd(line, i, stop) == end <==> AllLetters(line, i, end) && (end < stop ==> !IsLetter(line[end]))
    decreases stop - i
  {
    if i < stop && IsLetter(line[i]) && i < end { LettersEndIff(line, i + 1, end, stop); }
  }

  lemma {:induction false} LastTldIff(line: string, from: nat, n: nat, stop: nat, dot: nat)
    requires from <= n <= stop <= |line|
    ensures LastTld(line, from, n, stop) == None <==> NoTld(line, from, n, stop)
    ensures from <= dot < n ==>
              (LastTld(line, from, n, stop) == Some(dot) <==> TldAt(line, dot, stop) && NoTld(line, dot + 1, n, stop))
    decreases n - from
  {
    if n > from && !TldAt(line, n - 1, stop) { LastTldIff(line, from, n - 1, stop, dot); }
  }

  function CandidateAt(line: string): nat -> seq<string> {
    (i: nat) =>
      if i >= |line| || line[i] != '@' || i == 0 || !IsLocal(line[i - 1]) then []
      else
        var stop := DomainEnd(line, i + 1);
        match LastTld(line, i + 1, stop, stop)
        case None => []
        case Some(dot) => [line[LocalStart(line, i)..LettersEnd(line, dot + 1, stop)]]
  }

  lemma CandidateIsScanned(line: string, start: nat, at: nat, dot: nat, end: nat, stop: nat)
    requires IsCandidate(line, start, at, dot, end, stop)
    ensures Scanned(line, start, at, dot, end, stop)
  {
    hide IsLocal, IsDomain, IsLetter, InLocal, InDomain, InLetters;
    forall k | 0 <= k < |line|
      ensures IsLetter(line[k]) == InLetters(line[k]) && IsDomain(line[k]) == InDomain(line[k])
      ensures IsLocal(line[k]) == InLocal(line[k])
    {
      CharsAre(line[k]);
    }
  }

  lemma ScannedIsCandidate(line: string, start: nat, at: nat, dot: nat, end: nat, stop: nat)
    requires Scanned(line, start, at, dot, end, stop)
    ensures IsCandidate(line, start, at, dot, end, stop)
  {
    hide IsLocal, IsDomain, IsLetter, InLocal, InDomain, InLetters;
    forall k | 0 <= k < |line|
      ensures IsLetter(line[k]) == InLetters(line[k]) && IsDomain(line[k]) == InDomain(line[k])
      ensures IsLocal(line[k]) == InLocal(line[k])
    {
      CharsAre(line[k]);
    }
    forall k | dot < k < stop - 2 && line[k] == '.'
      ensures !InLetters(line[k + 1]) || !InLetters(line[k + 2])
    {
      assert !TldAt(line, k, stop);
    }
  }

  lemma ScannedFound(line: string, at: nat, start: nat, dot: nat, end: nat, stop: nat)
    requires Scanned(line, start, at, dot, end, stop)
    ensures CandidateAt(line)(at) == [line[start..end]]
  {
    LocalStartIff(line, start, at);
    DomainEndIff(line, at + 1, stop);
    LastTldIff(line, at + 1, stop, stop, dot);
    LettersEndIff(line, dot + 1, end, stop);
  }

  /** The scan reports, for every '@', the one candidate around it when there is one. */
  lemma CandidateIff(line: string, at: nat, start: nat, dot: nat, end: nat, stop: nat)
    requires IsCandidate(line, start, at, dot, end, stop)
    ensures CandidateAt(line)(at) == [line[start..end]]
  {
    CandidateIsScanned(line, start, at, dot, end, stop);
    hide IsCandidate, Scanned, CandidateAt;
    ScannedFound(line, at, start, dot, end, stop);
  }

  lemma ReportedIsCandidate(line: string, at: nat) returns (start: nat, dot: nat, end: nat, stop: nat)
    requires CandidateAt(line)(at) != []
    ensures IsCandidate(line, start, at, dot, end, stop) && CandidateAt(line)(at) == [line[start..end]]
  {
    hide IsLocal, IsDomain, IsLetter, LocalStart, DomainEnd, LastTld, LettersEnd, TldAt, IsCandidate;
    start, stop := LocalStart(line, at), DomainEnd(line, at + 1);
    dot := LastTld(line, at + 1, stop, stop).value;
    end := LettersEnd(line, dot + 1, stop);
    LocalStartIff(line, start, at);
    DomainEndIff(line, at + 1, stop);
    LastTldIff(line, at + 1, stop, stop, dot);
    LettersEndIff(line, dot + 1, end, stop);
    ScannedIsCandidate(line, start, at, dot, end, stop);
  }

  function Positions(n: nat): seq<nat> {
    seq(n, i => i)
  }

  function Candidates(line: string): seq<string> {
    Collect(Positions(|line|), CandidateAt(line))
  }

  // ----- The loops; `steps` and `work` count their rounds -----

  method ScanLeft(line: string, i: nat) returns (start: nat, ghost steps: nat)
    requires i <= |line|
    ensures start == LocalStart(line, i) && steps == i - start
  {
    start := i;
    steps := 0;
    while start > 0 && IsLocal(line[start - 1])
      invariant 0 <= start <= i && LocalStart(line, start) == LocalStart(line, i) && steps == i - start
    {
      start := start - 1;
      steps := steps + 1;
    }
  }

  method ScanRight(line: string, i: nat) returns (domainEnd: nat, ghost steps: nat)
    requires i <= |line|
    ensures domainEnd == DomainEnd(line, i) && steps == domainEnd - i
  {
    domainEnd := i;
    steps := 0;
    while domainEnd < |line| && IsDomain(line[domainEnd])
      invariant i <= domainEnd <= |line| && DomainEnd(line, domainEnd) == DomainEnd(line, i) && steps == domainEnd - i
    {
      domainEnd := domainEnd + 1;
      steps := steps + 1;
    }
  }

  /** The leftmost match of the top-level-domain expression at or after `from`. */
  function NextTld(line: string, from: nat, stop: nat): (r: Option<nat>)
    requires from <= stop <= |line|
    ensures r.Some? ==> from <= r.value && TldAt(line, r.value, stop) && NoTld(line, from, r.value, stop)
    ensures r.None? ==> NoTld(line, from, stop, stop)
    decreases stop - from
  {
    if from == stop then None else if TldAt(line, from, stop) then Some(from) else NextTld(line, from + 1, stop)
  }

  /** Repeats the global match on line[from..stop] and keeps the last one. */
  method FindLastTld(line: string, from: nat, stop: nat) returns (lastTld: Option<nat>)
    requires from <= stop <= |line|
    ensures lastTld == LastTld(line, from, stop, stop)
  {
    lastTld := None;
    var lastIndex := from;
    var tldMatch := NextTld(line, lastIndex, stop);
    while tldMatch.Some?
      invariant from <= lastIndex <= stop && tldMatch == NextTld(line, lastIndex, stop)
      invariant match lastTld
                case None => NoTld(line, from, lastIndex, stop)
                case Some(dot) =>
                  from <= dot < lastIndex && TldAt(line, dot, stop) && NoTld(line, dot + 1, lastIndex, stop)
      decreases stop - lastIndex
    {
      var dot := tldMatch.value;
      lastTld := tldMatch;
      lastIndex := LettersEnd(line, dot + 1, stop);
      LettersEndIff(line, dot + 1, lastIndex, stop);
      assert NoTld(line, dot + 1, lastIndex, stop);
      tldMatch := NextTld(line, lastIndex, stop);
    }
    LastTldIff(line, from, stop, stop, if lastTld.Some? then lastTld.value else from);
  }

  lemma Spliced(line: string, start: nat, at: nat, stop: nat, len: nat)
    requires start <= at < stop <= |line| && len <= stop - at - 1
    ensures line[start..at + 1] + line[at + 1..stop][..len] == line[start..at + 1 + len]
  {
  }

  /** One round of the outer loop. */
  method ScanAround(line: string, i: nat) returns (found: seq<string>, ghost steps: nat)
    requires i < |line|
    ensures found == CandidateAt(line)(i)
    ensures steps == if line[i] != '@' || i == 0 || !IsLocal(line[i - 1]) then 0
                     else i - LocalStart(line, i) + (DomainEnd(line, i + 1) - i - 1)
  {
    hide IsLocal, LocalStart, DomainEnd, LastTld, LettersEnd, TldAt;
    if line[i] != '@' { return [], 0; }
    if i == 0 || !IsLocal(line[i - 1]) { return [], 0; }
    var start, left := ScanLeft(line, i);
    var domainEnd, right := ScanRight(line, i + 1);
    steps := left + right;
    var lastTld := FindLastTld(line, i + 1, domainEnd);
    if lastTld.None? { return [], steps; }
    var domainLength := LettersEnd(line, lastTld.value + 1, domainEnd) - (i + 1);
    var domain := line[i + 1..domainEnd][..domainLength];
    Spliced(line, start, i, domainEnd, domainLength);
    found := [line[start..i + 1] + domain];
  }

  /** The left runs seen so far lie below `leftFloor`, the right ones below `rightReach`, without overlap. */
  datatype Work = Work(left: nat, leftFloor: nat, right: nat, rightReach: nat)

  ghost predicate WorkFits(line: string, i: nat, w: Work) {
    && i <= |line|
    && w.left <= w.leftFloor <= i && (w.leftFloor > 0 ==> !IsLocal(line[w.leftFloor - 1]))
    && w.right <= w.rightReach <= |line| && forall k :: i <= k < w.rightReach ==> line[k] != '@'
  }

  ghost function WorkAfter(line: string, i: nat, w: Work): Work
    requires i < |line|
  {
    if line[i] != '@' || i == 0 || !IsLocal(line[i - 1]) then w
    else Work(w.left + i - LocalStart(line, i), i + 1, w.right + DomainEnd(line, i + 1) - i - 1, DomainEnd(line, i + 1))
  }

  lemma WorkStillFits(line: string, i: nat, w: Work)
    requires i < |line| && WorkFits(line, i, w)
    ensures WorkFits(line, i + 1, WorkAfter(line, i, w))
  {
    LocalStartIff(line, LocalStart(line, i), i);
    DomainEndIff(line, i + 1, DomainEnd(line, i + 1));
  }

  /** The runs around different '@' signs never overlap, so scanning them takes linear work in all. */
  method FindEmailCandidates(line: string) returns (matches: seq<string>, ghost work: nat)
    ensures matches == Candidates(line)
    ensures work <= 2 * |line|
  {
    matches, work := [], 0;
    ghost var positions, w := Positions(|line|), Work(0, 0, 0, 0);
    for i := 0 to |line|
      invariant matches == Collect(positions[..i], CandidateAt(line))
      invariant WorkFits(line, i, w) && work == w.left + w.right
    {
      CollectNext(positions, i, CandidateAt(line));
      WorkStillFits(line, i, w);
      w := WorkAfter(line, i, w);
      var found, steps := ScanAround(line, i);
      matches, work := matches + found, work + steps;
    }
    assert positions[..|line|] == positions;
  }

  /** What is reported for the '@' signs before position `n`. */
  function CandidatesBefore(line: string, n: nat): seq<string> {
    if n == 0 then [] else CandidatesBefore(line, n - 1) + CandidateAt(line)(n - 1)
  }

  /** The candidates stand in the order of their '@' signs. */
  lemma {:induction false} CandidatesInOrder(line: string, n: nat)
    requires n <= |line|
    ensures Collect(Positions(|line|)[..n], CandidateAt(line)) == CandidatesBefore(line, n)
    ensures n == |line| ==> Candidates(line) == CandidatesBefore(line, n)
  {
    hide CandidateAt;
    if n == 0 {
      assert Positions(|line|)[..0] == [];
    } else {
      CandidatesInOrder(line, n - 1);
      CollectNext(Positions(|line|), n - 1, CandidateAt(line));
      hide Collect;
    }
    assert Positions(|line|)[..|line|] == Positions(|line|);
  }
}
