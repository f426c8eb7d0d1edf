/** The bounded pool of asynchronous workers that reads all transcripts.

    A worker takes the next index and starts a read, and continues when its read is done; between the two,
    any other worker may run.  A file that turned out to have been truncated is read a second time.
 */
module WorkerPool {
  import opened Prelude
  import opened ObserveFolds

  /** What reading one file from its cursor yields, `rewound` when that took a second read from zero. */
  datatype FileResult = FileResult(events: seq<Event>, endByte: nat, bytesRead: nat, rewound: bool)

  datatype Worker = Idle | Reading(i: nat) | Rereading(i: nat) | Stopped

  datatype Pool = Pool(
    nextIndex: nat, workers: seq<Worker>, done: seq<nat>, perFileReports: seq<Report>, cursor: map<nat, nat>,
    totalBytes: nat, rewoundFiles: seq<nat>)

  function Initial(concurrency: nat, cursor: map<nat, nat>): Pool {
    Pool(0, seq(concurrency, _ => Idle), [], [], cursor, 0, [])
  }

  /** Worker `w` runs up to its next await.  Files are named by their index. */
  function Step(p: Pool, files: seq<FileResult>, w: nat): Pool {
    if w >= |p.workers| || (Busy(p.workers[w]) && p.workers[w].i >= |files|) then p
    else match p.workers[w]
      case Idle =>
        if p.nextIndex < |files|
        then p.(nextIndex := p.nextIndex + 1, workers := p.workers[w := Reading(p.nextIndex)])
        else p.(workers := p.workers[w := Stopped])
      case Reading(i) =>
        if files[i].rewound
        then p.(rewoundFiles := p.rewoundFiles + [i], workers := p.workers[w := Rereading(i)])
        else Finish(p, files, w, i)
      case Rereading(i) => Finish(p, files, w, i)
      case Stopped => p
  }

  function Finish(p: Pool, files: seq<FileResult>, w: nat, i: nat): Pool
    requires w < |p.workers| && i < |files|
  {
    p.(workers := p.workers[w := Idle], done := p.done + [i],
       totalBytes := p.totalBytes + files[i].bytesRead,
       cursor := p.cursor[i := files[i].endByte],
       perFileReports := p.perFileReports + (if files[i].events == [] then [] else [ReportOf(files[i].events)]))
  }

  // ----- Every index is in exactly one place -----

  predicate Holds(w: Worker, i: nat) {
    (w.Reading? || w.Rereading?) && w.i == i
  }

  function ReportFor(files: seq<FileResult>): nat -> seq<Report> {
    (i: nat) => if i < |files| && files[i].events != [] then [ReportOf(files[i].events)] else []
  }

  function BytesFor(files: seq<FileResult>): nat -> seq<int> {
    (i: nat) => if i < |files| then [files[i].bytesRead] else []
  }

  function CursorAfter(files: seq<FileResult>, cursor: map<nat, nat>, done: seq<nat>): map<nat, nat>
    requires forall k :: 0 <= k < |done| ==> done[k] < |files|
  {
    if done == [] then cursor
    else
      var i := done[|done| - 1];
      CursorAfter(files, cursor, done[..|done| - 1])[i := files[i].endByte]
  }

  lemma {:induction false} CursorsMoved(files: seq<FileResult>, cursor: map<nat, nat>, done: seq<nat>, i: nat)
    requires forall k :: 0 <= k < |done| ==> done[k] < |files|
    ensures i in done ==>
              i in CursorAfter(files, cursor, done) && CursorAfter(files, cursor, done)[i] == files[i].endByte
    ensures i !in done && i in cursor ==> i in CursorAfter(files, cursor, done)
                                          && CursorAfter(files, cursor, done)[i] == cursor[i]
  {
    if done != [] {
      assert done == done[..|done| - 1] + [done[|done| - 1]];
      CursorsMoved(files, cursor, done[..|done| - 1], i);
    }
  }

  predicate Busy(w: Worker) {
    w.Reading? || w.Rereading?
  }

  /** What is taken and not done is held by some worker. */
  ghost predicate RestIsHeld(p: Pool) {
    forall i :: 0 <= i < p.nextIndex && i !in p.done ==> exists w :: 0 <= w < |p.workers| && Holds(p.workers[w], i)
  }

  /** Every index taken so far is either done or held by exactly one worker. */
  ghost predicate Placed(p: Pool, n: nat) {
    && p.nextIndex <= n
    && Distinct(p.done)
    && (forall i :: i in p.done ==> i < p.nextIndex)
    && (forall w :: 0 <= w < |p.workers| && Busy(p.workers[w])
          ==> p.workers[w].i < p.nextIndex && p.workers[w].i !in p.done)
    && (forall v, w :: 0 <= v < w < |p.workers| && Busy(p.workers[v]) ==> !Holds(p.workers[w], p.workers[v].i))
    && RestIsHeld(p)
    && (forall w :: 0 <= w < |p.workers| && p.workers[w].Stopped? ==> p.nextIndex == n)
  }

  /** What has been accumulated is what the files done so far yield. */
  ghost predicate Accumulated(p: Pool, files: seq<FileResult>, cursor: map<nat, nat>) {
    && (forall k :: 0 <= k < |p.done| ==> p.done[k] < |files|)
    && p.perFileReports == Collect(p.done, ReportFor(files))
    && p.totalBytes == Sum(Collect(p.done, BytesFor(files)))
    && p.cursor == CursorAfter(files, cursor, p.done)
  }

  /** A file is recorded as truncated, and once, when it was and its second read has begun. */
  ghost predicate Recorded(p: Pool, files: seq<FileResult>) {
    && Distinct(p.rewoundFiles)
    && (forall i :: i in p.rewoundFiles ==> i < |files| && files[i].rewound)
    && (forall i :: i in p.done && i < |files| && files[i].rewound ==> i in p.rewoundFiles)
    && (forall w :: 0 <= w < |p.workers| && p.workers[w].Rereading? ==> p.workers[w].i in p.rewoundFiles)
    && (forall w :: 0 <= w < |p.workers| && p.workers[w].Reading? ==> p.workers[w].i !in p.rewoundFiles)
    && (forall i :: i in p.rewoundFiles ==> i < p.nextIndex)
  }

  ghost predicate Inv(p: Pool, files: seq<FileResult>, cursor: map<nat, nat>) {
    Placed(p, |files|) && Accumulated(p, files, cursor) && Recorded(p, files)
  }

  lemma InitialInv(concurrency: nat, files: seq<FileResult>, cursor: map<nat, nat>)
    ensures Inv(Initial(concurrency, cursor), files, cursor)
  {
  }

  lemma TakeKeepsHeld(p: Pool, files: seq<FileResult>, w: nat)
    requires RestIsHeld(p) && w < |p.workers| && !p.workers[w].Rereading?
    requires p.workers[w].Reading? && p.workers[w].i < |files| ==> files[p.workers[w].i].rewound
    ensures RestIsHeld(Step(p, files, w))
  {
    var p' := Step(p, files, w);
    forall i | 0 <= i < p'.nextIndex && i !in p'.done
      ensures exists v :: 0 <= v < |p'.workers| && Holds(p'.workers[v], i)
    {
      if i < p.nextIndex {
        var v :| 0 <= v < |p.workers| && Holds(p.workers[v], i);
        assert Holds(p'.workers[v], i);
      } else {
        assert Holds(p'.workers[w], i);
      }
    }
  }

  lemma TakeKeepsPlaced(p: Pool, files: seq<FileResult>, w: nat)
    requires Placed(p, |files|) && w < |p.workers| && !p.workers[w].Rereading?
    requires p.workers[w].Reading? ==> files[p.workers[w].i].rewound
    ensures Placed(Step(p, files, w), |files|)
  {
    TakeKeepsHeld(p, files, w);
    hide Distinct, RestIsHeld;
  }

  lemma FinishKeepsHeld(p: Pool, files: seq<FileResult>, w: nat)
    requires RestIsHeld(p) && w < |p.workers| && Busy(p.workers[w]) && p.workers[w].i < |files|
    ensures RestIsHeld(Finish(p, files, w, p.workers[w].i))
  {
    var p' := Finish(p, files, w, p.workers[w].i);
    forall j | 0 <= j < p'.nextIndex && j !in p'.done
      ensures exists v :: 0 <= v < |p'.workers| && Holds(p'.workers[v], j)
    {
      assert j !in p.done;
      var v :| 0 <= v < |p.workers| && Holds(p.workers[v], j);
      assert Holds(p'.workers[v], j);
    }
  }

  lemma FinishKeepsPlaced(p: Pool, files: seq<FileResult>, w: nat)
    requires Placed(p, |files|) && w < |p.workers| && Busy(p.workers[w])
    ensures Placed(Finish(p, files, w, p.workers[w].i), |files|)
  {
    var p', i := Finish(p, files, w, p.workers[w].i), p.workers[w].i;
    FinishKeepsHeld(p, files, w);
    DistinctNext(p.done, i);
    assert p'.workers == p.workers[w := Idle] && p'.done == p.done + [i] && p'.nextIndex == p.nextIndex;
    hide Distinct, RestIsHeld, Finish;
    assert forall k :: k in p'.done <==> k in p.done || k == i;
    forall u, v | 0 <= u < v < |p'.workers| && Busy(p'.workers[u])
      ensures !Holds(p'.workers[v], p'.workers[u].i)
    {
      assert u != w && p'.workers[u] == p.workers[u] && (v != w ==> p'.workers[v] == p.workers[v]);
    }
    forall v | 0 <= v < |p'.workers| && Busy(p'.workers[v])
      ensures p'.workers[v].i < p'.nextIndex && p'.workers[v].i !in p'.done
    {
      assert v != w && p'.workers[v] == p.workers[v];
    }
  }

  lemma FinishCollects(p: Pool, files: seq<FileResult>, w: nat)
    requires w < |p.workers| && Busy(p.workers[w]) && p.workers[w].i < |files|
    requires p.perFileReports == Collect(p.done, ReportFor(files))
    ensures var p' := Finish(p, files, w, p.workers[w].i); p'.perFileReports == Collect(p'.done, ReportFor(files))
  {
    CollectConcat(p.done, [p.workers[w].i], ReportFor(files));
    CollectOne(p.workers[w].i, ReportFor(files));
  }

  lemma OneMoreDone(files: seq<FileResult>, cursor: map<nat, nat>, done: seq<nat>, i: nat)
    requires i < |files| && forall k :: 0 <= k < |done| ==> done[k] < |files|
    ensures Sum(Collect(done + [i], BytesFor(files))) == Sum(Collect(done, BytesFor(files))) + files[i].bytesRead
    ensures CursorAfter(files, cursor, done + [i]) == CursorAfter(files, cursor, done)[i := files[i].endByte]
  {
    assert (done + [i])[..|done|] == done;
    CollectSnoc(done, i, BytesFor(files));
    SumConcat(Collect(done, BytesFor(files)), [files[i].bytesRead]);
  }

  lemma FinishAccumulates(p: Pool, files: seq<FileResult>, cursor: map<nat, nat>, w: nat)
    requires Accumulated(p, files, cursor) && w < |p.workers| && Busy(p.workers[w]) && p.workers[w].i < |files|
    ensures Accumulated(Finish(p, files, w, p.workers[w].i), files, cursor)
  {
    hide BytesFor, CursorAfter, ReportFor, Collect, Sum;
    var p', i := Finish(p, files, w, p.workers[w].i), p.workers[w].i;
    assert p'.done == p.done + [i];
    FinishCollects(p, files, w);
    OneMoreDone(files, cursor, p.done, i);
  }

  lemma TakeAccumulatesNothing(p: Pool, files: seq<FileResult>, cursor: map<nat, nat>, w: nat)
    requires Accumulated(p, files, cursor) && w < |p.workers| && !p.workers[w].Rereading?
    requires p.workers[w].Reading? && p.workers[w].i < |files| ==> files[p.workers[w].i].rewound
    ensures Accumulated(Step(p, files, w), files, cursor)
  {
    hide BytesFor, CursorAfter, ReportFor, Collect, Sum, Finish;
  }

  lemma FinishKeepsRecord(p: Pool, files: seq<FileResult>, w: nat)
    requires Placed(p, |files|) && Recorded(p, files) && w < |p.workers| && Busy(p.workers[w])
    requires p.workers[w].Reading? ==> !files[p.workers[w].i].rewound
    ensures Recorded(Finish(p, files, w, p.workers[w].i), files)
  {
    hide Distinct, RestIsHeld, BytesFor, ReportFor, Collect, Sum;
  }

  lemma TakeKeepsRecord(p: Pool, files: seq<FileResult>, w: nat)
    requires Placed(p, |files|) && Recorded(p, files) && w < |p.workers| && !p.workers[w].Rereading?
    requires p.workers[w].Reading? ==> files[p.workers[w].i].rewound
    ensures Recorded(Step(p, files, w), files)
  {
    if p.workers[w].Reading? { DistinctNext(p.rewoundFiles, p.workers[w].i); }
    hide Distinct, RestIsHeld, Finish;
  }

  /** Any schedule: `schedule[k]` is the worker that runs k-th. */
  function Exec(p: Pool, files: seq<FileResult>, schedule: seq<nat>): Pool {
    if schedule == [] then p
    else Step(Exec(p, files, schedule[..|schedule| - 1]), files, schedule[|schedule| - 1])
  }

  lemma {:induction false} ExecKeepsInv(p: Pool, files: seq<FileResult>, cursor: map<nat, nat>, schedule: seq<nat>)
    requires Inv(p, files, cursor)
    ensures Inv(Exec(p, files, schedule), files, cursor) && |Exec(p, files, schedule).workers| == |p.workers|
  {
    if schedule != [] {
      ExecKeepsInv(p, files, cursor, schedule[..|schedule| - 1]);
      StepKeepsInv(Exec(p, files, schedule[..|schedule| - 1]), files, cursor, schedule[|schedule| - 1]);
    }
  }

  lemma StepKeepsInv(p: Pool, files: seq<FileResult>, cursor: map<nat, nat>, w: nat)
    requires Inv(p, files, cursor)
    ensures Inv(Step(p, files, w), files, cursor) && |Step(p, files, w).workers| == |p.workers|
  {
    hide Recorded, Accumulated, Distinct, RestIsHeld;
    if w < |p.workers| {
      if p.workers[w].Rereading? || (p.workers[w].Reading? && !files[p.workers[w].i].rewound) {
        FinishKeepsPlaced(p, files, w);
        FinishAccumulates(p, files, cursor, w);
        FinishKeepsRecord(p, files, w);
      } else {
        TakeKeepsPlaced(p, files, w);
        TakeAccumulatesNothing(p, files, cursor, w);
        TakeKeepsRecord(p, files, w);
      }
    }
  }

  // ----- Main result -----

  function Indices(n: nat): seq<nat> {
    seq(n, i => i)
  }

  /** The number of bytes read, file by file. */
  function Bytes(files: seq<FileResult>): seq<int> {
    seq(|files|, i requires 0 <= i < |files| => files[i].bytesRead)
  }

  /** The report on each file. */
  function Reports(files: seq<FileResult>): seq<Report> {
    seq(|files|, i requires 0 <= i < |files| => ReportOf(files[i].events))
  }

  lemma {:induction false} BytesInOrder(files: seq<FileResult>, n: nat)
    requires n <= |files|
    ensures Collect(Indices(n), BytesFor(files)) == Bytes(files)[..n]
  {
    if n == 0 {
      assert Indices(n) == [] && Bytes(files)[..n] == [];
    } else {
      var i: nat := n - 1;
      BytesInOrder(files, i);
      assert Indices(n) == Indices(i) + [i];
      CollectSnoc(Indices(i), i, BytesFor(files));
      TakeNext(Bytes(files), i);
      hide Indices, Collect;
      assert BytesFor(files)(i) == [Bytes(files)[i]];
    }
  }

  lemma TotalInOrder(p: Pool, files: seq<FileResult>, cursor: map<nat, nat>)
    requires Inv(p, files, cursor) && multiset(p.done) == multiset(Indices(|files|))
    ensures p.totalBytes == Sum(Bytes(files))
  {
    CollectPermutes(p.done, Indices(|files|), BytesFor(files));
    BytesInOrder(files, |files|);
    assert Bytes(files)[..|files|] == Bytes(files);
    SumPermutes(Collect(p.done, BytesFor(files)), Bytes(files));
  }

  /** Whatever the schedule, once every worker has stopped each file was read exactly once, every cursor is
      where its file's read ended, the truncated files are recorded once each, the bytes are the sum over all
      files, and the merged report is that of all the files' reports in order. */
  lemma AnyScheduleSameReport(concurrency: nat, files: seq<FileResult>, cursor: map<nat, nat>, schedule: seq<nat>)
    requires 0 < concurrency
    ensures var p := Exec(Initial(concurrency, cursor), files, schedule);
            (forall w :: 0 <= w < |p.workers| ==> p.workers[w].Stopped?) ==>
              && multiset(p.done) == multiset(Indices(|files|))
              && MergeAll(ReportOf([]), p.perFileReports) == MergeAll(EmptyReport, Reports(files))
              && (forall i :: 0 <= i < |files| ==> i in p.cursor && p.cursor[i] == files[i].endByte)
              && p.totalBytes == Sum(Bytes(files)) && Distinct(p.rewoundFiles)
              && (forall i: nat :: i in p.rewoundFiles <==> i < |files| && files[i].rewound)
  {
    hide Inv, Collect, Sum, MergeAll, Reports, Bytes, Indices, Distinct;
    var p := Exec(Initial(concurrency, cursor), files, schedule);
    InitialInv(concurrency, files, cursor);
    ExecKeepsInv(Initial(concurrency, cursor), files, cursor, schedule);
    if forall w :: 0 <= w < |p.workers| ==> p.workers[w].Stopped? {
      AllDone(p, files, cursor);
      MergedInOrder(p, files, cursor);
      TotalInOrder(p, files, cursor);
      EachFile(p, files, cursor);
    }
  }

  lemma EachFile(p: Pool, files: seq<FileResult>, cursor: map<nat, nat>)
    requires Inv(p, files, cursor) && multiset(p.done) == multiset(Indices(|files|))
    ensures forall i :: 0 <= i < |files| ==> i in p.cursor && p.cursor[i] == files[i].endByte
    ensures Distinct(p.rewoundFiles) && forall i: nat :: i in p.rewoundFiles <==> i < |files| && files[i].rewound
  {
    hide Collect, Sum, CursorAfter, RestIsHeld, Distinct;
    forall i: nat | i < |files|
      ensures i in p.done && i in p.cursor && p.cursor[i] == files[i].endByte
    {
      InPermutation(p.done, Indices(|files|), i);
      assert Indices(|files|)[i] == i;
      CursorsMoved(files, cursor, p.done, i);
    }
  }

  lemma AllDone(p: Pool, files: seq<FileResult>, cursor: map<nat, nat>)
    requires Inv(p, files, cursor) && 0 < |p.workers| && forall w :: 0 <= w < |p.workers| ==> p.workers[w].Stopped?
    ensures multiset(p.done) == multiset(Indices(|files|))
  {
    assert p.workers[0].Stopped?;
    assert forall w, i :: 0 <= w < |p.workers| ==> !Holds(p.workers[w], i);
    forall i: nat | i < |files|
      ensures i in Indices(|files|)
    {
      assert Indices(|files|)[i] == i;
    }
    DistinctPermute(p.done, Indices(|files|));
  }

  lemma MergedInOrder(p: Pool, files: seq<FileResult>, cursor: map<nat, nat>)
    requires Inv(p, files, cursor) && multiset(p.done) == multiset(Indices(|files|))
    ensures MergeAll(ReportOf([]), p.perFileReports) == MergeAll(EmptyReport, Reports(files))
  {
    hide ReportFor, Collect, Indices, MergeAll, Placed, Recorded, Reports;
    var inOrder := Collect(Indices(|files|), ReportFor(files));
    assert ReportOf([]) == EmptyReport by { NoEvents(); }
    hide ReportOf;
    CollectPermutes(p.done, Indices(|files|), ReportFor(files));
    MergeAllPermutes(EmptyReport, p.perFileReports, inOrder);
    SilentFilesAddNothing(files, |files|);
    ReportsNext(files, |files|);
  }

  lemma NoEvents()
    ensures ReportOf([]) == EmptyReport
  {
  }

  lemma ReportsNext(files: seq<FileResult>, n: nat)
    requires n <= |files|
    ensures |Reports(files)| == |files|
    ensures Indices(0) == [] && Reports(files)[..0] == [] && Reports(files)[..|files|] == Reports(files)
    ensures 0 < n ==> Indices(n) == Indices(n - 1) + [n - 1]
    ensures 0 < n ==> Reports(files)[..n] == Reports(files)[..n - 1] + [ReportOf(files[n - 1].events)]
  {
    hide ReportOf;
  }

  /** A file without events has a report too, which changes nothing. */
  lemma {:induction false} SilentFilesAddNothing(files: seq<FileResult>, n: nat)
    requires n <= |files|
    ensures MergeAll(EmptyReport, Collect(Indices(n), ReportFor(files))) == MergeAll(EmptyReport, Reports(files)[..n])
  {
    hide Indices, Reports, MergeAll, ReportOf, MergeOf;
    ReportsNext(files, n);
    if n > 0 {
      var i: nat := n - 1;
      var x, before := ReportOf(files[i].events), Collect(Indices(i), ReportFor(files));
      SilentFilesAddNothing(files, i);
      CollectSnoc(Indices(i), i, ReportFor(files));
      hide Collect;
      OneMoreReport(EmptyReport, Reports(files)[..i], x);
      if files[i].events == [] {
        NoEvents();
        MergeIsAMonoid(MergeAll(EmptyReport, before), x, x);
        assert before + [] == before;
      } else {
        OneMoreReport(EmptyReport, before, x);
      }
    }
  }
}
