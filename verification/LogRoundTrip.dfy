/** From what a job wrote on a remote runner to what `forge logs` prints. */
module LogRoundTrip {
  import opened LogQueue
  import opened LogStore
  import opened LogPipeline
  import opened LogWriter

  /** The bytes the job has written, in order. */
  ghost function Output(h: History, k: nat): seq<bv8>
    requires k <= |h.actions|
  {
    if k == 0 then []
    else Output(h, k - 1) + if h.actions[k - 1].Write? then h.actions[k - 1].payload else []
  }

  lemma {:induction false} WrittenIsOutput(h: History, k: nat)
    requires Happens(h) && k < |h.pipes|
    ensures Text(h.pipes[k].written) == Output(h, k)
  {
    hide Text;
    if k == 0 {
      assert Text(Empty().written) == [] by { NoText([]); }
    } else {
      WrittenIsOutput(h, k - 1);
      assert Occurs(h, k - 1);
      WrittenStep(h.pipes[k - 1], h.actions[k - 1]);
    }
  }

  lemma WrittenStep(p: Pipe, a: Action)
    requires Possible(p, a)
    ensures Text(Next(p, a).written) == Text(p.written) + if a.Write? then a.payload else []
  {
    hide Text;
    if a.Write? {
      TextPush(p.written, Chunk(p.q.next + 1, a.stream, a.payload));
    }
  }

  /** What was written, write by write. */
  ghost function Writes(h: History, k: nat): seq<(Stream, seq<bv8>)>
    requires k <= |h.actions|
  {
    if k == 0 then []
    else Writes(h, k - 1) + if h.actions[k - 1].Write? then [(h.actions[k - 1].stream, h.actions[k - 1].payload)] else []
  }

  ghost predicate Records(chunks: seq<Chunk>, writes: seq<(Stream, seq<bv8>)>) {
    |chunks| <= |writes| && forall i :: 0 <= i < |chunks| ==> chunks[i] == Chunk(i + 1, writes[i].0, writes[i].1)
  }

  lemma NextNumber(p: Pipe)
    requires PipeOk(p)
    ensures p.q.next == |p.written|
  {
    hide QueueOk, RowsOk, WireOk, UploaderOk, ReachOk;
  }

  lemma NothingRecorded()
    ensures Records(Empty().written, []) && Empty().written == []
  {
  }

  lemma RecordStep(p: Pipe, a: Action, writes: seq<(Stream, seq<bv8>)>)
    requires PipeOk(p) && Possible(p, a) && |p.written| == |writes| && Records(p.written, writes)
    ensures
      var longer := writes + if a.Write? then [(a.stream, a.payload)] else [];
      |Next(p, a).written| == |longer| && Records(Next(p, a).written, longer)
  {
    hide PipeOk, AppendAll, ValidBatch;
    NextNumber(p);
    if !a.Write? {
      assert writes + [] == writes;
    }
  }

  lemma {:induction false} WrittenAreWrites(h: History, k: nat)
    requires Happens(h) && k < |h.pipes|
    ensures |h.pipes[k].written| == |Writes(h, k)| && Records(h.pipes[k].written, Writes(h, k))
  {
    hide Records, PipeOk, Possible, Next;
    if k == 0 {
      NothingRecorded();
    } else {
      WrittenAreWrites(h, k - 1);
      HistoryOk(h, k - 1);
      assert Occurs(h, k - 1);
      RecordStep(h.pipes[k - 1], h.actions[k - 1], Writes(h, k - 1));
    }
  }

  /** Row by row: the table holds the first writes, one row each, numbered from 1, with their own stream and bytes. */
  lemma RowsAreFirstWrites(h: History, k: nat)
    requires Happens(h) && k < |h.pipes|
    ensures Records(h.pipes[k].rows, Writes(h, k))
  {
    hide Occurs, Window, ReachOk, QueueOk, UploaderOk, Writes;
    ExactlyOnce(h, k);
    WrittenAreWrites(h, k);
  }

  lemma {:induction false} TextOfPrefix(log: seq<Chunk>, n: nat)
    requires n <= |log| && Small(log)
    ensures Text(log[..n]) <= Text(log) && (Text(log[..n]) == Text(log) <==> n == |log|)
    decreases |log|
  {
    if n == |log| {
      assert log[..n] == log;
    } else {
      var front, last := log[..|log| - 1], log[|log| - 1];
      TextOfPrefix(front, n);
      assert front[..n] == log[..n] && Fits(last.payload);
      assert |Text(log[..n])| <= |Text(front)| < |Text(log)|;
    }
  }

  lemma StoredIsPrefix(h: History, k: nat)
    requires Happens(h) && k < |h.pipes|
    ensures
      var p := h.pipes[k];
      && Contiguous(p.rows) && Text(p.rows) <= Output(h, k)
      && (Text(p.rows) == Output(h, k) <==> p.rows == p.written)
  {
    hide Text, Occurs, Window, ReachOk, QueueOk, UploaderOk;
    ExactlyOnce(h, k);
    WrittenIsOutput(h, k);
    AllSmall(h, k);
    var p := h.pipes[k];
    TextOfPrefix(p.written, |p.rows|);
  }

  lemma AllSmall(h: History, k: nat)
    requires Happens(h) && k < |h.pipes|
    ensures Small(h.pipes[k].written)
  {
    HistoryOk(h, k);
    hide Occurs, QueueOk, RowsOk, WireOk, UploaderOk, ReachOk;
  }

  /** Whatever the network did, reading the log back prints the bytes of the job's output from the first on, without gap or
      repetition, and all of them exactly if every chunk written has become durable. */
  method ReadBack(ghost h: History, ghost k: nat, rows: Rows) returns (printed: seq<bv8>)
    requires Happens(h) && k < |h.pipes| && rows == h.pipes[k].rows
    ensures printed <= Output(h, k)
    ensures printed == Output(h, k) <==> h.pipes[k].rows == h.pipes[k].written
  {
    hide Occurs, Text, Output, Contiguous;
    StoredIsPrefix(h, k);
    var pages;
    printed, pages := PrintLogs(rows);
  }

  /** After an uploader that ended because of the close, the log is complete exactly if nothing was written after its last empty peek. */
  lemma CompleteAfterClose(h: History, k: nat)
    requires Happens(h) && k < |h.pipes| && h.pipes[k].uploader.Stopped? && h.pipes[k].uploader.closed
    ensures Text(h.pipes[k].rows) == Output(h, k) <==> |h.pipes[k].written| == h.pipes[k].uploader.mark
  {
    hide Occurs, Text, Output, Contiguous;
    StoredIsPrefix(h, k);
    DrainedUpToLastPeek(h, k);
  }
}
