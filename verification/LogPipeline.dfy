/**
 The remote log path end to end: producer, bounded queue, retrying uploader, and a network that may
 lose, duplicate, reorder and delay requests and replies, in front of the idempotent store.
 The uploader looks at the queue twice, as the code does: a peek, then, under a second lock, a check for failure or
 close that also picks up the channel it will wait on.
 */
module LogPipeline {
  import opened LogQueue
  import opened LogStore

  datatype Uploader =
    | Idle
    | FoundEmpty(mark: nat)
    | Parked(channel: nat, mark: nat, parkedAt: nat)
    | Sending(batch: seq<Chunk>)
    | Stopped(closed: bool, mark: nat)

  /**
   `written` is everything the job ever enqueued; `sent` every request body ever put on the wire and
   `replied` every success reply. `mark` counts what had been written at the uploader's last empty peek, `parkedAt` at the check after it.
   */
  datatype Pipe = Pipe(q: Queue, written: seq<Chunk>, rows: Rows, sent: set<seq<Chunk>>, replied: set<seq<Chunk>>, uploader: Uploader)

  datatype Action =
    | Write(stream: Stream, payload: seq<bv8>)
    | CloseQueue
    | Peek
    | Check
    | Wake
    | Leave
    | Send
    | Deliver(batch: seq<Chunk>)
    | Acknowledge
    | GiveUp

  ghost predicate Possible(p: Pipe, a: Action) {
    match a
    case Write(_, payload) =>
      Fits(payload) && !p.q.failed && !p.q.closed && p.q.pending + |payload| <= MAX_PENDING_LOG_BYTES
    case CloseQueue => true
    case Peek => p.uploader.Idle?
    case Check => p.uploader.FoundEmpty?
    case Wake => p.uploader.Parked? && p.uploader.channel < p.q.signals
    case Leave => p.uploader.Parked?
    case Send => p.uploader.Sending?
    case Deliver(b) => b in p.sent
    case Acknowledge => p.uploader.Sending? && p.uploader.batch in p.replied && |p.uploader.batch| <= |p.q.chunks|
    case GiveUp => p.uploader.Sending?
  }

  ghost function Next(p: Pipe, a: Action): Pipe
    requires Possible(p, a)
  {
    match a
    case Write(stream, payload) =>
      p.(q := Pushed(p.q, stream, payload), written := p.written + [Chunk(p.q.next + 1, stream, payload)])
    case CloseQueue => p.(q := Closing(p.q))
    case Peek => p.(uploader := if p.q.chunks == [] then FoundEmpty(|p.written|) else Sending(FirstEight(p.q.chunks)))
    case Check =>
      var mark := p.uploader.mark;
      p.(uploader := if p.q.failed then Stopped(false, mark) else if p.q.closed then Stopped(true, mark) else Parked(p.q.signals, mark, |p.written|))
    case Wake => p.(uploader := Idle)
    case Leave => p.(uploader := Stopped(false, p.uploader.mark))
    case Send => p.(sent := p.sent + {p.uploader.batch})
    case Deliver(b) =>
      if ValidBatch(b) && AppendAll(p.rows, b).Stored? then p.(rows := AppendAll(p.rows, b).rows, replied := p.replied + {b}) else p
    case Acknowledge => p.(q := Dropped(p.q, |p.uploader.batch|), uploader := Idle)
    case GiveUp => p.(q := Failing(p.q), uploader := Stopped(false, 0))
  }

  /** How many chunks have been acknowledged to the queue. */
  ghost function Acked(p: Pipe): int {
    |p.written| - |p.q.chunks|
  }

  /** A request body is a window of the log that starts no later than the acknowledged prefix ends. */
  ghost predicate Window(p: Pipe, b: seq<Chunk>) {
    && 0 < |b| <= 8 && b[0].sequence >= 1
    && b[0].sequence - 1 <= Acked(p) && b[0].sequence - 1 + |b| <= |p.written|
    && b == p.written[b[0].sequence - 1..b[0].sequence - 1 + |b|]
  }

  ghost predicate WrittenOk(p: Pipe) {
    Contiguous(p.written) && p.q.next == |p.written| && forall i :: 0 <= i < |p.written| ==> Fits(p.written[i].payload)
  }

  /** The queue holds exactly the unacknowledged suffix, within its memory bound. */
  ghost predicate QueueOk(p: Pipe) {
    Sound(p.q) && |p.q.chunks| <= |p.written| && p.q.chunks == p.written[Acked(p)..]
  }

  /** The durable rows are a prefix of the log reaching at least the acknowledged part. */
  ghost predicate RowsOk(p: Pipe) {
    Acked(p) <= |p.rows| <= |p.written| && p.rows == p.written[..|p.rows|]
  }

  ghost predicate WireOk(p: Pipe) {
    && (forall b :: b in p.sent ==> Window(p, b))
    && (forall b: seq<Chunk> :: b in p.replied ==> b in p.sent && b != [] && b[0].sequence - 1 + |b| <= |p.rows|)
  }

  ghost predicate UploaderOk(p: Pipe) {
    match p.uploader
    case Idle => true
    case FoundEmpty(m) => m == Acked(p)
    case Parked(c, m, at) =>
      m == Acked(p) && c <= p.q.signals && m <= at <= |p.written| && (c == p.q.signals ==> at == |p.written|)
    case Sending(b) => 0 < |b| <= 8 && b <= p.q.chunks
    case Stopped(closed, m) => closed ==> p.q.closed && m == Acked(p)
  }

  /** How far the uploader can have sent: what is acknowledged and the batch it is sending. */
  ghost function Reach(p: Pipe): int {
    Acked(p) + if p.uploader.Sending? then |p.uploader.batch| else 0
  }

  /** Until the uploader gives up, nothing sent or stored goes further than that. */
  ghost predicate ReachOk(p: Pipe) {
    || (p.uploader.Stopped? && !p.uploader.closed)
    || (|p.rows| <= Reach(p) && forall b: seq<Chunk> :: b in p.sent && b != [] ==> b[0].sequence - 1 + |b| <= Reach(p))
  }

  ghost predicate PipeOk(p: Pipe) {
    WrittenOk(p) && QueueOk(p) && RowsOk(p) && WireOk(p) && UploaderOk(p) && ReachOk(p)
  }

  lemma DropDrop(s: seq<Chunk>, a: nat, c: nat)
    requires a + c <= |s|
    ensures s[a..][c..] == s[a + c..]
  {
  }

  lemma PushDrop(s: seq<Chunk>, c: Chunk, a: nat)
    requires a <= |s|
    ensures (s + [c])[a..] == s[a..] + [c]
  {
  }

  lemma PrefixOfDrop(s: seq<Chunk>, a: nat, b: seq<Chunk>)
    requires a <= |s| && b <= s[a..]
    ensures a + |b| <= |s| && b == s[a..a + |b|] && (b != [] ==> b[0] == s[a])
  {
  }

  lemma WriteKeepsQueue(p: Pipe, stream: Stream, payload: seq<bv8>, n: Pipe)
    requires Possible(p, Write(stream, payload)) && n == Next(p, Write(stream, payload))
    requires WrittenOk(p) && QueueOk(p)
    ensures WrittenOk(n) && QueueOk(n) && Acked(n) == Acked(p)
  {
    hide Sound, Bytes;
    var c := Chunk(p.q.next + 1, stream, payload);
    PushedSound(p.q, stream, payload);
    PushDrop(p.written, c, Acked(p));
  }

  lemma WriteKeeps(p: Pipe, stream: Stream, payload: seq<bv8>, n: Pipe)
    requires Possible(p, Write(stream, payload)) && n == Next(p, Write(stream, payload))
    requires PipeOk(p)
    ensures PipeOk(n)
  {
    hide WrittenOk, QueueOk, Sound;
    WriteKeepsQueue(p, stream, payload, n);
    forall b: seq<Chunk> | b in n.sent ensures Window(n, b) {
      assert Window(p, b);
      var a := b[0].sequence - 1;
      assert n.written[a..a + |b|] == p.written[a..a + |b|];
    }
  }

  lemma WindowIsValid(p: Pipe, b: seq<Chunk>)
    requires WrittenOk(p) && Window(p, b)
    ensures ValidBatch(b)
  {
    var a := b[0].sequence - 1;
    forall i | 0 <= i < |b| ensures b[i] == p.written[a + i] && b[i].sequence == a + i + 1 && Fits(b[i].payload) {
      assert b[i] == p.written[a..a + |b|][i];
    }
  }

  lemma WindowIsStored(log: seq<Chunk>, rows: Rows, b: seq<Chunk>, a: nat)
    requires Contiguous(log) && |rows| <= |log| && rows == log[..|rows|] && a <= |rows| && a + |b| <= |log| && b == log[a..a + |b|]
    ensures AppendAll(rows, b) == Stored(log[..if |rows| < a + |b| then a + |b| else |rows|])
  {
    hide *;
    AppendWindow(log, |rows|, a, a + |b|);
  }

  /** Every batch ever sent is accepted, whenever it arrives: the store then holds the longer prefix. */
  lemma SentIsAccepted(p: Pipe, b: seq<Chunk>)
    requires WrittenOk(p) && RowsOk(p) && Window(p, b)
    ensures ValidBatch(b)
    ensures
      var end := b[0].sequence - 1 + |b|;
      AppendAll(p.rows, b) == Stored(p.written[..if |p.rows| < end then end else |p.rows|])
  {
    hide AppendAll, ValidBatch, Contiguous, Fits;
    WindowIsValid(p, b);
    WindowIsStored(p.written, p.rows, b, b[0].sequence - 1);
  }

  lemma DeliverKeeps(p: Pipe, b: seq<Chunk>, n: Pipe)
    requires b in p.sent && n == Next(p, Deliver(b))
    requires PipeOk(p)
    ensures PipeOk(n)
  {
    hide AppendAll, ValidBatch, WrittenOk, Sound;
    assert Window(p, b);
    SentIsAccepted(p, b);
    assert n == p.(rows := n.rows, replied := p.replied + {b}) && |p.rows| <= |n.rows|;
    assert WrittenOk(n) by { SameWritten(p, n); }
    forall c | c in n.sent ensures Window(n, c) {
      assert Window(p, c);
    }
  }

  lemma SameWritten(p: Pipe, n: Pipe)
    requires WrittenOk(p) && n.written == p.written && n.q == p.q
    ensures WrittenOk(n)
  {
  }

  lemma AcknowledgeKeepsQueue(p: Pipe, n: Pipe)
    requires Possible(p, Acknowledge) && n == Next(p, Acknowledge)
    requires WrittenOk(p) && QueueOk(p) && UploaderOk(p)
    ensures WrittenOk(n) && QueueOk(n) && Acked(n) == Acked(p) + |p.uploader.batch|
    ensures p.uploader.batch[0].sequence == Acked(p) + 1
  {
    hide Contiguous, ValidBatch, AppendAll, Sound, Bytes;
    var b := p.uploader.batch;
    DroppedSound(p.q, |b|);
    BatchIsWindow(p);
    PrefixOfDrop(p.written, Acked(p), b);
    DropDrop(p.written, Acked(p), |b|);
  }

  lemma AcknowledgeKeeps(p: Pipe, n: Pipe)
    requires Possible(p, Acknowledge) && n == Next(p, Acknowledge)
    requires PipeOk(p)
    ensures PipeOk(n)
  {
    hide WrittenOk, QueueOk, Contiguous, ValidBatch, AppendAll, Bytes;
    AcknowledgeKeepsQueue(p, n);
    assert n.written == p.written && n.rows == p.rows && n.sent == p.sent && n.replied == p.replied;
    forall c | c in n.sent ensures Window(n, c) {
      assert Window(p, c);
    }
  }

  lemma BatchIsWindow(p: Pipe)
    requires WrittenOk(p) && QueueOk(p) && UploaderOk(p) && p.uploader.Sending?
    ensures Window(p, p.uploader.batch) && p.uploader.batch[0].sequence == Acked(p) + 1
  {
    hide Sound, Bytes, Fits;
    PrefixOfDrop(p.written, Acked(p), p.uploader.batch);
  }

  lemma SendKeeps(p: Pipe, n: Pipe)
    requires Possible(p, Send) && n == Next(p, Send)
    requires PipeOk(p)
    ensures PipeOk(n)
  {
    BatchIsWindow(p);
    hide WrittenOk, QueueOk;
    assert n.written == p.written && n.q == p.q && n.rows == p.rows && n.uploader == p.uploader;
    SameWritten(p, n);
    SameQueue(p, n);
    forall c | c in n.sent ensures Window(n, c) {
      assert Window(p, c);
    }
  }

  lemma SameQueue(p: Pipe, n: Pipe)
    requires QueueOk(p) && n.written == p.written && n.q == p.q
    ensures QueueOk(n)
  {
  }

  /** No interleaving of producer, uploader, network and server breaks the pipeline. */
  lemma ActionKeeps(p: Pipe, a: Action)
    requires PipeOk(p) && Possible(p, a)
    ensures PipeOk(Next(p, a))
  {
    match a
    case Write(stream, payload) => WriteKeeps(p, stream, payload, Next(p, a));
    case Deliver(b) => DeliverKeeps(p, b, Next(p, a));
    case Acknowledge => AcknowledgeKeeps(p, Next(p, a));
    case Send => SendKeeps(p, Next(p, a));
    case _ => SmallStepsKeep(p, a);
  }

  lemma SmallStepsKeep(p: Pipe, a: Action)
    requires PipeOk(p) && Possible(p, a) && (a.CloseQueue? || a.Peek? || a.Check? || a.Wake? || a.Leave? || a.GiveUp?)
    ensures PipeOk(Next(p, a))
  {
    var n := Next(p, a);
    assert n.written == p.written && n.q.chunks == p.q.chunks;
    forall c | c in n.sent ensures Window(n, c) {
      assert Window(p, c);
    }
  }

  // ----- Whole histories -----

  datatype History = History(pipes: seq<Pipe>, actions: seq<Action>)

  ghost function Empty(): Pipe {
    Pipe(Queue([], 0, 0, false, false, 0), [], [], {}, {}, Idle)
  }

  ghost predicate Happens(h: History) {
    && |h.pipes| == |h.actions| + 1 && h.pipes[0] == Empty()
    && (forall i :: 0 <= i < |h.actions| ==> Occurs(h, i))
  }

  ghost predicate Occurs(h: History, i: nat)
    requires i < |h.actions| && |h.pipes| == |h.actions| + 1
  {
    Possible(h.pipes[i], h.actions[i]) && h.pipes[i + 1] == Next(h.pipes[i], h.actions[i])
  }

  lemma EmptyOk()
    ensures PipeOk(Empty())
  {
  }

  lemma {:induction false} HistoryOk(h: History, k: nat)
    requires Happens(h) && k < |h.pipes|
    ensures PipeOk(h.pipes[k])
  {
    hide PipeOk, Possible, Next;
    if k == 0 {
      EmptyOk();
    } else {
      HistoryOk(h, k - 1);
      assert Occurs(h, k - 1);
      ActionKeeps(h.pipes[k - 1], h.actions[k - 1]);
    }
  }

  /**
   Exactly once, in order: whatever was lost, duplicated or delayed, the rows are the first k chunks written,
   between those acknowledged and those enqueued; the queue holds the rest within its bound; and no request
   ever sent can be rejected as a conflict.
   */
  lemma ExactlyOnce(h: History, k: nat)
    requires Happens(h) && k < |h.pipes|
    ensures
      var p := h.pipes[k];
      && 0 <= Acked(p) <= |p.rows| <= |p.written| && p.rows == p.written[..|p.rows|] && Contiguous(p.rows)
      && p.q.chunks == p.written[Acked(p)..] && Bytes(p.q.chunks) <= 1_048_576
      && (forall b :: b in p.sent ==> ValidBatch(b) && AppendAll(p.rows, b).Stored?)
  {
    HistoryOk(h, k);
    hide Occurs, AppendAll, ValidBatch, Bytes;
    var p := h.pipes[k];
    forall b | b in p.sent ensures ValidBatch(b) && AppendAll(p.rows, b).Stored? {
      SentIsAccepted(p, b);
    }
  }

  /** What a closed queue leaves behind: an uploader that stops because of the close has made durable exactly what was
      written up to its last empty peek, and abandons exactly the chunks written after it. */
  lemma DrainedUpToLastPeek(h: History, k: nat)
    requires Happens(h) && k < |h.pipes| && h.pipes[k].uploader.Stopped? && h.pipes[k].uploader.closed
    ensures
      var p := h.pipes[k];
      && |p.rows| == p.uploader.mark <= |p.written| && p.rows == p.written[..p.uploader.mark] && p.q.chunks == p.written[p.uploader.mark..]
      && (p.rows == p.written <==> |p.written| == p.uploader.mark)
  {
    HistoryOk(h, k);
    hide Occurs, WireOk;
  }

  // ----- What is always possible -----

  /** `p` can get to `n` by these steps. */
  ghost predicate Leads(p: Pipe, actions: seq<Action>, n: Pipe)
    decreases |actions|
  {
    if actions == [] then p == n else Possible(p, actions[0]) && Leads(Next(p, actions[0]), actions[1..], n)
  }

  lemma {:induction false} LeadsOn(p: Pipe, first: seq<Action>, m: Pipe, second: seq<Action>, n: Pipe)
    requires Leads(p, first, m) && Leads(m, second, n)
    ensures Leads(p, first + second, n)
    decreases |first|
  {
    if first == [] {
      assert first + second == second;
    } else {
      hide Possible, Next;
      LeadsOn(Next(p, first[0]), first[1..], m, second, n);
      assert (first + second)[0] == first[0] && (first + second)[1..] == first[1..] + second;
    }
  }

  /** One batch: sent, delivered, acknowledged. */
  lemma OneBatch(p: Pipe) returns (n: Pipe)
    requires PipeOk(p) && p.uploader.Sending?
    ensures Leads(p, [Send, Deliver(p.uploader.batch), Acknowledge], n) && PipeOk(n)
    ensures n.uploader.Idle? && n.written == p.written && |n.q.chunks| < |p.q.chunks|
  {
    hide PipeOk, Possible, Next;
    var b := p.uploader.batch;
    var p1, p2 := SendAndDeliver(p);
    BatchInQueue(p2);
    n := Drops(p2);
    var steps := [Send, Deliver(b), Acknowledge];
    assert steps[1..] == [Deliver(b), Acknowledge] && steps[1..][1..] == [Acknowledge] && [Acknowledge][1..] == [];
    assert Leads(n, [], n);
    assert Leads(p2, [Acknowledge], n);
    assert Leads(p1, steps[1..], n);
  }

  lemma SendAndDeliver(p: Pipe) returns (p1: Pipe, p2: Pipe)
    requires PipeOk(p) && p.uploader.Sending?
    ensures Possible(p, Send) && p1 == Next(p, Send) && Possible(p1, Deliver(p.uploader.batch)) && p2 == Next(p1, Deliver(p.uploader.batch))
    ensures PipeOk(p2) && p2.uploader == p.uploader && p.uploader.batch in p2.replied && p2.written == p.written && p2.q == p.q
  {
    hide PipeOk, AppendAll, ValidBatch;
    BatchAccepted(p);
    ActionKeeps(p, Send);
    p1 := Next(p, Send);
    ActionKeeps(p1, Deliver(p.uploader.batch));
    p2 := Next(p1, Deliver(p.uploader.batch));
  }

  lemma BatchAccepted(p: Pipe)
    requires PipeOk(p) && p.uploader.Sending?
    ensures ValidBatch(p.uploader.batch) && AppendAll(p.rows, p.uploader.batch).Stored?
  {
    hide AppendAll, ValidBatch, ReachOk, WireOk;
    BatchIsWindow(p);
    SentIsAccepted(p, p.uploader.batch);
  }

  lemma Drops(p: Pipe) returns (n: Pipe)
    requires PipeOk(p) && p.uploader.Sending? && p.uploader.batch in p.replied && 0 < |p.uploader.batch| <= |p.q.chunks|
    ensures Possible(p, Acknowledge) && n == Next(p, Acknowledge) && PipeOk(n)
    ensures n.uploader.Idle? && n.written == p.written && |n.q.chunks| < |p.q.chunks|
  {
    hide PipeOk, Bytes;
    ActionKeeps(p, Acknowledge);
    n := Next(p, Acknowledge);
  }

  lemma BatchInQueue(p: Pipe)
    requires PipeOk(p) && p.uploader.Sending?
    ensures 0 < |p.uploader.batch| <= |p.q.chunks|
  {
    hide WrittenOk, QueueOk, RowsOk, WireOk, ReachOk;
  }

  lemma NothingQueued(p: Pipe)
    requires PipeOk(p) && p.q.chunks == []
    ensures p.rows == p.written
  {
    hide WrittenOk, WireOk, UploaderOk, ReachOk;
  }

  ghost predicate UploadsOnly(actions: seq<Action>) {
    forall i :: 0 <= i < |actions| ==> actions[i].Peek? || actions[i].Send? || actions[i].Deliver? || actions[i].Acknowledge?
  }

  /** However badly things have gone, as long as the uploader is at work nothing is lost yet: without a write, a close or a failure,
      requests that arrive and are answered make every chunk written durable. */
  lemma {:induction false} CanDrain(p: Pipe) returns (actions: seq<Action>, n: Pipe)
    requires PipeOk(p) && (p.uploader.Idle? || p.uploader.Sending?)
    ensures Leads(p, actions, n) && UploadsOnly(actions)
    ensures n.written == p.written && n.rows == p.written && n.q.chunks == []
    decreases |p.q.chunks|, p.uploader.Idle?
  {
    hide PipeOk;
    if p.uploader.Sending? {
      var b := p.uploader.batch;
      var m := OneBatch(p);
      actions, n := CanDrain(m);
      hide Leads, Possible, Next;
      LeadsOn(p, [Send, Deliver(b), Acknowledge], m, actions, n);
      actions := [Send, Deliver(b), Acknowledge] + actions;
    } else if p.q.chunks == [] {
      NothingQueued(p);
      actions, n := [], p;
    } else {
      ActionKeeps(p, Peek);
      var m := Next(p, Peek);
      actions, n := CanDrain(m);
      assert ([Peek] + actions)[1..] == actions;
      actions := [Peek] + actions;
    }
  }

  lemma DrainIsPossible(h: History, k: nat) returns (actions: seq<Action>, n: Pipe)
    requires Happens(h) && k < |h.pipes| && (h.pipes[k].uploader.Idle? || h.pipes[k].uploader.Sending?)
    ensures Leads(h.pipes[k], actions, n) && UploadsOnly(actions)
    ensures n.written == h.pipes[k].written && n.rows == h.pipes[k].written && n.q.chunks == []
  {
    hide Occurs, PipeOk, Leads, UploadsOnly;
    HistoryOk(h, k);
    actions, n := CanDrain(h.pipes[k]);
  }

  // ----- Waiting for more -----

  ghost predicate Asleep(p: Pipe) {
    p.uploader.Parked? && p.uploader.channel == p.q.signals
  }

  /** A sleeping uploader leaves in the queue exactly what was written between its peek and its check. */
  lemma StrandedIff(h: History, k: nat)
    requires Happens(h) && k < |h.pipes| && Asleep(h.pipes[k])
    ensures
      var p := h.pipes[k];
      && p.uploader.mark <= p.uploader.parkedAt == |p.written| && p.q.chunks == p.written[p.uploader.mark..p.uploader.parkedAt]
      && (p.q.chunks != [] <==> p.uploader.mark < p.uploader.parkedAt)
  {
    HistoryOk(h, k);
    hide Occurs, WireOk, ReachOk, RowsOk;
  }

  /** Exactly the next write, or the close, wakes it. */
  lemma WokenExactlyBy(h: History, i: nat)
    requires Happens(h) && i < |h.actions| && Asleep(h.pipes[i]) && h.pipes[i + 1].uploader == h.pipes[i].uploader
    ensures Possible(h.pipes[i + 1], Wake) <==> h.actions[i].Write? || (h.actions[i].CloseQueue? && !h.pipes[i].q.closed)
  {
    HistoryOk(h, i);
    assert Occurs(h, i);
    hide WrittenOk, QueueOk, RowsOk, WireOk, ReachOk, AppendAll, ValidBatch;
  }

  /** A chunk written between the uploader's peek and its check leaves it asleep beside a queue that is not empty. */
  lemma WriteCanStrand(payload: seq<bv8>) returns (h: History)
    requires Fits(payload)
    ensures Happens(h)
    ensures
      var p := h.pipes[|h.pipes| - 1];
      Asleep(p) && p.q.chunks == [Chunk(1, Stdout, payload)] && p.rows == [] && !p.q.closed && !p.q.failed
  {
    var p0 := Empty();
    var p1 := Next(p0, Peek);
    var p2 := Next(p1, Write(Stdout, payload));
    var p3 := Next(p2, Check);
    h := History([p0, p1, p2, p3], [Peek, Write(Stdout, payload), Check]);
    assert Occurs(h, 0) && Occurs(h, 1) && Occurs(h, 2);
  }

  /** A chunk written and the queue closed between the uploader's peek and its check is never uploaded. */
  lemma CloseCanLoseChunks(payload: seq<bv8>) returns (h: History)
    requires Fits(payload)
    ensures Happens(h)
    ensures
      var p := h.pipes[|h.pipes| - 1];
      p.uploader == Stopped(true, 0) && p.written == p.q.chunks == [Chunk(1, Stdout, payload)] && p.rows == [] && !p.q.failed
  {
    var p0 := Empty();
    var p1 := Next(p0, Peek);
    var p2 := Next(p1, Write(Stdout, payload));
    var p3 := Next(p2, CloseQueue);
    var p4 := Next(p3, Check);
    h := History([p0, p1, p2, p3, p4], [Peek, Write(Stdout, payload), CloseQueue, Check]);
    assert Occurs(h, 0) && Occurs(h, 1) && Occurs(h, 2) && Occurs(h, 3);
  }
}
