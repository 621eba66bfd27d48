/** The runner's bounded queue of log chunks waiting to be uploaded. */
module LogQueue {

  const MAX_PENDING_LOG_BYTES: nat := 0x10_0000
  const MAX_LOG_CHUNK_BYTES: nat := 0x1_0000
  const MAX_LOG_CHUNKS_PER_REQUEST: nat := 8
  const MAX_LOG_APPEND_BODY_BYTES: nat := 0x10_0000

  datatype Stream = Stdout | Stderr
  datatype Chunk = Chunk(sequence: nat, stream: Stream, payload: seq<bv8>)

  function Bytes(chunks: seq<Chunk>): nat {
    if chunks == [] then 0 else Bytes(chunks[..|chunks| - 1]) + |chunks[|chunks| - 1].payload|
  }

  lemma BytesPush(chunks: seq<Chunk>, c: Chunk)
    ensures Bytes(chunks + [c]) == Bytes(chunks) + |c.payload|
  {
    assert (chunks + [c])[..|chunks|] == chunks;
  }

  lemma BytesStep(chunks: seq<Chunk>, i: nat)
    requires i < |chunks|
    ensures Bytes(chunks[..i + 1]) == Bytes(chunks[..i]) + |chunks[i].payload|
  {
    hide Bytes;
    BytesPush(chunks[..i], chunks[i]);
    assert chunks[..i + 1] == chunks[..i] + [chunks[i]];
  }

  lemma NoBytes(chunks: seq<Chunk>)
    ensures Bytes(chunks[..0]) == 0
  {
  }

  lemma {:induction false} BytesSplit(chunks: seq<Chunk>, n: nat)
    requires n <= |chunks|
    ensures Bytes(chunks) == Bytes(chunks[..n]) + Bytes(chunks[n..])
  {
    if n == |chunks| {
      assert chunks[..n] == chunks;
    } else {
      var front, last := chunks[..|chunks| - 1], chunks[|chunks| - 1];
      BytesSplit(front, n);
      assert front[..n] == chunks[..n] && chunks[n..] == front[n..] + [last];
      BytesPush(front[n..], last);
    }
  }

  predicate Fits(payload: seq<bv8>) {
    0 < |payload| <= MAX_LOG_CHUNK_BYTES
  }

  /** The fields behind the queue's mutex. `signals` is how often the notify channel was closed and replaced:
      a waiter holds the number it found and is woken once it has grown. */
  datatype Queue = Queue(chunks: seq<Chunk>, pending: int, next: nat, closed: bool, failed: bool, signals: nat)

  /** Consecutive sequence numbers ending at `next`, a correct byte count, and the memory bound. */
  ghost predicate Sound(q: Queue) {
    && |q.chunks| <= q.next
    && q.pending == Bytes(q.chunks) <= MAX_PENDING_LOG_BYTES
    && (forall i :: 0 <= i < |q.chunks| ==>
          q.chunks[i].sequence == q.next - |q.chunks| + i + 1 && Fits(q.chunks[i].payload))
  }

  function Pushed(q: Queue, stream: Stream, payload: seq<bv8>): Queue {
    q.(chunks := q.chunks + [Chunk(q.next + 1, stream, payload)], pending := q.pending + |payload|, next := q.next + 1,
       signals := q.signals + 1)
  }

  function Dropped(q: Queue, count: nat): Queue
    requires count <= |q.chunks|
  {
    q.(chunks := q.chunks[count..], pending := Bytes(q.chunks[count..]), signals := q.signals + 1)
  }

  lemma DroppedSound(q: Queue, count: nat)
    requires Sound(q) && count <= |q.chunks|
    ensures Sound(Dropped(q, count))
  {
    hide Bytes;
    BytesSplit(q.chunks, count);
  }

  lemma PushedSound(q: Queue, stream: Stream, payload: seq<bv8>)
    requires Sound(q) && Fits(payload) && q.pending + |payload| <= MAX_PENDING_LOG_BYTES
    ensures Sound(Pushed(q, stream, payload))
  {
    hide Bytes;
    BytesPush(q.chunks, Chunk(q.next + 1, stream, payload));
  }

  lemma SoundPending(q: Queue)
    requires Sound(q)
    ensures q.pending == Bytes(q.chunks)
  {
  }

  function Failing(q: Queue): Queue {
    if q.failed then q else q.(failed := true, signals := q.signals + 1)
  }

  function Closing(q: Queue): Queue {
    if q.closed then q else q.(closed := true, signals := q.signals + 1)
  }

  /** The size a chunk is taken to have in a request body: its base64 text (section 4 of RFC 4648) and an envelope. */
  function Encoded(c: Chunk): nat {
    4 * ((|c.payload| + 2) / 3) + 192
  }

  /** Four characters for every three bytes begun, and 192 for the envelope. */
  lemma EncodedLength(c: Chunk)
    ensures
      var text := Encoded(c) - 192;
      text % 4 == 0 && 4 * |c.payload| <= 3 * text < 4 * |c.payload| + 12
  {
  }

  function EncodedAll(chunks: seq<Chunk>): nat {
    if chunks == [] then 512 else EncodedAll(chunks[..|chunks| - 1]) + Encoded(chunks[|chunks| - 1])
  }

  function Min(a: int, b: int): int {
    if a < b then a else b
  }

  /** What one request takes. */
  function FirstEight(chunks: seq<Chunk>): seq<Chunk> {
    chunks[..Min(8, |chunks|)]
  }

  lemma {:induction false} FullBatchFits(chunks: seq<Chunk>)
    requires forall i :: 0 <= i < |chunks| ==> Fits(chunks[i].payload)
    ensures EncodedAll(chunks) <= 512 + 87_576 * |chunks|
  {
    if chunks != [] {
      FullBatchFits(chunks[..|chunks| - 1]);
      assert Encoded(chunks[|chunks| - 1]) <= 87_576;
    }
  }

  datatype Enqueued = Accepted(sequence: nat) | Invalid | Failed | Closed | WouldBlock

  class PendingLogQueue {
    var chunks: seq<Chunk>
    var pending: int
    var next: nat
    var closed: bool
    var failed: bool
    var signals: nat

    constructor ()
      ensures View() == Queue([], 0, 0, false, false, 0)
    {
      chunks, pending, next, closed, failed, signals := [], 0, 0, false, false, 0;
    }

    ghost function View(): Queue
      reads this
    {
      Queue(chunks, pending, next, closed, failed, signals)
    }

    /** One pass of `Enqueue` under the lock; `WouldBlock` is where the caller waits and tries again. */
    method Enqueue(stream: Stream, payload: seq<bv8>) returns (r: Enqueued)
      requires Sound(View())
      modifies this
      ensures Sound(View())
      ensures r.Invalid? <==> !Fits(payload)
      ensures !r.Accepted? ==> View() == old(View())
      ensures r.Failed? <==> Fits(payload) && old(failed)
      ensures r.Closed? <==> Fits(payload) && !old(failed) && old(closed)
      ensures r.WouldBlock? <==> Fits(payload) && !old(failed) && !old(closed) && old(pending) + |payload| > MAX_PENDING_LOG_BYTES
      ensures r.Accepted? ==>
        && r.sequence == old(next) + 1
        && View() == Pushed(old(View()), stream, payload)
    {
      hide Sound;
      if |payload| == 0 || |payload| > MAX_LOG_CHUNK_BYTES {
        return Invalid;
      }
      if failed {
        return Failed;
      }
      if closed {
        return Closed;
      }
      if pending + |payload| <= MAX_PENDING_LOG_BYTES {
        PushedSound(View(), stream, payload);
        next := next + 1;
        chunks := chunks + [Chunk(next, stream, payload)];
        pending := pending + |payload|;
        signals := signals + 1;
        return Accepted(next);
      }
      return WouldBlock;
    }

    /** The longest prefix within both limits; with the limits the uploader uses, the first eight chunks or all. */
    method PeekBatch(maxChunks: int, maxBodyBytes: int) returns (out: seq<Chunk>)
      requires Sound(View())
      ensures out <= chunks
      ensures maxChunks == MAX_LOG_CHUNKS_PER_REQUEST && maxBodyBytes == MAX_LOG_APPEND_BODY_BYTES ==> |out| == Min(8, |chunks|) && out == FirstEight(chunks)
      ensures |out| < |chunks| ==>
        || |out| == Min(maxChunks, MAX_LOG_CHUNKS_PER_REQUEST)
        || EncodedAll(chunks[..|out| + 1]) > Min(maxBodyBytes, MAX_LOG_APPEND_BODY_BYTES)
      ensures out != [] ==> EncodedAll(out) <= Min(maxBodyBytes, MAX_LOG_APPEND_BODY_BYTES)
    {
      var limit := Min(maxChunks, MAX_LOG_CHUNKS_PER_REQUEST);
      var body := Min(maxBodyBytes, MAX_LOG_APPEND_BODY_BYTES);
      var used := 512;
      out := [];
      for i := 0 to |chunks|
        invariant out == chunks[..i] && used == EncodedAll(out) && (i > 0 ==> used <= body)
        invariant maxChunks == MAX_LOG_CHUNKS_PER_REQUEST ==> i <= 8
      {
        if |out| == limit {
          break;
        }
        var c := chunks[i];
        assert chunks[..i + 1] == chunks[..i] + [c];
        assert chunks[..i + 1][..i] == chunks[..i];
        FullBatchFits(chunks[..i + 1]);
        if used + Encoded(c) > body {
          break;
        }
        used := used + Encoded(c);
        out := out + [c];
      }
    }

    /** Drops the first `count` chunks and releases exactly their bytes. */
    method Ack(count: int) returns (ok: bool)
      requires Sound(View())
      modifies this
      ensures Sound(View())
      ensures ok <==> 0 <= count <= |old(chunks)|
      ensures !ok ==> View() == old(View())
      ensures ok ==> View() == Dropped(old(View()), count)
    {
      if count < 0 || count > |chunks| {
        return false;
      }
      hide Bytes, Sound;
      DroppedSound(View(), count);
      SoundPending(View());
      BytesSplit(chunks, count);
      NoBytes(chunks);
      for i := 0 to count
        invariant unchanged(`chunks) && unchanged(`next) && unchanged(`closed) && unchanged(`failed) && unchanged(`signals)
        invariant pending == old(pending) - Bytes(chunks[..i])
      {
        BytesStep(chunks, i);
        pending := pending - |chunks[i].payload|;
      }
      chunks := chunks[count..];
      signals := signals + 1;
      return true;
    }

    method Fail()
      modifies this
      ensures View() == Failing(old(View()))
    {
      if !failed {
        failed := true;
        signals := signals + 1;
      }
    }

    method Close()
      modifies this
      ensures View() == Closing(old(View()))
    {
      if !closed {
        closed := true;
        signals := signals + 1;
      }
    }
  }
}
