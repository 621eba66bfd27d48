/** Writing a job's output as durable chunks, and paging it back. */
module LogWriter {
  import opened LogQueue
  import opened LogStore

  /** The bytes a reader sees: every payload, in row order. */
  function Text(rows: Rows): seq<bv8> {
    if rows == [] then [] else Text(rows[..|rows| - 1]) + rows[|rows| - 1].payload
  }

  lemma TextPush(rows: Rows, c: Chunk)
    ensures Text(rows + [c]) == Text(rows) + c.payload
  {
    assert (rows + [c])[..|rows|] == rows;
  }

  ghost predicate Small(rows: Rows) {
    forall i :: 0 <= i < |rows| ==> Fits(rows[i].payload)
  }

  /** The next chunk in line is stored at the end. */
  lemma NextIsStored(rows: Rows, c: Chunk)
    requires Contiguous(rows) && Small(rows) && c.sequence == |rows| + 1 && Fits(c.payload)
    ensures AppendOne(rows, c) == Stored(rows + [c])
    ensures Contiguous(rows + [c]) && Small(rows + [c]) && Text(rows + [c]) == Text(rows) + c.payload
  {
    AppendOneContiguous(rows, c);
    TextPush(rows, c);
  }

  /** How many chunks `size` bytes split into. */
  function Chunks(size: nat): nat {
    (size + MAX_LOG_CHUNK_BYTES - 1) / MAX_LOG_CHUNK_BYTES
  }

  /** How many chunks get past a fault before chunk `at`. */
  function Reached(at: int, all: nat): nat {
    if 0 <= at < all then at else all
  }

  /** `rows` is `before` with `text` added, all of it to `stream`. */
  ghost predicate Extends(before: Rows, rows: Rows, stream: Stream, text: seq<bv8>) {
    before <= rows && Text(rows) == Text(before) + text && forall i :: |before| <= i < |rows| ==> rows[i].stream == stream
  }

  lemma ExtendsNothing(rows: Rows, stream: Stream)
    ensures Extends(rows, rows, stream, [])
  {
    assert Text(rows) + [] == Text(rows);
  }

  lemma ExtendsPush(before: Rows, rows: Rows, c: Chunk, p: seq<bv8>, offset: nat, size: nat)
    requires offset + size <= |p| && c.payload == p[offset..offset + size]
    requires Extends(before, rows, c.stream, p[..offset])
    ensures Extends(before, rows + [c], c.stream, p[..offset + size])
  {
    hide Text;
    TextPush(rows, c);
    assert p[..offset + size] == p[..offset] + c.payload;
    assert Text(before) + p[..offset] + c.payload == Text(before) + (p[..offset] + c.payload);
  }

  /** One job's shared writer: stdout and stderr draw sequence numbers from one allocator. */
  class Writer {
    var rows: Rows
    var sequence: nat
    var broken: bool

    constructor ()
      ensures Valid() && rows == [] && !broken
    {
      rows, sequence, broken := [], 0, false;
    }

    ghost predicate Valid()
      reads this
    {
      Contiguous(rows) && Small(rows) && sequence == |rows|
    }

    /**
     Appends `p` in chunks of at most 64 KiB. `storeFailsAt` and `contextFailsAt` say after how many chunks the store, or the
     context, fails, if at all. Exactly the first `n` bytes become durable, once; after a store error nothing more is written.
     */
    method Write(stream: Stream, p: seq<bv8>, storeFailsAt: int, contextFailsAt: int) returns (n: nat, ok: bool)
      requires Valid()
      modifies this
      ensures Valid() && n <= |p| && Extends(old(rows), rows, stream, p[..n])
      ensures p == [] ==> ok && n == 0
      ensures old(broken) && p != [] ==> !ok && n == 0
      ensures
        var all := Chunks(|p|);
        var store, context := Reached(storeFailsAt, all), Reached(contextFailsAt, all);
        && (p != [] && !old(broken) ==> n == Min(Min(store, context) * MAX_LOG_CHUNK_BYTES, |p|) && (ok <==> Min(store, context) == all))
        && (broken <==> old(broken) || (store < all && store < context))
    {
      hide Text, AppendOne, Contiguous, Small, Extends;
      ExtendsNothing(rows, stream);
      assert p[..0] == [];
      if |p| == 0 {
        return 0, true;
      }
      if broken {
        return 0, false;
      }
      var offset, written := 0, 0;
      while offset < |p|
        invariant Valid() && 0 <= offset <= |p| && Extends(old(rows), rows, stream, p[..offset])
        invariant !broken && !old(broken) && offset == Min(written * MAX_LOG_CHUNK_BYTES, |p|)
        invariant 0 <= written <= Reached(storeFailsAt, Chunks(|p|)) && written <= Reached(contextFailsAt, Chunks(|p|))
      {
        if written == contextFailsAt {
          return offset, false;
        }
        var size := |p| - offset;
        if size > MAX_LOG_CHUNK_BYTES {
          size := MAX_LOG_CHUNK_BYTES;
        }
        var c := Chunk(sequence + 1, stream, p[offset..offset + size]);
        if written == storeFailsAt {
          broken := true;
          return offset, false;
        }
        NextIsStored(rows, c);
        ExtendsPush(old(rows), rows, c, p, offset, size);
        rows := AppendOne(rows, c).rows;
        sequence := c.sequence;
        offset, written := offset + size, written + 1;
      }
      assert p[..|p|] == p;
      return |p|, true;
    }
  }

  /** What the uploader may do to the queue while a writer does not hold the lock. */
  method Meanwhile(q: PendingLogQueue) returns (count: nat)
    requires Sound(q.View())
    modifies q
    ensures Sound(q.View()) && q.next == old(q.next) && count <= |old(q.chunks)| && q.chunks == old(q.chunks)[count..]
  {
    var n: nat :| n <= |q.chunks|;
    count := n;
    var ok := q.Ack(count);
    if * {
      q.Fail();
    }
    if * {
      q.Close();
    }
  }

  /** What is left of the chunks queued before and since, once the first `dropped` are gone. */
  ghost predicate Leftover(chunks: seq<Chunk>, before: seq<Chunk>, accepted: seq<Chunk>, dropped: nat) {
    dropped <= |before + accepted| && chunks == (before + accepted)[dropped..]
  }

  lemma LeftoverStart(before: seq<Chunk>)
    ensures Leftover(before, before, [], 0)
  {
    assert before + [] == before;
  }

  lemma LeftoverDrop(chunks: seq<Chunk>, before: seq<Chunk>, accepted: seq<Chunk>, dropped: nat, count: nat)
    requires Leftover(chunks, before, accepted, dropped) && count <= |chunks|
    ensures Leftover(chunks[count..], before, accepted, dropped + count)
  {
  }

  lemma LeftoverPush(chunks: seq<Chunk>, before: seq<Chunk>, accepted: seq<Chunk>, dropped: nat, c: Chunk)
    requires Leftover(chunks, before, accepted, dropped)
    ensures Leftover(chunks + [c], before, accepted + [c], dropped)
  {
    assert before + (accepted + [c]) == before + accepted + [c];
  }

  /** Chunks in order, of one stream, numbered on from `first`. */
  ghost predicate Numbered(chunks: seq<Chunk>, first: nat, stream: Stream) {
    forall i :: 0 <= i < |chunks| ==> chunks[i].sequence == first + i && chunks[i].stream == stream && Fits(chunks[i].payload)
  }

  lemma NumberedPush(chunks: seq<Chunk>, first: nat, stream: Stream, payload: seq<bv8>, p: seq<bv8>, offset: nat)
    requires Numbered(chunks, first, stream) && Fits(payload) && offset + |payload| <= |p|
    requires Text(chunks) == p[..offset] && payload == p[offset..offset + |payload|]
    ensures
      var longer := chunks + [Chunk(first + |chunks|, stream, payload)];
      Numbered(longer, first, stream) && Text(longer) == p[..offset + |payload|]
  {
    hide Text;
    TextPush(chunks, Chunk(first + |chunks|, stream, payload));
    assert p[..offset + |payload|] == p[..offset] + payload;
  }

  /**
   The runner's side: output is split the same way and queued while the uploader takes chunks away. What is accepted is a
   prefix of the bytes, in order; it stops short only at a closed or failed queue, or when its context ends while it
   waits for room. `patience` is how often it is woken before that.
   */
  method RemoteWrite(q: PendingLogQueue, stream: Stream, p: seq<bv8>, patience: nat)
    returns (n: nat, ok: bool, canceled: bool, ghost accepted: seq<Chunk>, ghost dropped: nat)
    requires Sound(q.View())
    modifies q
    ensures Sound(q.View()) && Numbered(accepted, old(q.next) + 1, stream) && q.next == old(q.next) + |accepted|
    ensures n <= |p| && Text(accepted) == p[..n]
    ensures Leftover(q.chunks, old(q.chunks), accepted, dropped)
    ensures ok <==> n == |p|
    ensures !ok ==> q.failed || q.closed || canceled
  {
    hide Sound, Text, Numbered, Leftover;
    ghost var before := q.chunks;
    LeftoverStart(before);
    var offset, waits := 0, patience;
    canceled, accepted, dropped := false, [], 0;
    NothingNumbered(old(q.next) + 1, stream);
    while offset < |p|
      invariant 0 <= offset <= |p| && Sound(q.View()) && q.next == old(q.next) + |accepted|
      invariant Numbered(accepted, old(q.next) + 1, stream) && Text(accepted) == p[..offset]
      invariant Leftover(q.chunks, before, accepted, dropped)
      decreases |p| - offset, waits
    {
      ghost var waiting := q.chunks;
      var count := Meanwhile(q);
      LeftoverDrop(waiting, before, accepted, dropped, count);
      dropped := dropped + count;
      var size := |p| - offset;
      if size > MAX_LOG_CHUNK_BYTES {
        size := MAX_LOG_CHUNK_BYTES;
      }
      var payload := p[offset..offset + size];
      ghost var c, rest := Chunk(q.next + 1, stream, payload), q.chunks;
      var r := q.Enqueue(stream, payload);
      if r.WouldBlock? {
        if waits == 0 {
          return offset, false, true, accepted, dropped;
        }
        waits := waits - 1;
      } else if !r.Accepted? {
        return offset, false, false, accepted, dropped;
      } else {
        NumberedPush(accepted, old(q.next) + 1, stream, payload, p, offset);
        LeftoverPush(rest, before, accepted, dropped, c);
        accepted := accepted + [c];
        offset := offset + size;
      }
    }
    n, ok := |p|, true;
  }

  lemma NothingNumbered(first: nat, stream: Stream)
    ensures Numbered([], first, stream) && Text([]) == []
  {
  }

  /** At most `n` of the first `upto` rows, from the cursor on. */
  function Page(rows: Rows, after: nat, n: nat, upto: nat): Rows
    requires upto <= |rows|
  {
    if after >= upto then [] else rows[after..Min(after + n, upto)]
  }

  lemma PageStep(rows: Rows, after: nat, n: nat, i: nat)
    requires i < |rows|
    ensures Page(rows, after, n, i + 1) == if i >= after && |Page(rows, after, n, i)| < n then Page(rows, after, n, i) + [rows[i]] else Page(rows, after, n, i)
  {
    if i >= after {
      if i < after + n {
        assert Min(after + n, i + 1) == i + 1 && Min(after + n, i) == i;
        assert rows[after..i + 1] == rows[after..i] + [rows[i]];
      } else {
        assert Min(after + n, i + 1) == after + n == Min(after + n, i);
        assert rows[after..after] == [];
      }
    }
  }

  lemma PageLength(rows: Rows, after: nat, n: nat)
    ensures |Page(rows, after, n, |rows|)| == if after >= |rows| then 0 else Min(n, |rows| - after)
    ensures forall i :: 0 <= i < |Page(rows, after, n, |rows|)| ==> Page(rows, after, n, |rows|)[i] == rows[after + i]
  {
  }

  /** `ListJobLogs`: the first `limit` rows after the cursor, in sequence order. */
  method ListJobLogs(rows: Rows, after: nat, limit: int) returns (out: Rows)
    requires Contiguous(rows)
    ensures out == Page(rows, after, if limit < 1 then 256 else if limit > 1000 then 1000 else limit, |rows|)
  {
    hide Page;
    var n := if limit < 1 then 256 else if limit > 1000 then 1000 else limit;
    out := [];
    EmptyPage(rows, after, n);
    for i := 0 to |rows|
      invariant out == Page(rows, after, n, i)
    {
      PageStep(rows, after, n, i);
      if rows[i].sequence > after && |out| < n {
        out := out + [rows[i]];
      }
    }
  }

  lemma EmptyPage(rows: Rows, after: nat, n: nat)
    ensures Page(rows, after, n, 0) == []
  {
  }

  lemma TextGrows(rows: Rows, k: nat)
    requires k < |rows|
    ensures Text(rows[..k + 1]) == Text(rows[..k]) + rows[k].payload
  {
    hide Text;
    TextPush(rows[..k], rows[k]);
    assert rows[..k + 1] == rows[..k] + [rows[k]];
  }

  /** The `forge logs` loop: pages of 256 from a cursor until a short page. It ends, and prints every byte once, in order. */
  method PrintLogs(rows: Rows) returns (printed: seq<bv8>, pages: nat)
    requires Contiguous(rows)
    ensures printed == Text(rows)
    ensures pages == |rows| / 256 + 1
  {
    hide Text, Page;
    var after := 0;
    printed, pages := [], 0;
    NoText(rows);
    while true
      invariant after <= |rows| && after == 256 * pages && printed == Text(rows[..after])
      decreases |rows| - after
    {
      var items := ListJobLogs(rows, after, 256);
      PageLength(rows, after, 256);
      pages := pages + 1;
      ghost var start := after;
      for i := 0 to |items|
        invariant after == start + i && printed == Text(rows[..after])
      {
        TextGrows(rows, after);
        printed := printed + items[i].payload;
        if items[i].sequence > after {
          after := items[i].sequence;
        }
      }
      if |items| < 256 {
        assert rows[..after] == rows;
        return;
      }
    }
  }

  lemma NoText(rows: Rows)
    ensures Text(rows[..0]) == []
  {
  }
}
