/** The durable log rows of one job and the idempotent append that fills them. */
module LogStore {
  import opened LogQueue

  /** One job's rows, in insertion order. */
  type Rows = seq<Chunk>

  datatype Appended = Stored(rows: Rows) | Conflict

  function MaxSequence(rows: Rows): nat {
    if rows == [] then 0
    else
      var rest := MaxSequence(rows[..|rows| - 1]);
      if rows[|rows| - 1].sequence > rest then rows[|rows| - 1].sequence else rest
  }

  /** One chunk: already there with the same content, next in line, or a conflict. */
  function AppendOne(rows: Rows, c: Chunk): Appended {
    if exists i | 0 <= i < |rows| :: rows[i].sequence == c.sequence then
      if exists i | 0 <= i < |rows| :: rows[i] == c then Stored(rows) else Conflict
    else if c.sequence == MaxSequence(rows) + 1 then Stored(rows + [c])
    else Conflict
  }

  /** A whole batch in one transaction. */
  function AppendAll(rows: Rows, batch: seq<Chunk>): Appended
    decreases |batch|
  {
    if batch == [] then Stored(rows)
    else
      match AppendOne(rows, batch[0])
      case Conflict => Conflict
      case Stored(after) => AppendAll(after, batch[1..])
  }

  /** What the endpoint and the store demand of a batch before looking at the table. */
  predicate ValidBatch(batch: seq<Chunk>) {
    && 0 < |batch| <= MAX_LOG_CHUNKS_PER_REQUEST
    && (forall i | 0 <= i < |batch| :: batch[i].sequence >= 1 && Fits(batch[i].payload))
    && (forall i | 0 < i < |batch| :: batch[i - 1].sequence < batch[i].sequence)
  }

  /** Sequence numbers 1, 2, 3 and so on, in that order. */
  ghost predicate Contiguous(rows: Rows) {
    forall i :: 0 <= i < |rows| ==> rows[i].sequence == i + 1
  }

  lemma {:induction false} ContiguousMax(rows: Rows)
    requires Contiguous(rows)
    ensures MaxSequence(rows) == |rows|
  {
    if rows != [] { ContiguousMax(rows[..|rows| - 1]); }
  }

  /** On contiguous rows an append changes nothing but the end, and keeps them contiguous. */
  lemma AppendOneContiguous(rows: Rows, c: Chunk)
    requires Contiguous(rows)
    ensures AppendOne(rows, c) ==
      if 1 <= c.sequence <= |rows| then (if rows[c.sequence - 1] == c then Stored(rows) else Conflict)
      else if c.sequence == |rows| + 1 then Stored(rows + [c]) else Conflict
    ensures AppendOne(rows, c).Stored? ==> Contiguous(AppendOne(rows, c).rows) && rows <= AppendOne(rows, c).rows
  {
    ContiguousMax(rows);
    if 1 <= c.sequence <= |rows| {
      assert rows[c.sequence - 1].sequence == c.sequence;
    }
  }

  // ----- Exactly which batches are stored -----

  ghost predicate Increasing(batch: seq<Chunk>) {
    forall i, k :: 0 <= i < k < |batch| ==> batch[i].sequence < batch[k].sequence
  }

  /** The first `m` chunks of the batch are rows already there; the others are the next in line. */
  ghost predicate Continues(rows: Rows, batch: seq<Chunk>, m: nat) {
    && m <= |batch|
    && (forall i :: 0 <= i < m ==> 1 <= batch[i].sequence <= |rows| && rows[batch[i].sequence - 1] == batch[i])
    && (forall i :: m <= i < |batch| ==> batch[i].sequence == |rows| + 1 + i - m)
  }

  lemma AppendFirst(rows: Rows, batch: seq<Chunk>)
    requires batch != []
    ensures AppendAll(rows, batch) == match AppendOne(rows, batch[0]) case Conflict => Conflict case Stored(after) => AppendAll(after, batch[1..])
  {
  }

  /** Taking the first chunk of a batch, found or stored, leaves a batch that continues the rows. */
  lemma ContinuesTail(rows: Rows, batch: seq<Chunk>, m: nat)
    requires batch != [] && Continues(rows, batch, m)
    ensures m > 0 ==> 1 <= batch[0].sequence <= |rows| && rows[batch[0].sequence - 1] == batch[0] && Continues(rows, batch[1..], m - 1)
    ensures m == 0 ==> batch[0].sequence == |rows| + 1 && Continues(rows + [batch[0]], batch[1..], 0)
  {
  }

  lemma ContinuesCons(rows: Rows, batch: seq<Chunk>, m: nat)
    requires batch != [] && 1 <= batch[0].sequence <= |rows| && rows[batch[0].sequence - 1] == batch[0] && Continues(rows, batch[1..], m)
    ensures Continues(rows, batch, m + 1)
  {
    var rest := batch[1..];
    assert forall i :: 0 < i < |batch| ==> batch[i] == rest[i - 1];
  }

  lemma ContinuesNext(rows: Rows, batch: seq<Chunk>, m: nat)
    requires batch != [] && batch[0].sequence == |rows| + 1 && Increasing(batch) && Continues(rows + [batch[0]], batch[1..], m)
    ensures Continues(rows, batch, 0)
  {
    var rest := batch[1..];
    assert forall i :: 0 < i < |batch| ==> batch[i] == rest[i - 1];
    assert |batch| > 1 ==> rest[0] == batch[1] && rest[0].sequence > |rows| + 1;
  }

  lemma {:induction false} ContinuationIsStored(rows: Rows, batch: seq<Chunk>, m: nat)
    requires Contiguous(rows) && Continues(rows, batch, m)
    ensures m <= |batch| && AppendAll(rows, batch) == Stored(rows + batch[m..])
    decreases |batch|
  {
    if batch == [] {
      assert rows + batch[m..] == rows;
    } else {
      ContinuesTail(rows, batch, m);
      AppendFirst(rows, batch);
      AppendOneContiguous(rows, batch[0]);
      hide AppendAll, AppendOne, Continues;
      if m > 0 {
        ContinuationIsStored(rows, batch[1..], m - 1);
        assert batch[1..][m - 1..] == batch[m..];
      } else {
        var longer := rows + [batch[0]];
        ContinuationIsStored(longer, batch[1..], 0);
        assert longer + batch[1..][0..] == rows + batch[0..];
      }
    }
  }

  lemma WindowContinues(log: seq<Chunk>, k: nat, a: nat, b: nat, m: nat)
    requires Contiguous(log) && a <= b <= |log| && a <= k <= |log| && m == (if k < b then k else b) - a
    ensures Continues(log[..k], log[a..b], m)
  {
    var batch := log[a..b];
    assert forall i :: 0 <= i < |batch| ==> batch[i] == log[a + i];
  }

  /**
   Replaying any window of a log onto any prefix of it that reaches the window yields the longer of the
   two, however often and in whatever order that happens; it is never a conflict.
   */
  lemma AppendWindow(log: seq<Chunk>, k: nat, a: nat, b: nat)
    requires Contiguous(log) && a <= b <= |log| && a <= k <= |log|
    ensures AppendAll(log[..k], log[a..b]) == Stored(log[..if k < b then b else k])
  {
    hide AppendAll, Continues;
    var m := (if k < b then k else b) - a;
    WindowContinues(log, k, a, b, m);
    ContinuationIsStored(log[..k], log[a..b], m);
    assert log[a..b][m..] == log[a + m..b];
    assert log[..k] + log[a + m..b] == log[..if k < b then b else k];
  }

  lemma {:induction false} StoredIsContinuation(rows: Rows, batch: seq<Chunk>) returns (m: nat)
    requires Contiguous(rows) && Increasing(batch) && AppendAll(rows, batch).Stored?
    ensures Continues(rows, batch, m)
    decreases |batch|
  {
    if batch == [] {
      return 0;
    }
    hide AppendAll, AppendOne, Continues;
    var c, rest := batch[0], batch[1..];
    AppendFirst(rows, batch);
    AppendOneContiguous(rows, c);
    assert Increasing(rest);
    if c.sequence <= |rows| {
      m := StoredIsContinuation(rows, rest);
      ContinuesCons(rows, batch, m);
      m := m + 1;
    } else {
      m := StoredIsContinuation(rows + [c], rest);
      ContinuesNext(rows, batch, m);
      m := 0;
    }
  }

  lemma {:induction false} StepwiseIncreasing(batch: seq<Chunk>, i: nat, k: nat)
    requires (forall n :: 0 < n < |batch| ==> batch[n - 1].sequence < batch[n].sequence) && i < k < |batch|
    ensures batch[i].sequence < batch[k].sequence
    decreases k
  {
    if i < k - 1 {
      StepwiseIncreasing(batch, i, k - 1);
    }
  }

  /** An append succeeds exactly for one to eight chunks of one byte to 64 KiB, in increasing order, of which those already there are
      the same as the rows and the others follow on without a gap. It then adds exactly the others. */
  lemma AppendIff(rows: Rows, batch: seq<Chunk>)
    requires Contiguous(rows)
    ensures ValidBatch(batch) && AppendAll(rows, batch).Stored? <==>
      && 1 <= |batch| <= 8 && (forall i :: 0 <= i < |batch| ==> 1 <= |batch[i].payload| <= 65_536) && Increasing(batch)
      && exists m: nat :: Continues(rows, batch, m)
    ensures forall m: nat :: Continues(rows, batch, m) ==> AppendAll(rows, batch) == Stored(rows + batch[m..])
  {
    forall m: nat | Continues(rows, batch, m) ensures AppendAll(rows, batch) == Stored(rows + batch[m..]) {
      ContinuationIsStored(rows, batch, m);
    }
    if ValidBatch(batch) {
      forall i, k | 0 <= i < k < |batch| ensures batch[i].sequence < batch[k].sequence {
        StepwiseIncreasing(batch, i, k);
      }
      if AppendAll(rows, batch).Stored? {
        var m := StoredIsContinuation(rows, batch);
      }
    }
  }

  method Lookup(rows: Rows, sequence: nat) returns (found: bool, at: nat)
    ensures found <==> exists i :: 0 <= i < |rows| && rows[i].sequence == sequence
    ensures found ==> at < |rows| && rows[at].sequence == sequence
  {
    for i := 0 to |rows|
      invariant forall k :: 0 <= k < i ==> rows[k].sequence != sequence
    {
      if rows[i].sequence == sequence {
        return true, i;
      }
    }
    return false, 0;
  }

  lemma AppendNone(rows: Rows, batch: seq<Chunk>)
    ensures AppendAll(rows, batch[|batch|..]) == Stored(rows)
  {
  }

  /** `AppendJobLogs` on a table whose rows have distinct sequence numbers: all of the batch or none of it. */
  method AppendJobLogs(rows: Rows, batch: seq<Chunk>) returns (ok: bool, after: Rows)
    requires Contiguous(rows)
    ensures ok <==> ValidBatch(batch) && AppendAll(rows, batch).Stored?
    ensures ok <==>
      && 1 <= |batch| <= 8 && (forall i :: 0 <= i < |batch| ==> 1 <= |batch[i].payload| <= 65_536) && Increasing(batch)
      && exists m: nat :: Continues(rows, batch, m)
    ensures ok ==> after == AppendAll(rows, batch).rows && forall m: nat :: Continues(rows, batch, m) ==> after == rows + batch[m..]
    ensures !ok ==> after == rows
    ensures Contiguous(after) && rows <= after
  {
    hide AppendAll, AppendOne, Continues, Increasing;
    AppendIff(rows, batch);
    if !ValidBatch(batch) {
      return false, rows;
    }
    after := rows;
    for i := 0 to |batch|
      invariant Contiguous(after) && rows <= after
      invariant AppendAll(rows, batch) == AppendAll(after, batch[i..])
    {
      var c := batch[i];
      AppendOneContiguous(after, c);
      AppendFirst(after, batch[i..]);
      assert batch[i..][0] == c && batch[i..][1..] == batch[i + 1..];
      var found, at := Lookup(after, c.sequence);
      if found {
        if after[at] != c {
          return false, rows;
        }
        continue;
      }
      ContiguousMax(after);
      if c.sequence != MaxSequence(after) + 1 {
        return false, rows;
      }
      after := after + [c];
    }
    AppendNone(after, batch);
    return true, after;
  }
}
