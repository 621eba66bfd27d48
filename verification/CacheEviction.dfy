/** Cache expiry and eviction: least recently used digests go first until the unique live bytes fit. */
module CacheEviction {
  import opened Ordering
  import opened Tables

  datatype Entry = Entry(id: nat, digest: string, size: nat, lastAccessed: Time, created: Time, expires: Option<Time>, deleted: bool)

  // ----- Sums over digests -----

  ghost function Sum(digests: set<string>, size: map<string, nat>): nat
    requires digests <= size.Keys
  {
    if digests == {} then 0
    else
      var d :| d in digests;
      size[d] + Sum(digests - {d}, size)
  }

  /** The sum does not depend on the order digests are taken in. */
  lemma {:induction false} SumWithout(digests: set<string>, size: map<string, nat>, d: string)
    requires digests <= size.Keys && d in digests
    ensures Sum(digests, size) == size[d] + Sum(digests - {d}, size)
    decreases digests
  {
    var first :| first in digests && Sum(digests, size) == size[first] + Sum(digests - {first}, size);
    if first != d {
      SumWithout(digests - {first}, size, d);
      SumWithout(digests - {d}, size, first);
      assert digests - {first} - {d} == digests - {d} - {first};
    }
  }

  lemma {:induction false} SumAgrees(digests: set<string>, a: map<string, nat>, b: map<string, nat>)
    requires digests <= a.Keys && digests <= b.Keys && forall d :: d in digests ==> a[d] == b[d]
    ensures Sum(digests, a) == Sum(digests, b)
    decreases digests
  {
    if digests != {} {
      var d :| d in digests;
      SumWithout(digests, a, d);
      SumWithout(digests, b, d);
      SumAgrees(digests - {d}, a, b);
    }
  }

  // ----- Live rows -----

  function Live(rows: seq<Entry>): seq<Entry> {
    if rows == [] then []
    else if rows[|rows| - 1].deleted then Live(rows[..|rows| - 1])
    else Live(rows[..|rows| - 1]) + [rows[|rows| - 1]]
  }

  lemma {:induction false} LiveMembers(rows: seq<Entry>)
    ensures forall e :: e in Live(rows) <==> e in rows && !e.deleted
  {
    if rows != [] {
      LiveMembers(rows[..|rows| - 1]);
      assert rows == rows[..|rows| - 1] + [rows[|rows| - 1]];
    }
  }

  function Digests(rows: seq<Entry>): set<string> {
    set e | e in rows :: e.digest
  }

  /** `GROUP BY blob_sha256` with `max(archive_size_bytes)` */
  function Sizes(rows: seq<Entry>): (m: map<string, nat>)
    ensures LargestSizes(rows, m)
  {
    if rows == [] then map[]
    else
      var front, last := rows[..|rows| - 1], rows[|rows| - 1];
      var m := Sizes(front);
      var r := if last.digest in m && m[last.digest] >= last.size then m else m[last.digest := last.size];
      assert LargestSizes(rows, r) by { LargestStep(rows, m, r); }
      r
  }

  ghost predicate LargestSizes(rows: seq<Entry>, m: map<string, nat>) {
    && m.Keys == Digests(rows)
    && (forall e :: e in rows ==> e.digest in m && e.size <= m[e.digest])
    && (forall d :: d in m ==> exists e :: e in rows && e.digest == d && e.size == m[d])
  }

  lemma LargestStep(rows: seq<Entry>, m: map<string, nat>, r: map<string, nat>)
    requires rows != [] && LargestSizes(rows[..|rows| - 1], m)
    requires
      var last := rows[|rows| - 1];
      r == if last.digest in m && m[last.digest] >= last.size then m else m[last.digest := last.size]
    ensures LargestSizes(rows, r)
  {
    var front, last := rows[..|rows| - 1], rows[|rows| - 1];
    assert rows == front + [last];
    forall d | d in r ensures exists e :: e in rows && e.digest == d && e.size == r[d] {
      if d == last.digest && r[d] == last.size {
        assert last in rows;
      } else {
        var e :| e in front && e.digest == d && e.size == m[d];
        assert e in rows;
      }
    }
  }

  /** Bytes that the live rows keep on disk: each digest counted once. */
  ghost function UniqueBytes(rows: seq<Entry>): nat {
    Sum(Digests(Live(rows)), Sizes(Live(rows)))
  }

  // ----- Least recently used order -----

  predicate Older(a: Entry, b: Entry) {
    || a.lastAccessed < b.lastAccessed
    || (a.lastAccessed == b.lastAccessed && (a.created < b.created || (a.created == b.created && a.id <= b.id)))
  }

  ghost predicate InOrder(rows: seq<Entry>) {
    forall i, j :: 0 <= i < j < |rows| ==> Older(rows[i], rows[j])
  }

  function Place(e: Entry, rows: seq<Entry>): (r: seq<Entry>)
    requires InOrder(rows)
    ensures InOrder(r) && forall x :: x in r <==> x in rows || x == e
  {
    if rows == [] then [e]
    else if Older(e, rows[0]) then [e] + rows
    else
      assert rows == [rows[0]] + rows[1..];
      var rest := Place(e, rows[1..]);
      assert forall x :: x in rest ==> Older(rows[0], x);
      [rows[0]] + rest
  }

  /** `ORDER BY last_accessed_at, created_at, id` */
  function LeastRecentFirst(rows: seq<Entry>): (r: seq<Entry>)
    ensures InOrder(r) && forall x :: x in r <==> x in rows
  {
    if rows == [] then []
    else
      assert rows == [rows[0]] + rows[1..];
      Place(rows[0], LeastRecentFirst(rows[1..]))
  }

  /** The digests of a list of rows, each at its first appearance. */
  function FirstSeen(rows: seq<Entry>): (r: seq<string>)
    ensures Distinct(r) && forall d :: d in r <==> d in Digests(rows)
  {
    if rows == [] then []
    else
      var front, last := rows[..|rows| - 1], rows[|rows| - 1];
      assert rows == front + [last];
      var r := FirstSeen(front);
      if last.digest in r then r else r + [last.digest]
  }

  lemma {:induction false} FirstSeenPrefix(rows: seq<Entry>, i: nat)
    requires i <= |rows|
    ensures FirstSeen(rows[..i]) <= FirstSeen(rows)
  {
    if i == |rows| {
      assert rows[..i] == rows;
    } else {
      FirstSeenPrefix(rows[..|rows| - 1], i);
      assert rows[..|rows| - 1][..i] == rows[..i];
    }
  }

  // ----- Choosing what to evict -----

  function SetOf(ds: seq<string>): set<string> {
    set d | d in ds
  }

  /** What would stay on disk if exactly `evict` were removed. */
  ghost function Remaining(rows: seq<Entry>, evict: seq<string>): nat {
    Sum(Digests(rows) - SetOf(evict), Sizes(rows))
  }

  lemma RemainingStep(rows: seq<Entry>, evict: seq<string>, d: string)
    requires d in Digests(rows) && d !in evict
    ensures Remaining(rows, evict + [d]) + Sizes(rows)[d] == Remaining(rows, evict)
  {
    var rest := Digests(rows) - SetOf(evict);
    assert d in rest;
    SumWithout(rest, Sizes(rows), d);
    assert rest - {d} == Digests(rows) - SetOf(evict + [d]);
  }

  lemma RemainingEnds(rows: seq<Entry>)
    ensures Remaining(rows, []) == Sum(Digests(rows), Sizes(rows))
    ensures Remaining(rows, FirstSeen(rows)) == 0
  {
    assert Digests(rows) - SetOf([]) == Digests(rows);
    assert Digests(rows) - SetOf(FirstSeen(rows)) == {};
  }

  /** No shorter list of the same digests would have made room. */
  ghost predicate NoneShorter(rows: seq<Entry>, evict: seq<string>, maxBytes: int) {
    forall k :: 0 <= k < |evict| ==> Remaining(rows, evict[..k]) > maxBytes
  }

  lemma FirstSeenStep(rows: seq<Entry>, i: nat)
    requires i < |rows|
    ensures FirstSeen(rows[..i + 1]) ==
      if rows[i].digest in FirstSeen(rows[..i]) then FirstSeen(rows[..i]) else FirstSeen(rows[..i]) + [rows[i].digest]
  {
    assert rows[..i + 1][..i] == rows[..i];
  }

  /** The sizes subtracted from the running total: of each digest, that of its least recently used row. */
  function FirstSizes(rows: seq<Entry>): (r: seq<nat>)
    ensures |r| == |FirstSeen(rows)|
  {
    if rows == [] then []
    else
      var front, last := rows[..|rows| - 1], rows[|rows| - 1];
      if last.digest in FirstSeen(front) then FirstSizes(front) else FirstSizes(front) + [last.size]
  }

  lemma FirstSizesStep(rows: seq<Entry>, i: nat)
    requires i < |rows|
    ensures FirstSizes(rows[..i + 1]) ==
      if rows[i].digest in FirstSeen(rows[..i]) then FirstSizes(rows[..i]) else FirstSizes(rows[..i]) + [rows[i].size]
  {
    assert rows[..i + 1][..i] == rows[..i];
  }

  lemma {:induction false} FirstSizesPrefix(rows: seq<Entry>, i: nat)
    requires i <= |rows|
    ensures FirstSizes(rows[..i]) <= FirstSizes(rows)
  {
    if i == |rows| {
      assert rows[..i] == rows;
    } else {
      FirstSizesPrefix(rows[..|rows| - 1], i);
      assert rows[..|rows| - 1][..i] == rows[..i];
    }
  }

  /** The running total after `k` digests were taken. */
  ghost function Estimate(rows: seq<Entry>, k: nat): int
    requires k <= |FirstSeen(rows)|
  {
    if k == 0 then Sum(Digests(rows), Sizes(rows)) else Estimate(rows, k - 1) - FirstSizes(rows)[k - 1]
  }

  lemma EstimateStart(rows: seq<Entry>)
    ensures Estimate(rows, 0) == Sum(Digests(rows), Sizes(rows))
  {
  }

  lemma EstimateStep(rows: seq<Entry>, k: nat)
    requires k < |FirstSeen(rows)|
    ensures Estimate(rows, k + 1) == Estimate(rows, k) - FirstSizes(rows)[k]
  {
  }

  /** How many digests go: until the running total fits or there are no more. */
  ghost function Stop(rows: seq<Entry>, maxBytes: int, k: nat): (r: nat)
    requires k <= |FirstSeen(rows)|
    ensures k <= r <= |FirstSeen(rows)|
    ensures forall j :: k <= j < r ==> Estimate(rows, j) > maxBytes
    ensures r < |FirstSeen(rows)| ==> Estimate(rows, r) <= maxBytes
    decreases |FirstSeen(rows)| - k
  {
    if k == |FirstSeen(rows)| || Estimate(rows, k) <= maxBytes then k else Stop(rows, maxBytes, k + 1)
  }

  ghost function Chosen(rows: seq<Entry>, maxBytes: int): seq<string> {
    FirstSeen(rows)[..Stop(rows, maxBytes, 0)]
  }

  lemma {:induction false} StopIs(rows: seq<Entry>, maxBytes: int, k: nat, n: nat)
    requires k <= n <= |FirstSeen(rows)| && (forall j :: k <= j < n ==> Estimate(rows, j) > maxBytes)
    requires n == |FirstSeen(rows)| || Estimate(rows, n) <= maxBytes
    ensures Stop(rows, maxBytes, k) == n
    decreases n - k
  {
    hide FirstSeen, Estimate;
    if k < n {
      StopIs(rows, maxBytes, k + 1, n);
    }
  }

  /** After `i` rows: the digests seen are taken, none of them when the total already fitted. */
  ghost predicate Midway(rows: seq<Entry>, i: nat, evict: seq<string>, total: int, maxBytes: int) {
    && i <= |rows| && evict == FirstSeen(rows[..i]) && |evict| <= |FirstSeen(rows)| && total == Estimate(rows, |evict|)
    && forall k :: 0 <= k < |evict| ==> Estimate(rows, k) > maxBytes
  }

  lemma MidwayStart(rows: seq<Entry>, total: int, maxBytes: int)
    requires total == Sum(Digests(rows), Sizes(rows))
    ensures Midway(rows, 0, [], total, maxBytes)
  {
    hide Sum, Sizes, FirstSeen;
    FirstSeenNothing(rows);
    EstimateStart(rows);
  }

  lemma MidwayStep(rows: seq<Entry>, i: nat, evict: seq<string>, total: int, maxBytes: int)
    requires i < |rows| && total > maxBytes && Midway(rows, i, evict, total, maxBytes)
    ensures
      var e := rows[i];
      if e.digest in evict then Midway(rows, i + 1, evict, total, maxBytes)
      else Midway(rows, i + 1, evict + [e.digest], total - e.size, maxBytes)
  {
    hide Sum, Sizes, FirstSeen, FirstSizes, Estimate;
    FirstSeenStep(rows, i);
    FirstSizesStep(rows, i);
    FirstSeenPrefix(rows, i + 1);
    FirstSizesPrefix(rows, i + 1);
    if rows[i].digest !in evict {
      EstimateStep(rows, |evict|);
      TakenSize(rows, i, evict);
    }
  }

  lemma TakenSize(rows: seq<Entry>, i: nat, evict: seq<string>)
    requires i < |rows| && evict == FirstSeen(rows[..i]) && rows[i].digest !in evict
    ensures |evict| < |FirstSeen(rows)| && FirstSizes(rows)[|evict|] == rows[i].size
  {
    hide FirstSeen, FirstSizes;
    FirstSeenStep(rows, i);
    FirstSizesStep(rows, i);
    FirstSeenPrefix(rows, i + 1);
    FirstSizesPrefix(rows, i + 1);
    var sizes := FirstSizes(rows[..i + 1]);
    assert sizes[|evict|] == rows[i].size && sizes <= FirstSizes(rows);
  }

  lemma MidwayEnd(rows: seq<Entry>, i: nat, evict: seq<string>, total: int, maxBytes: int)
    requires Midway(rows, i, evict, total, maxBytes) && (i == |rows| || total <= maxBytes)
    ensures evict == Chosen(rows, maxBytes)
  {
    hide FirstSeen, Estimate, Stop;
    FirstSeenPrefix(rows, i);
    if i == |rows| { assert rows[..i] == rows; }
    StopIs(rows, maxBytes, 0, |evict|);
  }

  /** Walks the rows from least recently used, taking each new digest until the running total fits. */
  method ChooseEvictions(rows: seq<Entry>, total0: int, maxBytes: nat) returns (evict: seq<string>)
    requires total0 == Sum(Digests(rows), Sizes(rows))
    ensures evict == Chosen(rows, maxBytes)
  {
    hide Sum, Sizes, Chosen, Midway;
    var total, i := total0, 0;
    evict := [];
    MidwayStart(rows, total, maxBytes);
    while i < |rows| && total > maxBytes
      invariant 0 <= i <= |rows| && Midway(rows, i, evict, total, maxBytes)
      decreases |rows| - i
    {
      var e := rows[i];
      MidwayStep(rows, i, evict, total, maxBytes);
      if e.digest !in evict {
        evict := evict + [e.digest];
        total := total - e.size;
      }
      i := i + 1;
    }
    MidwayEnd(rows, i, evict, total, maxBytes);
  }

  lemma FirstSeenNothing(rows: seq<Entry>)
    ensures FirstSeen(rows[..0]) == []
  {
  }

  // ----- When the choice is minimal -----

  /** The least recently used row of its digest. */
  ghost predicate Leads(rows: seq<Entry>, i: nat)
    requires i < |rows|
  {
    forall j :: 0 <= j < i ==> rows[j].digest != rows[i].digest
  }

  /** The least recently used row of each digest carries its largest size, except perhaps of the digest seen last. */
  ghost predicate Representative(rows: seq<Entry>) {
    forall i, k :: 0 <= i < k < |rows| && Leads(rows, i) && Leads(rows, k) ==> rows[i].size == Sizes(rows)[rows[i].digest]
  }

  ghost predicate FullSize(rows: seq<Entry>, k: nat)
    requires k < |FirstSeen(rows)|
  {
    FirstSeen(rows)[k] in Sizes(rows) && FirstSizes(rows)[k] == Sizes(rows)[FirstSeen(rows)[k]]
  }

  /** Where a leading row's digest stands among the digests. */
  lemma LeaderPlace(rows: seq<Entry>, i: nat)
    requires i < |rows| && Leads(rows, i)
    ensures
      var k := |FirstSeen(rows[..i])|;
      k < |FirstSeen(rows)| && FirstSeen(rows)[k] == rows[i].digest && FirstSizes(rows)[k] == rows[i].size && |FirstSeen(rows[..i + 1])| == k + 1
  {
    assert rows[i].digest !in FirstSeen(rows[..i]) by {
      assert forall e :: e in rows[..i] ==> e.digest != rows[i].digest;
    }
    hide FirstSeen, FirstSizes;
    FirstSeenStep(rows, i);
    FirstSizesStep(rows, i);
    FirstSeenPrefix(rows, i + 1);
    FirstSizesPrefix(rows, i + 1);
  }

  lemma NewDigestLeads(rows: seq<Entry>, i: nat)
    requires i < |rows| && rows[i].digest !in FirstSeen(rows[..i])
    ensures Leads(rows, i)
  {
    hide FirstSeen, Distinct;
    var front := rows[..i];
    forall j | 0 <= j < i ensures rows[j].digest != rows[i].digest {
      assert front[j] in front && front[j].digest in Digests(front);
    }
  }

  lemma {:induction false} LeaderFrom(rows: seq<Entry>, from: nat, k: nat) returns (i: nat)
    requires from <= |rows| && |FirstSeen(rows[..from])| <= k < |FirstSeen(rows[..|rows|])|
    ensures i < |rows| && Leads(rows, i) && |FirstSeen(rows[..i])| == k
    decreases |rows| - from
  {
    hide FirstSeen, Distinct, Digests, Leads;
    FirstSeenStep(rows, from);
    if |FirstSeen(rows[..from + 1])| > k {
      i := from;
      NewDigestLeads(rows, i);
    } else {
      i := LeaderFrom(rows, from + 1, k);
    }
  }

  /** Every digest has a leading row. */
  lemma LeaderOf(rows: seq<Entry>, k: nat) returns (i: nat)
    requires k < |FirstSeen(rows)|
    ensures i < |rows| && Leads(rows, i) && |FirstSeen(rows[..i])| == k
  {
    hide FirstSeen, Distinct, Digests, Leads;
    FirstSeenNothing(rows);
    assert rows[..|rows|] == rows;
    i := LeaderFrom(rows, 0, k);
  }

  lemma LeadersInOrder(rows: seq<Entry>, i: nat, j: nat)
    requires i < j < |rows| && Leads(rows, i)
    ensures |FirstSeen(rows[..i])| < |FirstSeen(rows[..j])|
  {
    hide FirstSeen, FirstSizes;
    LeaderPlace(rows, i);
    FirstSeenPrefix(rows[..j], i + 1);
    assert rows[..j][..i + 1] == rows[..i + 1];
  }

  lemma RepresentativeIffFullSizes(rows: seq<Entry>)
    ensures Representative(rows) <==> forall k :: 0 <= k < |FirstSeen(rows)| - 1 ==> FullSize(rows, k)
  {
    hide FirstSeen, FirstSizes, Sizes;
    if Representative(rows) {
      forall k | 0 <= k < |FirstSeen(rows)| - 1 ensures FullSize(rows, k) {
        var i := LeaderOf(rows, k);
        var j := LeaderOf(rows, k + 1);
        if j < i { LeadersInOrder(rows, j, i); }
        LeaderPlace(rows, i);
        assert rows[i].digest in Digests(rows);
      }
    } else {
      var i, j :| 0 <= i < j < |rows| && Leads(rows, i) && Leads(rows, j) && rows[i].size != Sizes(rows)[rows[i].digest];
      LeaderPlace(rows, i);
      LeaderPlace(rows, j);
      LeadersInOrder(rows, i, j);
      assert !FullSize(rows, |FirstSeen(rows[..i])|);
    }
  }

  /** What stays when the `k` least recently used digests go. */
  ghost function Left(rows: seq<Entry>, k: nat): nat
    requires k <= |FirstSeen(rows)|
  {
    Remaining(rows, FirstSeen(rows)[..k])
  }

  lemma SeenSize(rows: seq<Entry>, k: nat)
    requires k < |FirstSeen(rows)|
    ensures FirstSeen(rows)[k] in Sizes(rows) && FirstSizes(rows)[k] <= Sizes(rows)[FirstSeen(rows)[k]]
  {
    hide FirstSeen, FirstSizes, Sizes, Leads;
    var i := LeaderOf(rows, k);
    LeaderPlace(rows, i);
    assert rows[i] in rows;
  }

  lemma LeftStep(rows: seq<Entry>, k: nat)
    requires k < |FirstSeen(rows)| && FirstSeen(rows)[k] in Sizes(rows)
    ensures Left(rows, k + 1) + Sizes(rows)[FirstSeen(rows)[k]] == Left(rows, k)
  {
    hide FirstSeen, Sizes, Remaining, LargestSizes, Digests;
    var ds := FirstSeen(rows);
    NotEarlier(ds, k);
    assert ds[k] in ds;
    RemainingStep(rows, ds[..k], ds[k]);
    assert ds[..k + 1] == ds[..k] + [ds[k]];
  }

  lemma NotEarlier(ds: seq<string>, k: nat)
    requires Distinct(ds) && k < |ds|
    ensures ds[k] !in ds[..k]
  {
  }

  lemma {:induction false} EstimateAbove(rows: seq<Entry>, k: nat)
    requires k <= |FirstSeen(rows)|
    ensures Left(rows, k) <= Estimate(rows, k)
    ensures (forall j :: 0 <= j < k ==> FullSize(rows, j)) ==> Left(rows, k) == Estimate(rows, k)
  {
    hide FirstSeen, FirstSizes, Sizes, Remaining, Sum, LargestSizes, Digests;
    if k == 0 {
      RemainingEnds(rows);
      assert FirstSeen(rows)[..0] == [];
    } else {
      EstimateAbove(rows, k - 1);
      SeenSize(rows, k - 1);
      LeftStep(rows, k - 1);
      if forall j :: 0 <= j < k ==> FullSize(rows, j) { assert FullSize(rows, k - 1); }
    }
  }

  lemma {:induction false} EstimateFalls(rows: seq<Entry>, j: nat, k: nat)
    requires j <= k <= |FirstSeen(rows)|
    ensures Estimate(rows, k) <= Estimate(rows, j)
    decreases k
  {
    hide FirstSeen, FirstSizes, Sizes, Sum;
    if j < k { EstimateFalls(rows, j, k - 1); }
  }

  /** What is chosen always makes room, whatever the sizes. */
  lemma ChosenFits(rows: seq<Entry>, maxBytes: nat)
    ensures Remaining(rows, Chosen(rows, maxBytes)) <= maxBytes
  {
    hide FirstSeen, FirstSizes, Sizes, Remaining, Estimate;
    var n := Stop(rows, maxBytes, 0);
    EstimateAbove(rows, n);
    if n == |FirstSeen(rows)| {
      RemainingEnds(rows);
      assert FirstSeen(rows)[..n] == FirstSeen(rows);
    }
  }

  lemma ChosenIsShortest(rows: seq<Entry>, maxBytes: nat)
    requires forall k :: 0 <= k < |FirstSeen(rows)| - 1 ==> FullSize(rows, k)
    ensures NoneShorter(rows, Chosen(rows, maxBytes), maxBytes)
  {
    hide FirstSeen, FirstSizes, Sizes, Remaining, Estimate, FullSize;
    var evict := Chosen(rows, maxBytes);
    forall k | 0 <= k < |evict| ensures Remaining(rows, evict[..k]) > maxBytes {
      EstimateAbove(rows, k);
      assert evict[..k] == FirstSeen(rows)[..k];
    }
  }

  /** A digest whose first row is too small makes the walk go too far for the budget that just fits without it. */
  lemma UndersizedOvershoots(rows: seq<Entry>, k: nat)
    requires (forall e :: e in rows ==> e.size > 0) && k < |FirstSeen(rows)| - 1 && !FullSize(rows, k)
    ensures Left(rows, k + 1) > 0 && !NoneShorter(rows, Chosen(rows, Left(rows, k + 1)), Left(rows, k + 1))
  {
    hide FirstSeen, FirstSizes, Sizes, Remaining, LargestSizes, Digests;
    SeenSize(rows, k);
    SeenSize(rows, k + 1);
    LeftStep(rows, k);
    LeftStep(rows, k + 1);
    EstimateAbove(rows, k);
    var m := Left(rows, k + 1);
    assert m > 0 by { PositiveSize(rows, FirstSeen(rows)[k + 1]); }
    assert Estimate(rows, k + 1) > m;
    var n := Stop(rows, m, 0);
    if n <= k + 1 {
      EstimateFalls(rows, n, k + 1);
    }
    var evict := Chosen(rows, m);
    assert evict[..k + 1] == FirstSeen(rows)[..k + 1];
  }

  lemma PositiveSize(rows: seq<Entry>, d: string)
    requires (forall e :: e in rows ==> e.size > 0) && d in Sizes(rows)
    ensures Sizes(rows)[d] > 0
  {
    var e :| e in rows && e.digest == d && e.size == Sizes(rows)[d];
  }

  /** Exactly when eviction takes the shortest run of least recently used digests that makes room, whatever the budget. */
  lemma MinimalIffRepresentative(rows: seq<Entry>)
    ensures Representative(rows) ==> forall m: nat :: NoneShorter(rows, Chosen(rows, m), m)
    ensures (forall e :: e in rows ==> e.size > 0) ==>
      (Representative(rows) <==> forall m: nat :: m > 0 ==> NoneShorter(rows, Chosen(rows, m), m))
  {
    hide FirstSeen, FirstSizes, Sizes, Remaining, NoneShorter, Representative, Chosen, FullSize, Left;
    RepresentativeIffFullSizes(rows);
    if forall k :: 0 <= k < |FirstSeen(rows)| - 1 ==> FullSize(rows, k) {
      forall m: nat ensures NoneShorter(rows, Chosen(rows, m), m) {
        ChosenIsShortest(rows, m);
      }
    } else if forall e :: e in rows ==> e.size > 0 {
      var k :| 0 <= k < |FirstSeen(rows)| - 1 && !FullSize(rows, k);
      UndersizedOvershoots(rows, k);
    }
  }

  /** Two archives under one digest, the older the smaller: with a budget of 5 both digests go, though the first would do. */
  lemma EvictionCanOvershoot() returns (rows: seq<Entry>)
    ensures InOrder(rows) && Chosen(rows, 5) == ["d", "e"] && Remaining(rows, ["d"]) <= 5 && !Representative(rows)
  {
    hide FirstSeen, FirstSizes, Sizes, Remaining, Sum, LargestSizes, Digests, Stop, Estimate;
    var x, y, z := Entry(1, "d", 1, 1, 1, None, false), Entry(2, "e", 5, 2, 2, None, false), Entry(3, "d", 10, 3, 3, None, false);
    rows := [x, y, z];
    OvershootSeen(rows, x, y, z);
    OvershootTotals(rows, x, y, z);
    OvershootEstimates(rows);
    StopIs(rows, 5, 0, 2);
    assert ["d", "e"][..2] == ["d", "e"];
    assert Leads(rows, 0) && Leads(rows, 1);
  }

  lemma OvershootEstimates(rows: seq<Entry>)
    requires |FirstSeen(rows)| == 2 && FirstSizes(rows)[0] == 1 && Sum(Digests(rows), Sizes(rows)) == 15
    ensures Estimate(rows, 0) == 15 && Estimate(rows, 1) == 14
  {
    hide FirstSeen, FirstSizes, Sizes, Sum, Digests;
  }

  lemma OvershootSeen(rows: seq<Entry>, x: Entry, y: Entry, z: Entry)
    requires rows == [x, y, z] && x.digest == z.digest == "d" && y.digest == "e"
    ensures FirstSeen(rows) == ["d", "e"] && FirstSizes(rows) == [x.size, y.size]
  {
    hide FirstSeen, FirstSizes, Distinct, Digests;
    FirstSeenNothing(rows);
    FirstSizesNothing(rows);
    FirstSeenStep(rows, 0);
    FirstSizesStep(rows, 0);
    FirstSeenStep(rows, 1);
    FirstSizesStep(rows, 1);
    FirstSeenStep(rows, 2);
    FirstSizesStep(rows, 2);
    assert rows[..3] == rows;
  }

  lemma FirstSizesNothing(rows: seq<Entry>)
    ensures FirstSizes(rows[..0]) == []
  {
  }

  lemma OvershootSizes(rows: seq<Entry>, m: map<string, nat>, x: Entry, y: Entry, z: Entry)
    requires rows == [x, y, z] && x.digest == z.digest == "d" && y.digest == "e" && x.size == 1 && y.size == 5 && z.size == 10
    requires LargestSizes(rows, m)
    ensures m.Keys == Digests(rows) == {"d", "e"} && m["d"] == 10 && m["e"] == 5
  {
    assert x in rows && y in rows && z in rows;
  }

  lemma OvershootTotals(rows: seq<Entry>, x: Entry, y: Entry, z: Entry)
    requires rows == [x, y, z] && x.digest == z.digest == "d" && y.digest == "e" && x.size == 1 && y.size == 5 && z.size == 10
    ensures "d" in Sizes(rows) && Sizes(rows)["d"] == 10
    ensures Sum(Digests(rows), Sizes(rows)) == 15 && Remaining(rows, ["d"]) == 5
  {
    hide Sizes, LargestSizes, Digests, Sum;
    var m := Sizes(rows);
    OvershootSizes(rows, m, x, y, z);
    SumWithout({"d", "e"}, m, "d");
    SumWithout({"e"}, m, "e");
    SumOfNone(m);
    assert {"d", "e"} - {"d"} == {"e"} && {"e"} - {"e"} == {};
    assert {"d", "e"} - SetOf(["d"]) == {"e"};
  }

  lemma SumOfNone(m: map<string, nat>)
    ensures Sum({}, m) == 0
  {
  }

  /** The bytes of each live digest, added up. */
  method TotalBytes(rows: seq<Entry>) returns (total: nat)
    ensures total == Sum(Digests(rows), Sizes(rows))
  {
    var sizes := Sizes(rows);
    var todo := Digests(rows);
    total := 0;
    while todo != {}
      invariant todo <= Digests(rows) && total + Sum(todo, sizes) == Sum(Digests(rows), sizes)
    {
      var d :| d in todo;
      SumWithout(todo, sizes, d);
      total := total + sizes[d];
      todo := todo - {d};
    }
  }

  // ----- Rows after the sweep -----

  function Expired(rows: seq<Entry>, now: Time): seq<Entry> {
    seq(|rows|, i requires 0 <= i < |rows| =>
      if rows[i].expires.Some? && rows[i].expires.value <= now then rows[i].(deleted := true) else rows[i])
  }

  function Without(rows: seq<Entry>, ds: set<string>): seq<Entry> {
    seq(|rows|, i requires 0 <= i < |rows| => if rows[i].digest in ds then rows[i].(deleted := true) else rows[i])
  }

  lemma WithoutLive(rows: seq<Entry>, ds: set<string>)
    ensures forall e :: e in Live(Without(rows, ds)) <==> e in Live(rows) && e.digest !in ds
  {
    var after := Without(rows, ds);
    LiveMembers(rows);
    LiveMembers(after);
    forall e ensures e in Live(after) <==> e in Live(rows) && e.digest !in ds {
      if e in Live(after) {
        var i :| 0 <= i < |after| && after[i] == e;
        assert rows[i] == e;
      }
      if e in Live(rows) && e.digest !in ds {
        var i :| 0 <= i < |rows| && rows[i] == e;
        assert after[i] == e;
      }
    }
  }

  lemma SameRowsSameSizes(a: seq<Entry>, b: seq<Entry>, d: string)
    requires forall e: Entry :: e.digest == d ==> (e in a <==> e in b)
    requires d in Digests(a) && d in Digests(b)
    ensures Sizes(a)[d] == Sizes(b)[d]
  {
    var x :| x in a && x.digest == d && x.size == Sizes(a)[d];
    var y :| y in b && y.digest == d && y.size == Sizes(b)[d];
    assert x in b && y in a;
  }

  /** Removing whole digests leaves exactly their bytes out. */
  lemma BytesWithout(rows: seq<Entry>, order: seq<Entry>, evict: seq<string>)
    requires forall e :: e in order <==> e in Live(rows)
    ensures UniqueBytes(Without(rows, SetOf(evict))) == Remaining(order, evict)
  {
    var after := Live(Without(rows, SetOf(evict)));
    WithoutLive(rows, SetOf(evict));
    var left := Digests(order) - SetOf(evict);
    assert Digests(after) == left by {
      DigestsWithout(order, after, SetOf(evict));
    }
    forall d | d in left ensures Sizes(after)[d] == Sizes(order)[d] {
      SameRowsSameSizes(after, order, d);
    }
    SumAgrees(left, Sizes(after), Sizes(order));
  }

  lemma DigestsWithout(rows: seq<Entry>, after: seq<Entry>, ds: set<string>)
    requires forall e :: e in after <==> e in rows && e.digest !in ds
    ensures Digests(after) == Digests(rows) - ds
  {
    forall d ensures d in Digests(after) <==> d in Digests(rows) - ds {
      if d in Digests(rows) && d !in ds {
        var e :| e in rows && e.digest == d;
        assert e in after;
      }
    }
  }

  // ----- What goes first -----

  /** A digest seen before another has a row that stands before all rows of the other. */
  lemma {:induction false} SeenEarlier(rows: seq<Entry>, n: nat, d: string, i: nat) returns (k: nat)
    requires n <= |FirstSeen(rows)| && d in FirstSeen(rows)[..n] && i < |rows| && rows[i].digest !in FirstSeen(rows)[..n]
    ensures k < i && rows[k].digest == d
    decreases |rows|
  {
    var front, last := rows[..|rows| - 1], rows[|rows| - 1];
    var seen := FirstSeen(front);
    assert rows == front + [last];
    if i == |front| {
      assert d in seen;
      var e :| e in front && e.digest == d;
      k :| 0 <= k < |front| && front[k] == e;
    } else {
      assert rows[i].digest in seen by { assert front[i] == rows[i]; }
      assert seen <= FirstSeen(rows);
      assert n <= |seen| by { assert FirstSeen(rows)[..|FirstSeen(rows)|] == FirstSeen(rows) && rows[i].digest in FirstSeen(rows); }
      assert FirstSeen(rows)[..n] == seen[..n];
      k := SeenEarlier(front, n, d, i);
    }
  }

  /** Some live row of the digest was last used no later than `e`. */
  ghost predicate UsedNoLater(rows: seq<Entry>, d: string, e: Entry) {
    exists x :: x in rows && !x.deleted && x.digest == d && x.lastAccessed <= e.lastAccessed
  }

  /** Of every digest that goes, some row was last used no later than any row that stays. */
  lemma EvictedUsedNoLater(rows: seq<Entry>, order: seq<Entry>, evict: seq<string>, d: string, e: Entry)
    requires InOrder(order) && (forall x :: x in order <==> x in Live(rows)) && evict <= FirstSeen(order)
    requires d in evict && e in rows && !e.deleted && e.digest !in evict
    ensures UsedNoLater(rows, d, e)
  {
    hide FirstSeen, Live;
    LiveMembers(rows);
    assert e in order;
    var i :| 0 <= i < |order| && order[i] == e;
    assert FirstSeen(order)[..|evict|] == evict;
    var k := SeenEarlier(order, |evict|, d, i);
    assert order[k] in order && Older(order[k], order[i]);
  }

  /** A row after the sweep: gone if it was, if it is past its expiry, or if its digest was evicted. */
  ghost predicate SweptRow(before: Entry, after: Entry, now: Time, evict: seq<string>) {
    after == before.(deleted := before.deleted || (before.expires.Some? && before.expires.value <= now) || before.digest in evict)
  }

  lemma SweptRows(rows: seq<Entry>, now: Time, evict: seq<string>)
    ensures
      var after := Without(Expired(rows, now), SetOf(evict));
      |after| == |rows| && forall i :: 0 <= i < |rows| ==> SweptRow(rows[i], after[i], now, evict)
  {
  }

  lemma StayingRow(rows: seq<Entry>, evict: seq<string>, e: Entry)
    requires e in Without(rows, SetOf(evict)) && !e.deleted
    ensures e in rows && e.digest !in evict
  {
  }

  class CacheStore {
    var entries: seq<Entry>

    /**
     `ExpireCache`. Rows past their expiry go; then, when the rest is over a positive budget, whole digests go, in least
     recently used order, `evict` being the digests chosen. The result lists, sorted, exactly the digests nobody uses any more.
     */
    method ExpireCache(now: Time, maxBytes: int) returns (unused: seq<string>, evict: seq<string>)
      modifies this
      ensures entries == Without(Expired(old(entries), now), SetOf(evict))
      ensures |entries| == |old(entries)| && forall i :: 0 <= i < |entries| ==> SweptRow(old(entries)[i], entries[i], now, evict)
      ensures forall d, e :: d in evict && e in entries && !e.deleted ==> UsedNoLater(Expired(old(entries), now), d, e)
      ensures maxBytes > 0 ==> UniqueBytes(entries) <= maxBytes
      ensures
        var order := LeastRecentFirst(Live(Expired(old(entries), now)));
        && evict <= FirstSeen(order)
        && (maxBytes <= 0 || UniqueBytes(Expired(old(entries), now)) <= maxBytes ==> evict == [])
        && evict == (if maxBytes > 0 then Chosen(order, maxBytes) else [])
        && (maxBytes > 0 && Representative(order) ==> StillOver(Expired(old(entries), now), evict, maxBytes))
      ensures Sorted(unused) && Distinct(unused)
      ensures forall d :: d in unused <==> d in Digests(entries) && d !in Digests(Live(entries))
    {
      hide *;
      var rows := Expired(entries, now);
      var order := LeastRecentFirst(Live(rows));
      evict := [];
      NothingRemoved(rows);
      if maxBytes > 0 {
        var total := TotalBytes(order);
        TotalIsUnique(rows, order);
        NothingChosen(order, maxBytes);
        if total > maxBytes {
          evict := ChooseEvictions(order, total, maxBytes);
        }
        ChosenIsPrefix(order, maxBytes);
        ChosenFits(order, maxBytes);
        BytesWithout(rows, order, evict);
        MinimalIffRepresentative(order);
        if Representative(order) { ShorterStaysOver(rows, order, evict, maxBytes); }
      }
      SweptRows(entries, now, evict);
      entries := Without(rows, SetOf(evict));
      forall d, e | d in evict && e in entries && !e.deleted ensures UsedNoLater(rows, d, e) {
        StayingRow(rows, evict, e);
        EvictedUsedNoLater(rows, order, evict, d, e);
      }
      unused := UnreferencedBlobs(entries);
    }
  }

  lemma NothingChosen(rows: seq<Entry>, maxBytes: int)
    ensures Sum(Digests(rows), Sizes(rows)) <= maxBytes ==> Chosen(rows, maxBytes) == []
  {
    hide FirstSeen, Sum, Sizes;
    if Sum(Digests(rows), Sizes(rows)) <= maxBytes {
      StopIs(rows, maxBytes, 0, 0);
    }
  }

  lemma ChosenIsPrefix(rows: seq<Entry>, maxBytes: int)
    ensures Chosen(rows, maxBytes) <= FirstSeen(rows)
  {
  }

  /** Evicting any proper prefix of `evict` would have left too much. */
  ghost predicate StillOver(rows: seq<Entry>, evict: seq<string>, maxBytes: int) {
    forall k :: 0 <= k < |evict| ==> UniqueBytes(Without(rows, SetOf(evict[..k]))) > maxBytes
  }

  lemma ShorterStaysOver(rows: seq<Entry>, order: seq<Entry>, evict: seq<string>, maxBytes: int)
    requires forall e :: e in order <==> e in Live(rows)
    requires evict == [] || NoneShorter(order, evict, maxBytes)
    ensures StillOver(rows, evict, maxBytes)
  {
    hide Remaining, UniqueBytes, Live, Without;
    forall k | 0 <= k < |evict| ensures UniqueBytes(Without(rows, SetOf(evict[..k]))) > maxBytes {
      BytesWithout(rows, order, evict[..k]);
    }
  }

  lemma TotalIsUnique(rows: seq<Entry>, order: seq<Entry>)
    requires forall e :: e in order <==> e in Live(rows)
    ensures Sum(Digests(order), Sizes(order)) == UniqueBytes(rows) == Remaining(order, [])
  {
    hide UniqueBytes, Remaining;
    BytesWithout(rows, order, []);
    RemainingEnds(order);
    NothingRemoved(rows);
  }

  lemma NothingRemoved(rows: seq<Entry>)
    ensures Without(rows, SetOf([])) == rows
  {
  }

  /** Digests that only deleted rows still name. */
  method UnreferencedBlobs(rows: seq<Entry>) returns (r: seq<string>)
    ensures Sorted(r) && Distinct(r)
    ensures forall d :: d in r <==> d in Digests(rows) && d !in Digests(Live(rows))
  {
    var live := Digests(Live(rows));
    r := [];
    for i := 0 to |rows|
      invariant Distinct(r) && forall d :: d in r <==> d in Digests(rows[..i]) && d !in live
    {
      assert rows[..i + 1] == rows[..i] + [rows[i]];
      if rows[i].deleted && rows[i].digest !in live && rows[i].digest !in r {
        r := r + [rows[i].digest];
      }
      LiveMembers(rows);
      assert !rows[i].deleted ==> rows[i].digest in live;
    }
    assert rows[..|rows|] == rows;
    SortDistinct(r);
    r := Sort(r);
  }
}
