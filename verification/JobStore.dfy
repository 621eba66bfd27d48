/**
 The store's transactions as methods that change its tables. Each is proved to make exactly
 the step the protocol describes, or none; `now` and fresh lease ids are supplied by the caller.
 */
module JobStore {
  import opened Ordering
  import opened Dag
  import opened Tables
  import opened Blocking
  import opened Runs
  import opened RunInvariant
  import opened Protocol

  datatype LeaseReply = RunnerUnknown | RunnerUnfit | NoWork | Granted(run: nat, job: string, lease: Holding, generation: nat)
  datatype LeaseRef = LeaseRef(run: nat, job: string, lease: nat, generation: nat)
  datatype Beat = Beat(valid: bool, cancelRequested: bool, expires: Time)
  datatype Item = Item(name: string, producer: string, meta: Meta)

  /** ORDER BY created_at, id, job_name */
  predicate Precedes(runs: map<nat, RunRow>, a: (nat, string), b: (nat, string))
    requires a.0 in runs && b.0 in runs
  {
    || runs[a.0].createdAt < runs[b.0].createdAt
    || (runs[a.0].createdAt == runs[b.0].createdAt && (a.0 < b.0 || (a.0 == b.0 && Leq(a.1, b.1))))
  }

  function Candidates(runs: map<nat, RunRow>, docker: bool): set<(nat, string)> {
    set r, j | r in runs && j in runs[r].jobs && Leasable(runs[r], j, docker) :: (r, j)
  }

  lemma PrecedesTransitive(runs: map<nat, RunRow>, a: (nat, string), b: (nat, string), c: (nat, string))
    requires a.0 in runs && b.0 in runs && c.0 in runs && Precedes(runs, a, b) && Precedes(runs, b, c)
    ensures Precedes(runs, a, c)
  {
    if a.0 == b.0 == c.0 { LeqTransitive(a.1, b.1, c.1); }
  }

  lemma PrecedesTotal(runs: map<nat, RunRow>, a: (nat, string), b: (nat, string))
    requires a.0 in runs && b.0 in runs
    ensures Precedes(runs, a, b) || Precedes(runs, b, a)
  {
    LeqTotal(a.1, b.1);
  }

  /** The row LIMIT 1 returns: the first candidate in query order. */
  method FirstCandidate(runs: map<nat, RunRow>, candidates: set<(nat, string)>) returns (first: (nat, string))
    requires candidates != {} && forall c :: c in candidates ==> c.0 in runs
    ensures first in candidates && forall c :: c in candidates ==> Precedes(runs, first, c)
    ensures forall c :: c in candidates ==>
      && runs[first.0].createdAt <= runs[c.0].createdAt && (runs[first.0].createdAt == runs[c.0].createdAt ==> first.0 <= c.0)
      && (first.0 == c.0 ==> Leq(first.1, c.1))
  {
    first :| first in candidates;
    var todo := candidates - {first};
    LeqReflexive(first.1);
    while todo != {}
      invariant todo <= candidates && first in candidates
      invariant forall c :: c in candidates - todo ==> Precedes(runs, first, c)
    {
      var c :| c in todo;
      ghost var before := first;
      PrecedesTotal(runs, first, c);
      if Precedes(runs, c, first) {
        first := c;
        LeqReflexive(c.1);
        forall d | d in candidates - todo ensures Precedes(runs, c, d) {
          PrecedesTransitive(runs, c, before, d);
        }
      }
      todo := todo - {c};
    }
  }

  lemma {:induction false} SortedListsEqual(a: seq<string>, b: seq<string>)
    requires Sorted(a) && Distinct(a) && Sorted(b) && Distinct(b)
    requires forall n :: n in a <==> n in b
    ensures a == b
  {
    EmptyTogether(a, b);
    if a != [] {
      var i :| 0 <= i < |b| && b[i] == a[0];
      var k :| 0 <= k < |a| && a[k] == b[0];
      LeqReflexive(a[0]);
      assert Leq(a[0], b[0]) && Leq(b[0], a[0]);
      LeqAntisymmetric(a[0], b[0]);
      TailsAgree(a, b);
      SortedListsEqual(a[1..], b[1..]);
      assert a == [a[0]] + a[1..] && b == [b[0]] + b[1..];
    }
  }

  lemma EmptyTogether(a: seq<string>, b: seq<string>)
    requires forall n :: n in a <==> n in b
    ensures a == [] <==> b == []
    ensures a != [] ==> a[0] in b && b[0] in a
  {
    if a != [] { assert a[0] in b; }
    if b != [] { assert b[0] in a; }
  }

  lemma TailsAgree(a: seq<string>, b: seq<string>)
    requires Distinct(a) && Distinct(b) && a != [] && b != [] && a[0] == b[0]
    requires forall n :: n in a <==> n in b
    ensures forall n :: n in a[1..] <==> n in b[1..]
  {
    assert a == [a[0]] + a[1..] && b == [b[0]] + b[1..];
    assert a[0] !in a[1..] && b[0] !in b[1..];
    forall n ensures n in a[1..] <==> n in b[1..] {
      assert n in a <==> n == a[0] || n in a[1..];
      assert n in b <==> n == b[0] || n in b[1..];
    }
  }

  function LiveNames(run: RunRow, j: string): set<string> {
    set k | k in run.artifacts && k.0 == j && !run.artifacts[k].deleted :: k.1
  }

  lemma LiveName(run: RunRow, j: string, n: string)
    ensures n in LiveNames(run, j) <==> (j, n) in run.artifacts && !run.artifacts[(j, n)].deleted
  {
    if (j, n) in run.artifacts && !run.artifacts[(j, n)].deleted {
      assert (j, n).0 == j && (j, n).1 == n;
    }
  }

  /** `ORDER BY name` */
  method SortedNames(names: set<string>) returns (r: seq<string>)
    ensures Sorted(r) && Distinct(r) && forall n :: n in r <==> n in names
  {
    r := [];
    var todo := names;
    while todo != {}
      invariant todo <= names && Distinct(r) && forall n :: n in r <==> n in names - todo
    {
      var n :| n in todo;
      assert n !in r;
      r := r + [n];
      todo := todo - {n};
    }
    SortDistinct(r);
    r := Sort(r);
  }

  method ExpectedNames(job: JobDecl) returns (r: seq<string>)
    requires forall a, b :: 0 <= a < b < |job.uploads| ==> job.uploads[a].name != job.uploads[b].name
    ensures Sorted(r) && Distinct(r) && forall n :: n in r <==> Declares(job, n)
  {
    r := [];
    for i := 0 to |job.uploads|
      invariant |r| == i && forall k :: 0 <= k < i ==> r[k] == job.uploads[k].name
    {
      r := r + [job.uploads[i].name];
    }
    forall n ensures n in r <==> Declares(job, n) {
      if n in r {
        var k :| 0 <= k < |r| && r[k] == n;
        assert job.uploads[k] in job.uploads;
      }
      if Declares(job, n) {
        var u :| u in job.uploads && u.name == n;
        var k :| 0 <= k < |r| && job.uploads[k] == u;
        assert r[k] == n;
      }
    }
    SortDistinct(r);
    r := Sort(r);
  }

  lemma CommittedIffEqual(run: RunRow, j: string, expected: seq<string>, actual: seq<string>)
    requires j in run.decl && Sorted(expected) && Distinct(expected) && Sorted(actual) && Distinct(actual)
    requires forall n :: n in expected <==> Declares(run.decl[j], n)
    requires forall n :: n in actual <==> n in LiveNames(run, j)
    ensures ArtifactsCommitted(run, j) <==> expected == actual
  {
    forall n ensures n in actual <==> (j, n) in run.artifacts && !run.artifacts[(j, n)].deleted {
      LiveName(run, j, n);
    }
    if ArtifactsCommitted(run, j) {
      SortedListsEqual(expected, actual);
    } else if expected == actual {
      assert ArtifactsCommitted(run, j);
    }
  }

  /** `artifactSetCommittedTx`: the live artifact names, sorted, equal the declared ones, sorted. */
  method ArtifactSetCommitted(run: RunRow, j: string) returns (ok: bool)
    requires j in run.decl && ValidArtifacts(run.decl)
    ensures ok <==> ArtifactsCommitted(run, j)
  {
    hide ArtifactsCommitted, Declares, LiveNames;
    var actual := SortedNames(LiveNames(run, j));
    var expected := ExpectedNames(run.decl[j]);
    CommittedIffEqual(run, j, expected, actual);
    if |expected| != |actual| {
      return false;
    }
    for i := 0 to |expected|
      invariant expected[..i] == actual[..i]
    {
      if expected[i] != actual[i] {
        return false;
      }
    }
    return true;
  }

  // ----- Heartbeats -----

  /** One renewal: a no-op unless the reference names a live lease of this runner. */
  function RenewOne(runs: map<nat, RunRow>, runner: nat, l: LeaseRef, now: Time): map<nat, RunRow> {
    if l.run in runs && Holds(runs[l.run], l.job, runner, l.lease, l.generation, now)
    then runs[l.run := Renewed(runs[l.run], l.job, now + JOB_LEASE_TTL)]
    else runs
  }

  function RenewAll(runs: map<nat, RunRow>, runner: nat, leases: seq<LeaseRef>, now: Time): map<nat, RunRow> {
    if leases == [] then runs
    else RenewOne(RenewAll(runs, runner, leases[..|leases| - 1], now), runner, leases[|leases| - 1], now)
  }

  lemma RenewAllPush(runs: map<nat, RunRow>, runner: nat, leases: seq<LeaseRef>, i: nat, now: Time)
    requires i < |leases|
    ensures RenewAll(runs, runner, leases[..i + 1], now) == RenewOne(RenewAll(runs, runner, leases[..i], now), runner, leases[i], now)
  {
    assert leases[..i + 1][..i] == leases[..i];
  }

  lemma RenewNone(runs: map<nat, RunRow>, runner: nat, leases: seq<LeaseRef>, now: Time)
    ensures RenewAll(runs, runner, leases[..0], now) == runs
  {
  }

  /** A renewal never makes another reference live or dead, so one transaction judges all
      references as they stood when it began. */
  lemma {:induction false} RenewalsIndependent(runs: map<nat, RunRow>, runner: nat, leases: seq<LeaseRef>, now: Time, l: LeaseRef)
    ensures
      var after := RenewAll(runs, runner, leases, now);
      && after.Keys == runs.Keys
      && (l.run in runs ==>
            (Holds(after[l.run], l.job, runner, l.lease, l.generation, now) <==> Holds(runs[l.run], l.job, runner, l.lease, l.generation, now))
            && after[l.run].cancelRequested == runs[l.run].cancelRequested)
  {
    if leases != [] {
      RenewalsIndependent(runs, runner, leases[..|leases| - 1], now, l);
      RenewalsIndependent(runs, runner, leases[..|leases| - 1], now, leases[|leases| - 1]);
    }
  }

  ghost predicate Live(s: State, runner: nat, l: LeaseRef) {
    Owns(s, Owner(l.run, l.job, runner, l.lease, l.generation))
  }

  function OwnerOf(runner: nat, l: LeaseRef): Owner {
    Owner(l.run, l.job, runner, l.lease, l.generation)
  }

  /** The state a list of transactions leads to, if each is enabled in turn. */
  ghost function Outcome(s: State, events: seq<Event>): Option<State> {
    if events == [] then Some(s)
    else
      var before := Outcome(s, events[..|events| - 1]);
      if before.Some? && Enabled(before.value, events[|events| - 1]) then Some(Apply(before.value, events[|events| - 1])) else None
  }

  /** One renewal for each reference that is live in `s`, in order. */
  ghost function Renewals(s: State, runner: nat, leases: seq<LeaseRef>): seq<Event> {
    if leases == [] then []
    else
      var front, last := leases[..|leases| - 1], leases[|leases| - 1];
      Renewals(s, runner, front) + if Live(s, runner, last) then [Renew(OwnerOf(runner, last))] else []
  }

  ghost function Beaten(s: State, runner: nat, leases: seq<LeaseRef>): State
    requires runner in s.runners
  {
    s.(runs := RenewAll(s.runs, runner, leases, s.now), runners := s.runners[runner := s.runners[runner].(online := true, lastSeen := s.now)])
  }

  lemma OutcomePush(s: State, events: seq<Event>, e: Event)
    ensures Outcome(s, events + [e]) ==
      var before := Outcome(s, events);
      if before.Some? && Enabled(before.value, e) then Some(Apply(before.value, e)) else None
  {
    assert (events + [e])[..|events|] == events;
  }

  lemma RenewalIsStep(s: State, runner: nat, front: seq<LeaseRef>, l: LeaseRef)
    requires runner in s.runners
    ensures
      var m := Beaten(s, runner, front);
      && (Live(s, runner, l) <==> Enabled(m, Renew(OwnerOf(runner, l))))
      && Beaten(s, runner, front + [l]) == if Live(s, runner, l) then Apply(m, Renew(OwnerOf(runner, l))) else m
  {
    hide Holds, Renewed;
    RenewalsIndependent(s.runs, runner, front, s.now, l);
    assert (front + [l])[..|front|] == front;
  }

  lemma SeenIsStep(s: State, runner: nat)
    requires runner in s.runners
    ensures Outcome(s, [Seen(runner)]) == Some(Beaten(s, runner, []))
  {
    OutcomePush(s, [], Seen(runner));
    assert [] + [Seen(runner)] == [Seen(runner)];
  }

  lemma RenewalsPush(s: State, runner: nat, front: seq<LeaseRef>, l: LeaseRef)
    ensures Renewals(s, runner, front + [l]) == Renewals(s, runner, front) + if Live(s, runner, l) then [Renew(OwnerOf(runner, l))] else []
  {
    assert (front + [l])[..|front|] == front;
  }

  lemma HeartbeatStep(s: State, runner: nat, front: seq<LeaseRef>, l: LeaseRef)
    requires runner in s.runners && Outcome(s, [Seen(runner)] + Renewals(s, runner, front)) == Some(Beaten(s, runner, front))
    ensures Outcome(s, [Seen(runner)] + Renewals(s, runner, front + [l])) == Some(Beaten(s, runner, front + [l]))
  {
    hide Beaten, Live, Enabled, Apply, OwnerOf, Outcome, Renewals;
    var events, e := [Seen(runner)] + Renewals(s, runner, front), Renew(OwnerOf(runner, l));
    RenewalIsStep(s, runner, front, l);
    RenewalsPush(s, runner, front, l);
    OutcomePush(s, events, e);
    if Live(s, runner, l) {
      assert [Seen(runner)] + (Renewals(s, runner, front) + [e]) == events + [e];
    } else {
      assert Renewals(s, runner, front) + [] == Renewals(s, runner, front);
    }
  }

  /** A heartbeat is the Seen step followed by one Renew step for each lease that was live when it began. */
  lemma {:induction false} HeartbeatIsSteps(s: State, runner: nat, leases: seq<LeaseRef>)
    requires runner in s.runners
    ensures Outcome(s, [Seen(runner)] + Renewals(s, runner, leases)) == Some(Beaten(s, runner, leases))
  {
    hide Beaten, Live, Outcome;
    if leases == [] {
      SeenIsStep(s, runner);
      assert [Seen(runner)] + [] == [Seen(runner)];
    } else {
      var front, last := leases[..|leases| - 1], leases[|leases| - 1];
      HeartbeatIsSteps(s, runner, front);
      HeartbeatStep(s, runner, front, last);
      assert front + [last] == leases;
    }
  }

  ghost predicate Beats(runs: map<nat, RunRow>, runner: nat, leases: seq<LeaseRef>, now: Time, r: nat, j: string) {
    exists l :: l in leases && l.run == r && l.job == j && r in runs && Holds(runs[r], j, runner, l.lease, l.generation, now)
  }

  lemma BeatsPush(runs: map<nat, RunRow>, runner: nat, front: seq<LeaseRef>, l: LeaseRef, now: Time, r: nat, j: string)
    ensures Beats(runs, runner, front + [l], now, r, j) <==>
      Beats(runs, runner, front, now, r, j) || (l.run == r && l.job == j && r in runs && Holds(runs[r], j, runner, l.lease, l.generation, now))
  {
    if l.run == r && l.job == j { assert l in front + [l]; }
    if x :| x in front && x.run == r && x.job == j && r in runs && Holds(runs[r], j, runner, x.lease, x.generation, now) {
      assert x in front + [l];
    }
  }

  /** After a heartbeat the listed live leases last one full period from now; no other row has changed. */
  lemma {:induction false} HeartbeatStores(runs: map<nat, RunRow>, runner: nat, leases: seq<LeaseRef>, now: Time, r: nat, j: string)
    requires r in runs && j in runs[r].jobs
    ensures
      var after := RenewAll(runs, runner, leases, now);
      && r in after && j in after[r].jobs
      && (if Beats(runs, runner, leases, now, r, j)
          then runs[r].jobs[j].lease.Some? && after[r].jobs[j] == runs[r].jobs[j].(lease := Some(runs[r].jobs[j].lease.value.(expires := now + JOB_LEASE_TTL)))
          else after[r].jobs[j] == runs[r].jobs[j])
  {
    if leases != [] {
      var front, last := leases[..|leases| - 1], leases[|leases| - 1];
      HeartbeatStores(runs, runner, front, now, r, j);
      RenewalsIndependent(runs, runner, front, now, last);
      BeatsPush(runs, runner, front, last, now, r, j);
      assert front + [last] == leases;
      hide Beats;
    }
  }

  // ----- Artifact commits -----

  /** What `hex.DecodeString` reads. */
  predicate HexDigit(c: char) {
    '0' <= c <= '9' || 'a' <= c <= 'f' || 'A' <= c <= 'F'
  }

  predicate ValidDigest(d: string) {
    |d| == 64 && forall i | 0 <= i < |d| :: HexDigit(d[i])
  }

  /** The table's own check on a digest column is stricter: lower case only. */
  predicate StorableDigest(d: string) {
    |d| == 64 && forall i | 0 <= i < |d| :: '0' <= d[i] <= '9' || 'a' <= d[i] <= 'f'
  }

  predicate StorableMeta(m: Meta) {
    StorableDigest(m.content) && StorableDigest(m.blob)
  }

  predicate ValidItem(item: Item, job: string, root: string) {
    && item.producer == job && ValidDigest(item.meta.content) && ValidDigest(item.meta.blob)
    && item.meta.format == "artifact-tar-gzip-v1" && item.meta.rootName == root
    && (item.meta.rootKind == "file" || item.meta.rootKind == "directory")
    && item.meta.archiveSize >= 0 && item.meta.logicalSize >= 0 && item.meta.entryCount >= 1
  }

  function Roots(uploads: seq<Upload>): (r: map<string, string>)
    ensures forall n :: n in r <==> exists u :: u in uploads && u.name == n
  {
    if uploads == [] then map[]
    else
      assert uploads == uploads[..|uploads| - 1] + [uploads[|uploads| - 1]];
      Roots(uploads[..|uploads| - 1])[uploads[|uploads| - 1].name := uploads[|uploads| - 1].root]
  }

  function Metas(items: seq<Item>): (r: map<string, Meta>)
    ensures forall n :: n in r <==> exists i :: 0 <= i < |items| && items[i].name == n
  {
    if items == [] then map[]
    else
      assert items == items[..|items| - 1] + [items[|items| - 1]];
      Metas(items[..|items| - 1])[items[|items| - 1].name := items[|items| - 1].meta]
  }

  /** Every item is a valid upload the job declares, and no name comes twice. */
  ghost predicate WellFormedItems(items: seq<Item>, job: string, roots: map<string, string>) {
    && (forall i :: 0 <= i < |items| ==> items[i].name in roots && ValidItem(items[i], job, roots[items[i].name]))
    && (forall i, k :: 0 <= i < k < |items| ==> items[i].name != items[k].name)
  }

  method CheckItems(items: seq<Item>, job: string, roots: map<string, string>) returns (ok: bool)
    ensures ok <==> WellFormedItems(items, job, roots)
  {
    var seen: set<string> := {};
    for i := 0 to |items|
      invariant WellFormedItems(items[..i], job, roots)
      invariant forall n :: n in seen <==> exists k :: 0 <= k < i && items[k].name == n
    {
      if items[i].name !in roots || items[i].name in seen || !ValidItem(items[i], job, roots[items[i].name]) {
        return false;
      }
      seen := seen + {items[i].name};
    }
    assert items[..|items|] == items;
    return true;
  }

  lemma {:induction false} MetasSize(items: seq<Item>)
    requires forall i, k :: 0 <= i < k < |items| ==> items[i].name != items[k].name
    ensures |Metas(items)| == |items|
  {
    if items != [] {
      var front, last := items[..|items| - 1], items[|items| - 1];
      MetasSize(front);
      assert last.name !in Metas(front);
      assert Metas(items).Keys == Metas(front).Keys + {last.name};
    }
  }

  /** As many distinct declared names as there are declared names are all of them. */
  lemma FullSet(items: seq<Item>, job: string, decl: JobDecl)
    requires WellFormedItems(items, job, Roots(decl.uploads)) && |items| == |Roots(decl.uploads)|
    ensures forall n :: n in Metas(items) <==> Declares(decl, n)
  {
    var roots := Roots(decl.uploads);
    MetasSize(items);
    assert Metas(items).Keys <= roots.Keys;
    SubsetSize(Metas(items).Keys, roots.Keys);
    assert |Metas(items).Keys| == |roots.Keys|;
  }

  function StoredNames(run: RunRow, j: string): set<string> {
    set k | k in run.artifacts && k.0 == j :: k.1
  }

  lemma StoredName(run: RunRow, j: string, n: string)
    ensures n in StoredNames(run, j) <==> (j, n) in run.artifacts
  {
    if (j, n) in run.artifacts {
      assert (j, n).0 == j && (j, n).1 == n;
    }
  }

  /** `sameArtifactSet`: as many stored rows as items, each with the item's metadata. */
  method SameArtifactSet(run: RunRow, j: string, items: seq<Item>) returns (same: bool)
    ensures same <==> |StoredNames(run, j)| == |items| && StoredAmong(run, j, Metas(items))
  {
    forall n ensures n in StoredNames(run, j) <==> (j, n) in run.artifacts {
      StoredName(run, j, n);
    }
    var stored := StoredNames(run, j);
    if |stored| != |items| {
      return false;
    }
    var byName := Metas(items);
    var todo := stored;
    while todo != {}
      invariant todo <= stored
      invariant forall n :: n in stored - todo ==> n in byName && byName[n] == run.artifacts[(j, n)].meta
    {
      var n :| n in todo;
      if n !in byName || byName[n] != run.artifacts[(j, n)].meta {
        return false;
      }
      todo := todo - {n};
    }
    return true;
  }

  lemma AbortedIs(run: RunRow, js: set<string>, expiry: Time)
    ensures Aborted(run, js, expiry) == if js == {} then run else Finalize(run.(jobs := BlockAll(run.decl, AbortIn(run.jobs, js))), expiry)
  {
  }

  class Store {
    var runs: map<nat, RunRow>
    var runners: map<nat, RunnerRow>
    const retention: nat

    constructor (retention: nat)
      ensures View(0, 0) == Initial(retention)
    {
      this.retention := retention;
      runs, runners := map[], map[];
    }

    /** The tables as the protocol sees them at time `now`, with `nextLease` the next fresh id. */
    ghost function View(now: Time, nextLease: nat): State
      reads this
    {
      State(runs, runners, now, nextLease, retention)
    }

    method RegisterRunner(runner: nat, docker: bool, capacity: nat, protocol: nat, now: Time)
      requires capacity > 0
      modifies this
      ensures View(now, 0) == Apply(old(View(now, 0)), Register(runner, docker, capacity, protocol))
    {
      runners := runners[runner := RunnerRow(docker, capacity, protocol, true, now)];
    }

    method CreateRun(run: nat, decl: Pipeline, maxParallel: nat, now: Time)
      requires run !in runs && ValidPipeline(decl) && maxParallel > 0
      modifies this
      ensures View(now, 0) == Apply(old(View(now, 0)), Submit(run, decl, maxParallel))
    {
      var jobs: map<string, JobRow> := map[];
      var todo := decl.Keys;
      while todo != {}
        invariant todo <= decl.Keys && jobs.Keys == decl.Keys - todo
        invariant forall j :: j in jobs ==> jobs[j] == NewJobs(decl)[j]
        invariant runs == old(runs) && runners == old(runners)
      {
        var j :| j in todo;
        jobs := jobs[j := JobRow(JobPending, decl[j].image, 0, None)];
        todo := todo - {j};
      }
      assert jobs == NewJobs(decl);
      runs := runs[run := RunRow(RunQueued, decl, maxParallel, now, false, false, jobs, map[])];
    }

    /** Grants the first job in query order that the protocol admits for this runner, or reports that there is none. */
    method LeaseJob(runner: nat, leaseId: nat, now: Time) returns (r: LeaseReply)
      modifies this`runs
      ensures r.RunnerUnknown? <==> runner !in runners
      ensures r.RunnerUnfit? <==> runner in runners && !(runners[runner].protocol == 2 && runners[runner].online)
      ensures !r.Granted? ==> runs == old(runs) && forall q: nat, j :: !Admits(old(View(now, leaseId)), runner, q, j)
      ensures r.Granted? ==>
        && Admits(old(View(now, leaseId)), runner, r.run, r.job)
        && View(now, leaseId + 1) == Apply(old(View(now, leaseId)), Lease(runner, r.run, r.job))
        && r.lease == Holding(runner, leaseId, now + JOB_LEASE_TTL)
        && r.generation == runs[r.run].jobs[r.job].generation
        && (forall q, j :: Admits(old(View(now, leaseId)), runner, q, j) ==>
              && old(runs)[r.run].createdAt <= old(runs)[q].createdAt
              && (old(runs)[r.run].createdAt == old(runs)[q].createdAt ==> r.run <= q)
              && (r.run == q ==> Leq(r.job, j)))
    {
      if runner !in runners {
        return RunnerUnknown;
      }
      if runners[runner].protocol != 2 || !runners[runner].online {
        return RunnerUnfit;
      }
      var active := |ActiveJobs(runs, runner)|;
      if active >= runners[runner].capacity {
        return NoWork;
      }
      var candidates := Candidates(runs, runners[runner].docker);
      forall q: nat, j | Admits(View(now, leaseId), runner, q, j) ensures (q, j) in candidates {
      }
      if candidates == {} {
        return NoWork;
      }
      var c := FirstCandidate(runs, candidates);
      var lease := Holding(runner, leaseId, now + JOB_LEASE_TTL);
      runs := runs[c.0 := Leased(runs[c.0], c.1, lease)];
      r := Granted(c.0, c.1, lease, runs[c.0].jobs[c.1].generation);
    }

    /** Renews, at once, every listed lease this runner still holds; the reply judges each as it stood. */
    method HeartbeatJobLeases(runner: nat, leases: seq<LeaseRef>, now: Time) returns (known: bool, beats: seq<Beat>)
      modifies this
      ensures known <==> runner in old(runners)
      ensures !known ==> runs == old(runs) && runners == old(runners)
      ensures known ==>
        && Outcome(old(View(now, 0)), [Seen(runner)] + Renewals(old(View(now, 0)), runner, leases)) == Some(View(now, 0))
        && runs == RenewAll(old(runs), runner, leases, now)
        && |beats| == |leases|
        && (forall i :: 0 <= i < |leases| ==>
              && (beats[i].valid <==> Live(old(View(now, 0)), runner, leases[i]))
              && (beats[i].valid ==> beats[i].expires == now + JOB_LEASE_TTL)
              && (beats[i].valid ==> beats[i].cancelRequested == old(runs)[leases[i].run].cancelRequested))
    {
      hide Renewed, Enabled, Apply, Outcome, Renewals, RenewAll;
      if runner !in runners {
        return false, [];
      }
      runners := runners[runner := runners[runner].(online := true, lastSeen := now)];
      known, beats := true, [];
      ghost var before := runs;
      RenewNone(before, runner, leases, now);
      for i := 0 to |leases|
        invariant runs == RenewAll(before, runner, leases[..i], now) && |beats| == i
        invariant runners == old(runners)[runner := old(runners)[runner].(online := true, lastSeen := now)]
        invariant forall k :: 0 <= k < i ==>
          && (beats[k].valid <==> Live(old(View(now, 0)), runner, leases[k]))
          && (beats[k].valid ==> beats[k].expires == now + JOB_LEASE_TTL && beats[k].cancelRequested == before[leases[k].run].cancelRequested)
      {
        var l := leases[i];
        RenewalsIndependent(before, runner, leases[..i], now, l);
        RenewAllPush(before, runner, leases, i, now);
        if l.run in runs && Holds(runs[l.run], l.job, runner, l.lease, l.generation, now) {
          beats := beats + [Beat(true, runs[l.run].cancelRequested, now + JOB_LEASE_TTL)];
          runs := runs[l.run := Renewed(runs[l.run], l.job, now + JOB_LEASE_TTL)];
        } else {
          beats := beats + [Beat(false, false, 0)];
        }
      }
      assert leases[..|leases|] == leases;
      HeartbeatIsSteps(old(View(now, 0)), runner, leases);
    }

    /** Stored pipelines were validated when their runs were created. */
    ghost predicate Stored()
      reads this
    {
      forall r :: r in runs ==> ValidArtifacts(runs[r].decl) && runs[r].jobs.Keys == runs[r].decl.Keys
    }

    method FinalizeRun(run: RunRow, now: Time) returns (r: RunRow)
      ensures r == Finalize(run, now + retention)
    {
      var unfinished := exists j | j in run.jobs :: Unfinished(run.jobs[j].status);
      if unfinished {
        return run;
      }
      var hasError, hasAbort := Any(run.jobs, JobError), Any(run.jobs, JobAborted);
      var hasFailure := Any(run.jobs, JobFailed) || Any(run.jobs, JobBlocked);
      var status;
      if hasError {
        status := RunError;
      } else if hasAbort {
        status := RunAborted;
      } else if run.cancelRequested {
        status := RunCanceled;
      } else if hasFailure {
        status := RunFailed;
      } else {
        status := RunPassed;
      }
      if Terminal(run.status) {
        return run;
      }
      r := run.(status := status, artifacts := Dated(run.artifacts, now + retention));
    }

    /** Accepts a report exactly from the live leaseholder, with its artifacts committed if it passed. */
    method CompleteJob(o: Owner, status: JobStatus, now: Time) returns (ok: bool)
      requires Stored()
      modifies this`runs
      ensures ok <==> Enabled(old(View(now, 0)), Complete(o, status))
      ensures ok ==> View(now, 0) == Apply(old(View(now, 0)), Complete(o, status))
      ensures !ok ==> runs == old(runs)
    {
      hide BlockAll, Finalize, ArtifactsCommitted, ValidArtifacts;
      if !Reportable(status) {
        return false;
      }
      if !(o.run in runs && Holds(runs[o.run], o.job, o.runner, o.lease, o.generation, now)) {
        return false;
      }
      var run := runs[o.run];
      if status.JobPassed? {
        var committed := ArtifactSetCommitted(run, o.job);
        if !committed {
          return false;
        }
      }
      var jobs := run.jobs[o.job := run.jobs[o.job].(status := status, lease := None)];
      if !status.JobPassed? {
        jobs := BlockDependents(run.decl, jobs);
      }
      run := FinalizeRun(run.(jobs := jobs), now);
      runs := runs[o.run := run];
      ok := true;
    }

    /** Aborts the jobs `lost` names in each run, blocks their dependents and finalizes the runs touched. */
    method AbortAll(lost: map<nat, set<string>>, now: Time)
      requires lost.Keys == runs.Keys
      modifies this`runs
      ensures runs == map r | r in old(runs) :: Aborted(old(runs)[r], lost[r], now + retention)
    {
      hide Finalize, BlockAll, AbortIn, Aborted;
      forall r | r in runs && lost[r] == {} ensures runs[r] == Aborted(runs[r], lost[r], now + retention) {
        AbortedIs(runs[r], lost[r], now + retention);
      }
      var todo := set r | r in runs && lost[r] != {};
      while todo != {}
        invariant runs.Keys == old(runs).Keys && forall r :: r in todo ==> r in runs && lost[r] != {}
        invariant forall r :: r in todo ==> runs[r] == old(runs)[r]
        invariant forall r :: r in runs && r !in todo ==> runs[r] == Aborted(old(runs)[r], lost[r], now + retention)
      {
        var r :| r in todo;
        var jobs := BlockDependents(runs[r].decl, AbortIn(runs[r].jobs, lost[r]));
        var run := FinalizeRun(runs[r].(jobs := jobs), now);
        AbortedIs(runs[r], lost[r], now + retention);
        runs := runs[r := run];
        todo := todo - {r};
      }
    }

    method ExpireJobLeases(now: Time)
      modifies this
      ensures View(now, 0) == Apply(old(View(now, 0)), Expire)
    {
      hide Aborted, ExpiredIn;
      AbortAll(map r | r in runs :: ExpiredIn(runs[r].jobs, now), now);
      runners := map x | x in runners ::
        if runners[x].lastSeen + JOB_LEASE_TTL < now then runners[x].(online := false) else runners[x];
    }

    method RecoverRemoteJobs(now: Time)
      modifies this`runs
      ensures View(now, 0) == Apply(old(View(now, 0)), Recover)
    {
      hide Aborted, RunningIn;
      AbortAll(map r | r in runs :: RunningIn(runs[r].jobs), now);
    }

    method CancelQueued(r: nat, now: Time) returns (ok: bool)
      modifies this`runs
      ensures ok <==> Enabled(old(View(now, 0)), Protocol.CancelQueued(r))
      ensures ok ==> View(now, 0) == Apply(old(View(now, 0)), Protocol.CancelQueued(r))
      ensures !ok ==> runs == old(runs)
    {
      ok := r in runs && runs[r].status.RunQueued?;
      if ok {
        runs := runs[r := runs[r].(status := RunCanceled, cancelRequested := true, jobs := CancelPending(runs[r].jobs))];
      }
    }

    method RequestCancel(r: nat, now: Time) returns (ok: bool)
      modifies this`runs
      ensures ok <==> Enabled(old(View(now, 0)), Protocol.RequestCancel(r))
      ensures ok ==> View(now, 0) == Apply(old(View(now, 0)), Protocol.RequestCancel(r))
      ensures !ok ==> runs == old(runs)
    {
      ok := r in runs && runs[r].status.RunRunning?;
      if ok {
        var run := FinalizeRun(runs[r].(cancelRequested := true, jobs := CancelPending(runs[r].jobs)), now);
        runs := runs[r := run];
      }
    }

    /** Stores a leaseholder's artifacts once; a repeat of the same set is accepted and changes nothing. */
    method CommitArtifacts(o: Owner, items: seq<Item>, now: Time) returns (ok: bool)
      requires Stored()
      modifies this`runs
      ensures ok <==> Owns(old(View(now, 0)), o) && old(runs)[o.run].status.RunRunning? && Committable(old(runs)[o.run], o.job, items)
      ensures !ok ==> runs == old(runs)
      ensures ok ==>
        && o.run in runs && runs == old(runs)[o.run := runs[o.run]]
        && Commits(old(runs)[o.run], o.job, items, runs[o.run])
    {
      hide ValidArtifacts, Commits, Committable;
      if !(o.run in runs && runs[o.run].status.RunRunning? && Holds(runs[o.run], o.job, o.runner, o.lease, o.generation, now)) {
        return false;
      }
      var after;
      ok, after := CommitInto(runs[o.run], o.job, items);
      if ok {
        runs := runs[o.run := after];
      }
    }
  }

  ghost predicate Uncommitted(run: RunRow, j: string) {
    forall n :: (j, n) !in run.artifacts
  }

  /** The job's stored artifacts are these, with the same metadata. */
  ghost predicate SameAsStored(run: RunRow, j: string, items: map<string, Meta>) {
    && (forall n :: (j, n) in run.artifacts <==> n in items)
    && (forall n :: n in items && (j, n) in run.artifacts ==> run.artifacts[(j, n)].meta == items[n])
  }

  /** Valid items, one for each declared artifact, that are new or repeat what is stored. */
  ghost predicate Committable(run: RunRow, j: string, items: seq<Item>) {
    && j in run.decl && WellFormedItems(items, j, Roots(run.decl[j].uploads)) && |items| == |Roots(run.decl[j].uploads)|
    && (if Uncommitted(run, j) then AllStorable(items) else SameAsStored(run, j, Metas(items)))
  }

  ghost predicate AllStorable(items: seq<Item>) {
    forall i :: 0 <= i < |items| ==> StorableMeta(items[i].meta)
  }

  /** The rows are inserted one by one; one the table refuses rolls all of them back. */
  method TryInsert(items: seq<Item>) returns (ok: bool)
    ensures ok <==> AllStorable(items)
  {
    for i := 0 to |items|
      invariant forall k :: 0 <= k < i ==> StorableMeta(items[k].meta)
    {
      if !StorableMeta(items[i].meta) {
        return false;
      }
    }
    ok := true;
  }

  /** The items are exactly the declared artifacts, they are stored afterwards, and rows were added only
      if there were none. */
  ghost predicate Commits(run: RunRow, j: string, items: seq<Item>, after: RunRow) {
    && Committable(run, j, items)
    && (forall n :: n in Metas(items) <==> Declares(run.decl[j], n))
    && SameAsStored(after, j, Metas(items))
    && after == if Uncommitted(run, j) then Inserted(run, j, Metas(items)) else run
  }

  lemma {:induction false} MetaOf(items: seq<Item>, i: nat)
    requires i < |items| && forall a, b :: 0 <= a < b < |items| ==> items[a].name != items[b].name
    ensures items[i].name in Metas(items) && Metas(items)[items[i].name] == items[i].meta
  {
    if i < |items| - 1 {
      MetaOf(items[..|items| - 1], i);
    }
  }

  lemma {:induction false} RootOf(uploads: seq<Upload>, i: nat)
    requires i < |uploads| && forall a, b :: 0 <= a < b < |uploads| ==> uploads[a].name != uploads[b].name
    ensures uploads[i].name in Roots(uploads) && Roots(uploads)[uploads[i].name] == uploads[i].root
  {
    if i < |uploads| - 1 {
      RootOf(uploads[..|uploads| - 1], i);
    }
  }

  /** An item as the control plane takes it, with the root the declaration names. */
  ghost predicate TakenFor(item: Item, u: Upload, job: string) {
    && item.name == u.name && item.producer == job && item.meta.rootName == u.root && item.meta.format == "artifact-tar-gzip-v1"
    && item.meta.rootKind in {"file", "directory"} && item.meta.archiveSize >= 0 && item.meta.logicalSize >= 0 && item.meta.entryCount > 0
    && |item.meta.content| == |item.meta.blob| == 64
  }

  ghost predicate HasItem(items: seq<Item>, u: Upload, job: string) {
    exists i :: 0 <= i < |items| && TakenFor(items[i], u, job)
  }

  ghost predicate StoredAs(run: RunRow, j: string, item: Item) {
    (j, item.name) in run.artifacts && run.artifacts[(j, item.name)].meta == item.meta
  }

  lemma {:induction false} ItemFor(items: seq<Item>, job: string, uploads: seq<Upload>, k: nat)
    requires WellFormedItems(items, job, Roots(uploads)) && |items| == |Roots(uploads)| && k < |uploads|
    requires forall a, b :: 0 <= a < b < |uploads| ==> uploads[a].name != uploads[b].name
    ensures HasItem(items, uploads[k], job)
  {
    var decl := JobDecl([], false, uploads, []);
    FullSet(items, job, decl);
    RootOf(uploads, k);
    assert uploads[k] in uploads && Declares(decl, uploads[k].name);
    var i :| 0 <= i < |items| && items[i].name == uploads[k].name;
    assert TakenFor(items[i], uploads[k], job);
  }

  /** What a commit that succeeds means: one item for each declared artifact, with the declared root and sane numbers, and afterwards each
      item's own metadata is what is stored under its name. */
  lemma CommitMeans(run: RunRow, j: string, items: seq<Item>, after: RunRow)
    requires Commits(run, j, items, after)
    requires forall a, b :: 0 <= a < b < |run.decl[j].uploads| ==> run.decl[j].uploads[a].name != run.decl[j].uploads[b].name
    ensures forall k :: 0 <= k < |run.decl[j].uploads| ==> HasItem(items, run.decl[j].uploads[k], j)
    ensures forall i :: 0 <= i < |items| ==> Declares(run.decl[j], items[i].name) && StoredAs(after, j, items[i])
  {
    hide Metas, Roots, HasItem, StoredAs, Commits, WellFormedItems, SameAsStored, Declares;
    CommitParts(run, j, items, after);
    var uploads := run.decl[j].uploads;
    forall k | 0 <= k < |uploads| ensures HasItem(items, uploads[k], j) {
      ItemFor(items, j, uploads, k);
    }
    forall i | 0 <= i < |items| ensures Declares(run.decl[j], items[i].name) && StoredAs(after, j, items[i]) {
      ItemStored(j, items, Roots(uploads), after, i);
    }
  }

  lemma CommitParts(run: RunRow, j: string, items: seq<Item>, after: RunRow)
    requires Commits(run, j, items, after)
    ensures j in run.decl
    ensures WellFormedItems(items, j, Roots(run.decl[j].uploads)) && |items| == |Roots(run.decl[j].uploads)|
    ensures SameAsStored(after, j, Metas(items)) && forall n :: n in Metas(items) <==> Declares(run.decl[j], n)
  {
    hide Metas, Roots, Inserted, WellFormedItems, SameAsStored, Declares;
  }

  lemma ItemStored(j: string, items: seq<Item>, roots: map<string, string>, after: RunRow, i: nat)
    requires WellFormedItems(items, j, roots) && SameAsStored(after, j, Metas(items)) && i < |items|
    ensures items[i].name in Metas(items) && StoredAs(after, j, items[i])
  {
    hide Metas, ValidItem;
    MetaOf(items, i);
  }

  lemma CommitIsStep(s: State, o: Owner, items: seq<Item>, after: RunRow)
    requires Owns(s, o) && s.runs[o.run].status.RunRunning? && Commits(s.runs[o.run], o.job, items, after)
    ensures after == s.runs[o.run] ||
      (Enabled(s, Protocol.CommitArtifacts(o, Metas(items))) && Apply(s, Protocol.CommitArtifacts(o, Metas(items))) == WithRun(s, o.run, after))
  {
    hide WellFormedItems, Metas, Roots, Inserted, Declares, SameAsStored;
  }

  lemma InsertedRows(run: RunRow, j: string, items: map<string, Meta>, n: string)
    requires n in items
    ensures (j, n) in Inserted(run, j, items).artifacts && Inserted(run, j, items).artifacts[(j, n)].meta == items[n]
  {
    assert (j, n) in (set m | m in items :: (j, m));
  }

  method CommitInto(run: RunRow, j: string, items: seq<Item>) returns (ok: bool, after: RunRow)
    requires j in run.decl
    ensures ok <==> Committable(run, j, items)
    ensures ok ==> Commits(run, j, items, after)
  {
    hide Metas, Roots, Inserted, Declares, AllStorable;
    after := run;
    var expected := Roots(run.decl[j].uploads);
    if |items| != |expected| {
      return false, run;
    }
    ok := CheckItems(items, j, expected);
    if !ok {
      return;
    }
    FullSet(items, j, run.decl[j]);
    NoneStored(run, j);
    if StoredNames(run, j) != {} {
      ok := SameArtifactSet(run, j, items);
      StoredMatch(run, j, items);
      return;
    }
    ok := TryInsert(items);
    if !ok {
      return;
    }
    InsertedIsStored(run, j, Metas(items));
    after := Inserted(run, j, Metas(items));
  }

  lemma NoneStored(run: RunRow, j: string)
    ensures StoredNames(run, j) == {} <==> Uncommitted(run, j)
  {
    forall n ensures n in StoredNames(run, j) <==> (j, n) in run.artifacts {
      StoredName(run, j, n);
    }
  }

  /** Every stored row is among the items, with the same metadata. */
  ghost predicate StoredAmong(run: RunRow, j: string, items: map<string, Meta>) {
    forall n :: (j, n) in run.artifacts ==> n in items && items[n] == run.artifacts[(j, n)].meta
  }

  lemma SameHaveSize(run: RunRow, j: string, items: seq<Item>)
    requires (forall i, k :: 0 <= i < k < |items| ==> items[i].name != items[k].name) && SameAsStored(run, j, Metas(items))
    ensures |StoredNames(run, j)| == |items|
  {
    hide Metas;
    MetasSize(items);
    forall n ensures n in StoredNames(run, j) <==> n in Metas(items) {
      StoredName(run, j, n);
    }
    hide StoredNames;
    assert StoredNames(run, j) == Metas(items).Keys;
  }

  /** The comparison by count and by stored name decides equality of the two sets. */
  lemma StoredMatch(run: RunRow, j: string, items: seq<Item>)
    requires forall i, k :: 0 <= i < k < |items| ==> items[i].name != items[k].name
    ensures SameAsStored(run, j, Metas(items)) <==> |StoredNames(run, j)| == |items| && StoredAmong(run, j, Metas(items))
  {
    hide Metas, StoredNames;
    if |StoredNames(run, j)| == |items| && StoredAmong(run, j, Metas(items)) {
      SameNames(run, j, items);
    }
    if SameAsStored(run, j, Metas(items)) {
      SameHaveSize(run, j, items);
    }
  }

  lemma InsertedIsStored(run: RunRow, j: string, items: map<string, Meta>)
    requires Uncommitted(run, j)
    ensures SameAsStored(Inserted(run, j, items), j, items)
  {
    forall n | n in items ensures (j, n) in Inserted(run, j, items).artifacts && Inserted(run, j, items).artifacts[(j, n)].meta == items[n] {
      InsertedRows(run, j, items, n);
    }
  }

  lemma SameNames(run: RunRow, j: string, items: seq<Item>)
    requires forall i, k :: 0 <= i < k < |items| ==> items[i].name != items[k].name
    requires |StoredNames(run, j)| == |items|
    requires forall n :: (j, n) in run.artifacts ==> n in Metas(items)
    ensures forall n :: n in Metas(items) ==> (j, n) in run.artifacts
  {
    MetasSize(items);
    forall n ensures n in StoredNames(run, j) <==> (j, n) in run.artifacts {
      StoredName(run, j, n);
    }
    assert StoredNames(run, j) <= Metas(items).Keys;
    SubsetSize(StoredNames(run, j), Metas(items).Keys);
    assert |Metas(items).Keys| == |items|;
  }
}
