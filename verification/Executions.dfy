/** Safety of whole protocol executions: at-most-once leasing, fencing, dependency order, verdicts. */
module Executions {
  import opened Dag
  import opened Tables
  import opened Blocking
  import opened Runs
  import opened RunInvariant
  import opened RunOrder
  import opened Protocol

  /** A finite execution: the states visited and the transactions between them. */
  datatype Execution = Execution(states: seq<State>, events: seq<Event>)

  ghost predicate Valid(x: Execution) {
    && |x.states| == |x.events| + 1
    && x.states[0] == Initial(x.states[0].retention)
    && (forall i :: 0 <= i < |x.events| ==> Step(x, i))
  }

  ghost predicate Step(x: Execution, i: nat)
    requires i < |x.events| && |x.states| == |x.events| + 1
  {
    Enabled(x.states[i], x.events[i]) && x.states[i + 1] == Apply(x.states[i], x.events[i])
  }

  lemma {:induction false} ReachableInv(x: Execution, i: nat)
    requires Valid(x) && i < |x.states|
    ensures Inv(x.states[i])
  {
    if i > 0 {
      hide RunOk, LeasesIssued, StateLater, Enabled, Apply;
      ReachableInv(x, i - 1);
      assert Step(x, i - 1);
      StepKeeps(x.states[i - 1], x.events[i - 1]);
    }
  }

  lemma StateLaterReflexive(s: State)
    requires Inv(s)
    ensures StateLater(s, s)
  {
    hide RunLater;
    forall r | r in s.runs ensures RunLater(s.runs[r], s.runs[r]) {
      RunLaterReflexive(s.runs[r]);
    }
  }

  lemma StateLaterTransitive(a: State, b: State, c: State)
    requires StateLater(a, b) && StateLater(b, c)
    ensures StateLater(a, c)
  {
    hide RunLater;
    forall r | r in a.runs ensures r in c.runs && RunLater(a.runs[r], c.runs[r]) {
      RunLaterTransitive(a.runs[r], b.runs[r], c.runs[r]);
    }
  }

  /** Along any execution, every run only moves forward. */
  lemma {:induction false} ReachableLater(x: Execution, i: nat, k: nat)
    requires Valid(x) && i <= k < |x.states|
    ensures StateLater(x.states[i], x.states[k])
    decreases k
  {
    ReachableInv(x, i);
    if i == k {
      StateLaterReflexive(x.states[i]);
    } else {
      hide RunOk, LeasesIssued, StateLater, Enabled, Apply;
      ReachableLater(x, i, k - 1);
      ReachableInv(x, k - 1);
      assert Step(x, k - 1);
      StepKeeps(x.states[k - 1], x.events[k - 1]);
      StateLaterTransitive(x.states[i], x.states[k - 1], x.states[k]);
    }
  }

  ghost predicate JobAt(s: State, r: nat, j: string) {
    r in s.runs && j in s.runs[r].jobs
  }

  ghost function Row(s: State, r: nat, j: string): JobRow
    requires JobAt(s, r, j)
  {
    s.runs[r].jobs[j]
  }

  lemma RowLater(x: Execution, i: nat, k: nat, r: nat, j: string)
    requires Valid(x) && i <= k < |x.states| && JobAt(x.states[i], r, j)
    ensures JobAt(x.states[k], r, j) && JobLater(Row(x.states[i], r, j), Row(x.states[k], r, j))
    ensures RunLater(x.states[i].runs[r], x.states[k].runs[r])
  {
    hide Valid, JobLater;
    ReachableLater(x, i, k);
  }

  // ----- Where a run came from -----

  lemma OnlySubmitCreates(s: State, e: Event, r: nat)
    requires Enabled(s, e) && r !in s.runs && r in Apply(s, e).runs
    ensures e.Submit? && e.run == r && Apply(s, e).runs[r] == NewRun(e.decl, e.maxParallel, s.now)
  {
  }

  /** A run's rows are those of the submission that created it: its pipeline, its limit, its time, and a row per declared job that
      says whether the job needs a container. */
  ghost predicate MadeFrom(run: RunRow, decl: Pipeline, maxParallel: nat, at: Time) {
    && run.decl == decl && run.maxParallel == maxParallel && run.createdAt == at && run.jobs.Keys == decl.Keys
    && (forall j :: j in decl ==> (run.jobs[j].image <==> decl[j].image))
  }

  lemma MadeFromLater(a: RunRow, b: RunRow, decl: Pipeline, maxParallel: nat, at: Time)
    requires MadeFrom(a, decl, maxParallel, at) && RunLater(a, b)
    ensures MadeFrom(b, decl, maxParallel, at)
  {
    hide ArtifactsLater;
    forall j | j in decl ensures b.jobs[j].image <==> decl[j].image {
      assert JobLater(a.jobs[j], b.jobs[j]);
    }
  }

  lemma {:induction false} RunOrigin(x: Execution, k: nat, r: nat) returns (i: nat)
    requires Valid(x) && k < |x.states| && r in x.states[k].runs
    ensures i < k && x.events[i].Submit? && x.events[i].run == r && r !in x.states[i].runs
    ensures MadeFrom(x.states[k].runs[r], x.events[i].decl, x.events[i].maxParallel, x.states[i].now)
    decreases k
  {
    assert k > 0 by { assert x.states[0].runs == map[]; }
    assert Step(x, k - 1);
    if r in x.states[k - 1].runs {
      hide Enabled, Apply, MadeFrom, RunLater;
      i := RunOrigin(x, k - 1, r);
      ReachableLater(x, k - 1, k);
      MadeFromLater(x.states[k - 1].runs[r], x.states[k].runs[r], x.events[i].decl, x.events[i].maxParallel, x.states[i].now);
    } else {
      i := k - 1;
      OnlySubmitCreates(x.states[i], x.events[i], r);
    }
  }

  // ----- At most once -----

  /** What a lease transaction leaves in the job's row. */
  lemma LeaseEffect(x: Execution, i: nat)
    requires Valid(x) && i < |x.events| && x.events[i].Lease?
    ensures
      var e := x.events[i];
      && JobAt(x.states[i], e.run, e.job) && Row(x.states[i], e.run, e.job).status.JobPending?
      && JobAt(x.states[i + 1], e.run, e.job) && Row(x.states[i + 1], e.run, e.job).status.JobRunning?
      && Row(x.states[i + 1], e.run, e.job).generation > 0
      && Row(x.states[i + 1], e.run, e.job).lease == Some(NewLease(x.states[i], e.runner))
  {
    assert Step(x, i);
  }

  /** No job is leased twice. */
  lemma LeasedAtMostOnce(x: Execution, i: nat, k: nat)
    requires Valid(x) && i < k < |x.events| && x.events[i].Lease? && x.events[k].Lease?
    ensures (x.events[i].run, x.events[i].job) != (x.events[k].run, x.events[k].job)
  {
    hide RunLater, Step;
    LeaseEffect(x, i);
    LeaseEffect(x, k);
    RowLater(x, i + 1, k, x.events[i].run, x.events[i].job);
  }

  lemma CompleteEffect(x: Execution, i: nat)
    requires Valid(x) && i < |x.events| && x.events[i].Complete?
    ensures
      var o := x.events[i].owner;
      && JobAt(x.states[i], o.run, o.job) && Row(x.states[i], o.run, o.job).status.JobRunning?
      && JobAt(x.states[i + 1], o.run, o.job) && Row(x.states[i + 1], o.run, o.job).status == x.events[i].status
      && Row(x.states[i], o.run, o.job).generation == o.generation
      && Row(x.states[i], o.run, o.job).lease.Some?
      && Row(x.states[i], o.run, o.job).lease.value.runner == o.runner
      && Row(x.states[i], o.run, o.job).lease.value.id == o.lease
      && Row(x.states[i], o.run, o.job).lease.value.expires > x.states[i].now
  {
    assert Step(x, i);
    var o, st := x.events[i].owner, x.events[i].status;
    var run := x.states[i].runs[o.run];
    BlockAllSettles(run.decl, run.jobs[o.job := run.jobs[o.job].(status := st, lease := None)]);
  }

  /** No job is completed twice. */
  lemma CompletedAtMostOnce(x: Execution, i: nat, k: nat)
    requires Valid(x) && i < k < |x.events| && x.events[i].Complete? && x.events[k].Complete?
    ensures (x.events[i].owner.run, x.events[i].owner.job) != (x.events[k].owner.run, x.events[k].owner.job)
  {
    CompleteEffect(x, i);
    CompleteEffect(x, k);
    assert Step(x, i);
    hide Valid, RunLater, Enabled, Apply;
    assert Reportable(x.events[i].status);
    RowLater(x, i + 1, k, x.events[i].owner.run, x.events[i].owner.job);
  }

  // ----- Where a status came from -----

  ghost predicate SameOrBlocked(a: JobRow, b: JobRow) {
    b == a || (a.status.JobPending? && b == a.(status := JobBlocked))
  }

  /** Completing one job changes other rows at most from pending to blocked. */
  lemma CompletedRows(run: RunRow, j: string, s: JobStatus, expiry: Time, i: string)
    requires j in run.jobs && i in run.jobs && Reportable(s)
    ensures i in Completed(run, j, s, expiry).jobs
    ensures i == j ==> Completed(run, j, s, expiry).jobs[i] == run.jobs[j].(status := s, lease := None)
    ensures i != j ==> SameOrBlocked(run.jobs[i], Completed(run, j, s, expiry).jobs[i])
  {
    var left := run.jobs[j := run.jobs[j].(status := s, lease := None)];
    assert OnlyBlocks(left, BlockAll(run.decl, left)) by { BlockAllSettles(run.decl, left); }
    hide BlockAll;
    assert i in left;
  }

  lemma AbortedRows(run: RunRow, js: set<string>, expiry: Time, i: string)
    requires i in run.jobs
    ensures i in Aborted(run, js, expiry).jobs
    ensures i in js ==> Aborted(run, js, expiry).jobs[i] == run.jobs[i].(status := JobAborted, lease := None)
    ensures i !in js ==> SameOrBlocked(run.jobs[i], Aborted(run, js, expiry).jobs[i])
  {
    var left := AbortIn(run.jobs, js);
    assert OnlyBlocks(left, BlockAll(run.decl, left)) by { BlockAllSettles(run.decl, left); }
    hide BlockAll;
    assert i in left;
  }

  /** The sweep aborts exactly the running jobs whose lease has run out; a live one keeps its row. */
  lemma SweepIsExact(s: State, r: nat, j: string)
    requires JobAt(s, r, j) && Row(s, r, j).status.JobRunning? && Row(s, r, j).lease.Some?
    ensures JobAt(Apply(s, Expire), r, j)
    ensures Row(Apply(s, Expire), r, j).status.JobAborted? <==> Row(s, r, j).lease.value.expires <= s.now
    ensures Row(s, r, j).lease.value.expires > s.now ==> Row(Apply(s, Expire), r, j) == Row(s, r, j)
  {
    AbortedRows(s.runs[r], ExpiredIn(s.runs[r].jobs, s.now), Expiry(s), j);
    hide Aborted;
  }

  // ----- What a transaction does to a job row -----

  ghost predicate LeasesJob(e: Event, r: nat, j: string) {
    e.Lease? && e.run == r && e.job == j
  }

  ghost predicate RenewsJob(e: Event, r: nat, j: string) {
    e.Renew? && e.owner.run == r && e.owner.job == j
  }

  ghost predicate ReportsJob(e: Event, r: nat, j: string) {
    e.Complete? && e.owner.run == r && e.owner.job == j
  }

  ghost predicate CancelsRun(e: Event, r: nat) {
    (e.CancelQueued? || e.RequestCancel?) && e.run == r
  }

  /** The job's lease is taken away: the control plane restarts, or sweeps after the lease has run out. */
  ghost predicate LosesJob(s: State, e: Event, row: JobRow) {
    row.status.JobRunning? && (e.Recover? || (e.Expire? && row.lease.Some? && row.lease.value.expires <= s.now))
  }

  /** What a transaction does to one job's row. */
  ghost predicate RowMoves(s: State, e: Event, r: nat, j: string, a: JobRow, b: JobRow) {
    if LeasesJob(e, r, j) then b == a.(status := JobRunning, generation := a.generation + 1, lease := Some(Holding(e.runner, s.nextLease, s.now + JOB_LEASE_TTL)))
    else if RenewsJob(e, r, j) then a.lease.Some? && b == a.(lease := Some(a.lease.value.(expires := s.now + JOB_LEASE_TTL)))
    else if ReportsJob(e, r, j) then b == a.(status := e.status, lease := None)
    else if LosesJob(s, e, a) then b == a.(status := JobAborted, lease := None)
    else if CancelsRun(e, r) && a.status.JobPending? then b == a.(status := JobCanceled)
    else SameOrBlocked(a, b)
  }

  lemma AbortMoves(s: State, e: Event, r: nat, j: string)
    requires Enabled(s, e) && JobAt(s, r, j) && (e.Expire? || e.Recover?)
    requires Row(s, r, j).status.JobRunning? ==> Row(s, r, j).lease.Some?
    ensures JobAt(Apply(s, e), r, j) && RowMoves(s, e, r, j, Row(s, r, j), Row(Apply(s, e), r, j))
  {
    hide Aborted;
    if e.Expire? {
      AbortedRows(s.runs[r], ExpiredIn(s.runs[r].jobs, s.now), Expiry(s), j);
    } else {
      AbortedRows(s.runs[r], RunningIn(s.runs[r].jobs), Expiry(s), j);
    }
  }

  lemma CompleteMoves(s: State, e: Event, r: nat, j: string)
    requires Enabled(s, e) && JobAt(s, r, j) && e.Complete?
    ensures JobAt(Apply(s, e), r, j) && RowMoves(s, e, r, j, Row(s, r, j), Row(Apply(s, e), r, j))
  {
    hide Completed, ArtifactsCommitted;
    if e.owner.run == r {
      CompletedRows(s.runs[r], e.owner.job, e.status, Expiry(s), j);
    }
  }

  lemma LeaseMoves(s: State, e: Event, r: nat, j: string)
    requires Enabled(s, e) && JobAt(s, r, j) && (e.Lease? || e.Renew?)
    ensures JobAt(Apply(s, e), r, j) && RowMoves(s, e, r, j, Row(s, r, j), Row(Apply(s, e), r, j))
  {
    hide Free, RunningIn;
  }

  lemma CancelMoves(s: State, e: Event, r: nat, j: string)
    requires Enabled(s, e) && JobAt(s, r, j) && (e.CancelQueued? || e.RequestCancel?)
    ensures JobAt(Apply(s, e), r, j) && RowMoves(s, e, r, j, Row(s, r, j), Row(Apply(s, e), r, j))
  {
    hide Verdict, Dated;
  }

  ghost predicate TouchesNoJob(e: Event) {
    e.Tick? || e.Register? || e.Submit? || e.Seen? || e.Supersede? || e.CommitArtifacts? || e.ExpireArtifacts?
  }

  lemma OtherMoves(s: State, e: Event, r: nat, j: string)
    requires Enabled(s, e) && JobAt(s, r, j) && TouchesNoJob(e)
    ensures JobAt(Apply(s, e), r, j) && Row(Apply(s, e), r, j) == Row(s, r, j)
  {
    hide ValidPipeline;
  }

  lemma RunningHolds(s: State, r: nat, j: string)
    requires Inv(s) && JobAt(s, r, j)
    ensures Row(s, r, j).status.JobRunning? <==> Row(s, r, j).lease.Some?
  {
    hide LeasesIssued, StatusOk, ArtifactsOk, Settled, NeedsPassed, BlockedHasCause, Shape;
  }

  lemma SameRowMoves(s: State, e: Event, r: nat, j: string, row: JobRow)
    requires TouchesNoJob(e)
    ensures RowMoves(s, e, r, j, row, row)
  {
  }

  lemma RowStep(s: State, e: Event, r: nat, j: string)
    requires Inv(s) && Enabled(s, e) && JobAt(s, r, j)
    ensures JobAt(Apply(s, e), r, j) && RowMoves(s, e, r, j, Row(s, r, j), Row(Apply(s, e), r, j))
  {
    RunningHolds(s, r, j);
    hide Inv, Enabled, Apply, RowMoves;
    if e.Complete? {
      CompleteMoves(s, e, r, j);
    } else if e.Expire? || e.Recover? {
      AbortMoves(s, e, r, j);
    } else if e.Lease? || e.Renew? {
      LeaseMoves(s, e, r, j);
    } else if e.CancelQueued? || e.RequestCancel? {
      CancelMoves(s, e, r, j);
    } else {
      OtherMoves(s, e, r, j);
      SameRowMoves(s, e, r, j, Row(s, r, j));
    }
  }

  /** What an enabled transaction on a job says about the job's row. */
  lemma EnabledOnRow(s: State, e: Event, r: nat, j: string)
    requires Enabled(s, e)
    ensures LeasesJob(e, r, j) ==> JobAt(s, r, j) && Row(s, r, j).status.JobPending?
    ensures RenewsJob(e, r, j) ==> JobAt(s, r, j) && Row(s, r, j).status.JobRunning?
    ensures ReportsJob(e, r, j) ==> JobAt(s, r, j) && Row(s, r, j).status.JobRunning? && Reportable(e.status)
    ensures CancelsRun(e, r) ==> r in s.runs
  {
    hide ArtifactsCommitted, Free;
  }

  lemma JobsKept(a: RunRow, b: RunRow)
    requires RunLater(a, b)
    ensures a.jobs.Keys == b.jobs.Keys
  {
  }

  /** A row that was not there before is pending. */
  lemma NewRowPending(s: State, e: Event, r: nat, j: string)
    requires Inv(s) && Enabled(s, e) && !JobAt(s, r, j) && JobAt(Apply(s, e), r, j)
    ensures Row(Apply(s, e), r, j).status.JobPending?
  {
    hide Enabled, Apply, RunOk, LeasesIssued, RunLater;
    if r in s.runs {
      StepKeeps(s, e);
      JobsKept(s.runs[r], Apply(s, e).runs[r]);
    } else {
      OnlySubmitCreates(s, e, r);
    }
  }

  /** Only a lease transaction on this very job starts it. */
  lemma OnlyLeaseStarts(s: State, e: Event, r: nat, j: string)
    requires Inv(s) && Enabled(s, e) && JobAt(Apply(s, e), r, j) && Row(Apply(s, e), r, j).status.JobRunning?
    ensures (e.Lease? && e.run == r && e.job == j) || (JobAt(s, r, j) && Row(s, r, j).status.JobRunning?)
  {
    hide Inv, Enabled, Apply;
    if JobAt(s, r, j) {
      EnabledOnRow(s, e, r, j);
      RowStep(s, e, r, j);
    } else {
      NewRowPending(s, e, r, j);
    }
  }

  /** A never-leased job has generation zero while it is pending. */
  lemma PendingUnleased(s: State, r: nat, j: string)
    requires Inv(s) && JobAt(s, r, j) && Row(s, r, j).status.JobPending?
    ensures Row(s, r, j).generation == 0
  {
    hide LeasesIssued, StatusOk, ArtifactsOk, Settled, NeedsPassed, BlockedHasCause, Shape;
  }

  /** Only a leaseholder's report cancels a job that was leased. */
  lemma OnlyReportCancels(s: State, e: Event, r: nat, j: string)
    requires Inv(s) && Enabled(s, e) && JobAt(Apply(s, e), r, j)
    requires Row(Apply(s, e), r, j).status.JobCanceled? && Row(Apply(s, e), r, j).generation > 0
    ensures
      || (e.Complete? && e.owner.run == r && e.owner.job == j && e.status.JobCanceled?)
      || (JobAt(s, r, j) && Row(s, r, j) == Row(Apply(s, e), r, j))
  {
    hide Inv, Enabled, Apply;
    if JobAt(s, r, j) {
      EnabledOnRow(s, e, r, j);
      RowStep(s, e, r, j);
      if Row(s, r, j).status.JobPending? { PendingUnleased(s, r, j); }
    } else {
      NewRowPending(s, e, r, j);
    }
  }

  lemma RunningGeneration(x: Execution, k: nat, r: nat, j: string)
    requires Valid(x) && k < |x.states| && JobAt(x.states[k], r, j) && Row(x.states[k], r, j).status.JobRunning?
    ensures Row(x.states[k], r, j).generation == 1
  {
    ReachableInv(x, k);
    hide Valid, LeasesIssued, StatusOk, ArtifactsOk, Settled, NeedsPassed, BlockedHasCause, Shape;
    assert RunOk(x.states[k].runs[r]);
  }

  /** A running job holds exactly the lease that one earlier lease transaction gave its runner. */
  lemma {:induction false} LeaseOrigin(x: Execution, k: nat, r: nat, j: string) returns (i: nat)
    requires Valid(x) && k < |x.states| && JobAt(x.states[k], r, j) && Row(x.states[k], r, j).status.JobRunning?
    ensures i < k && x.events[i].Lease? && x.events[i].run == r && x.events[i].job == j
    ensures Row(x.states[k], r, j).lease.Some?
    ensures Row(x.states[k], r, j).lease.value.runner == x.events[i].runner
    ensures Row(x.states[k], r, j).lease.value.id == x.states[i].nextLease
    ensures Row(x.states[k], r, j).generation == 1
    decreases k
  {
    hide Step, NewLease;
    RunningGeneration(x, k, r, j);
    RunningBefore(x, k, r, j);
    var e := x.events[k - 1];
    if e.Lease? && e.run == r && e.job == j {
      i := k - 1;
      LeaseEffect(x, i);
      NewLeaseIs(x.states[i], e.runner);
    } else {
      i := LeaseOrigin(x, k - 1, r, j);
      hide RunLater;
      RowLater(x, k - 1, k, r, j);
    }
  }

  lemma NewLeaseIs(s: State, runner: nat)
    ensures NewLease(s, runner).runner == runner && NewLease(s, runner).id == s.nextLease
  {
  }

  /** A running job was just leased, or ran before. */
  lemma RunningBefore(x: Execution, k: nat, r: nat, j: string)
    requires Valid(x) && k < |x.states| && JobAt(x.states[k], r, j) && Row(x.states[k], r, j).status.JobRunning?
    ensures k > 0
    ensures
      var e := x.events[k - 1];
      (e.Lease? && e.run == r && e.job == j) || (JobAt(x.states[k - 1], r, j) && Row(x.states[k - 1], r, j).status.JobRunning?)
  {
    hide Inv, Enabled, Apply;
    assert k > 0 by { assert x.states[0].runs == map[]; }
    assert Step(x, k - 1);
    ReachableInv(x, k - 1);
    OnlyLeaseStarts(x.states[k - 1], x.events[k - 1], r, j);
  }

  /** A leased job that ended canceled was reported so by its leaseholder. */
  lemma {:induction false} CancelOrigin(x: Execution, k: nat, r: nat, j: string) returns (i: nat)
    requires Valid(x) && k < |x.states| && JobAt(x.states[k], r, j)
    requires Row(x.states[k], r, j).status.JobCanceled? && Row(x.states[k], r, j).generation > 0
    ensures i < k && x.events[i].Complete? && x.events[i].status.JobCanceled?
    ensures x.events[i].owner.run == r && x.events[i].owner.job == j
    decreases k
  {
    assert k > 0 by { assert x.states[0].runs == map[]; }
    assert Step(x, k - 1);
    ReachableInv(x, k - 1);
    OnlyReportCancels(x.states[k - 1], x.events[k - 1], r, j);
    hide Inv, Enabled, Apply;
    var e := x.events[k - 1];
    if e.Complete? && e.owner.run == r && e.owner.job == j && e.status.JobCanceled? {
      i := k - 1;
    } else {
      i := CancelOrigin(x, k - 1, r, j);
    }
  }

  /** Fencing: a completion that succeeds comes from the runner, lease and generation that one earlier
      lease transaction granted, before that lease expired. */
  lemma CompletedByLeaseholder(x: Execution, k: nat) returns (i: nat)
    requires Valid(x) && k < |x.events| && x.events[k].Complete?
    ensures i < k && x.events[i] == Lease(x.events[k].owner.runner, x.events[k].owner.run, x.events[k].owner.job)
    ensures x.events[k].owner.lease == x.states[i].nextLease && x.events[k].owner.generation == 1
    ensures Owns(x.states[k], x.events[k].owner)
  {
    var o := x.events[k].owner;
    assert Step(x, k);
    CompleteEffect(x, k);
    i := LeaseOrigin(x, k, o.run, o.job);
    ReachableInv(x, k);
    hide LeasesIssued, StatusOk, ArtifactsOk, Settled, NeedsPassed, BlockedHasCause, Shape, Step;
    assert RunOk(x.states[k].runs[o.run]);
  }

  // ----- Dependency order -----

  lemma {:induction false} ChainPassed(run: RunRow, p: seq<string>)
    requires RunOk(run) && Chain(NeedsOf(run.decl), p) && |p| >= 2 && run.jobs[p[0]].generation > 0
    ensures p[|p| - 1] in run.jobs && run.jobs[p[|p| - 1]].status.JobPassed?
  {
    hide StatusOk, ArtifactsOk, Settled, BlockedHasCause;
    assert run.jobs[p[1]].status.JobPassed?;
    if |p| > 2 {
      assert Chain(NeedsOf(run.decl), p[1..]);
      ChainPassed(run, p[1..]);
    }
  }

  lemma TransitiveNeedsPassed(s: State, r: nat, j: string, d: string)
    requires Inv(s) && JobAt(s, r, j) && Row(s, r, j).generation > 0
    requires DependsOn(NeedsOf(s.runs[r].decl), j, d)
    ensures JobAt(s, r, d) && Row(s, r, d).status.JobPassed?
  {
    hide RunOk, LeasesIssued;
    var run := s.runs[r];
    var p :| Chain(NeedsOf(run.decl), p) && |p| >= 2 && p[0] == j && p[|p| - 1] == d;
    ChainPassed(run, p);
  }

  /** Once a job has been leased, everything it transitively depends on has passed, forever. */
  lemma LeasedAfterDependencies(x: Execution, i: nat, k: nat, d: string)
    requires Valid(x) && i < |x.events| && x.events[i].Lease? && i < k < |x.states| && x.events[i].run in x.states[k].runs
    requires DependsOn(NeedsOf(x.states[k].runs[x.events[i].run].decl), x.events[i].job, d)
    ensures JobAt(x.states[k], x.events[i].run, d) && Row(x.states[k], x.events[i].run, d).status.JobPassed?
  {
    hide Inv, Step, RunLater, DependsOn;
    LeaseEffect(x, i);
    RowLater(x, i + 1, k, x.events[i].run, x.events[i].job);
    ReachableInv(x, k);
    TransitiveNeedsPassed(x.states[k], x.events[i].run, x.events[i].job, d);
  }

  /** A leased job adds just itself to its runner's active jobs. */
  lemma LeaseAddsOne(s: State, runner: nat, r: nat, j: string)
    requires Admits(s, runner, r, j)
    ensures ActiveJobs(Apply(s, Lease(runner, r, j)).runs, runner) == ActiveJobs(s.runs, runner) + {(r, j)}
  {
    var t := Apply(s, Lease(runner, r, j));
    forall q: nat, i ensures (q, i) in ActiveJobs(t.runs, runner) <==> (q, i) in ActiveJobs(s.runs, runner) + {(r, j)} {
      assert q in t.runs <==> q in s.runs;
    }
  }

  /** A lease goes to a registered, online runner that can run the job as the run's submission declared it, and leaves the runner
      within its capacity. */
  lemma LeaseFitsRunner(x: Execution, i: nat) returns (h: nat)
    requires Valid(x) && i < |x.events| && x.events[i].Lease?
    ensures
      var s, t, e := x.states[i], x.states[i + 1], x.events[i];
      && e.runner in s.runners && s.runners[e.runner].online && s.runners[e.runner].protocol == 2
      && h < i && x.events[h].Submit? && x.events[h].run == e.run && e.job in x.events[h].decl
      && (x.events[h].decl[e.job].image ==> s.runners[e.runner].docker)
      && |ActiveJobs(t.runs, e.runner)| <= s.runners[e.runner].capacity
  {
    assert Step(x, i);
    var e := x.events[i];
    LeaseAddsOne(x.states[i], e.runner, e.run, e.job);
    hide Apply, ActiveJobs, Step;
    h := RunOrigin(x, i, e.run);
  }

  /** No run ever has more jobs running than its own limit. */
  lemma WithinRunLimit(x: Execution, i: nat, r: nat)
    requires Valid(x) && i < |x.states| && r in x.states[i].runs
    ensures |RunningIn(x.states[i].runs[r].jobs)| <= x.states[i].runs[r].maxParallel
  {
    ReachableInv(x, i);
    hide Valid, LeasesIssued, StatusOk, ArtifactsOk, Settled, Shape, LeaseColumns, NeedsPassed, BlockedHasCause, CanceledByRequest;
    assert RunOk(x.states[i].runs[r]);
  }

  /** Nothing is leased from a run that is terminal or whose cancellation was requested. */
  lemma NoLeaseAfterEnd(x: Execution, i: nat, k: nat, r: nat)
    requires Valid(x) && i <= k < |x.events| && r in x.states[i].runs
    requires Terminal(x.states[i].runs[r].status) || x.states[i].runs[r].cancelRequested
    ensures !(x.events[k].Lease? && x.events[k].run == r)
  {
    assert Step(x, k);
    ReachableLater(x, i, k);
  }

  // ----- Verdicts -----

  ghost predicate HasJob(run: RunRow, s: JobStatus) {
    exists j :: j in run.jobs && run.jobs[j].status == s
  }

  /** When a finished run has which status. */
  ghost predicate ByPrecedence(run: RunRow) {
    && (run.status.RunError? <==> HasJob(run, JobError))
    && (run.status.RunAborted? <==> !HasJob(run, JobError) && HasJob(run, JobAborted))
    && (run.status.RunCanceled? <==> !HasJob(run, JobError) && !HasJob(run, JobAborted) && run.cancelRequested)
    && (run.status.RunFailed? <==> !HasJob(run, JobError) && !HasJob(run, JobAborted) && !run.cancelRequested && (HasJob(run, JobFailed) || HasJob(run, JobBlocked)))
    && (run.status.RunPassed? <==> !run.cancelRequested && forall j :: j in run.jobs ==> run.jobs[j].status.JobPassed? || run.jobs[j].status.JobCanceled?)
  }

  lemma VerdictIsByPrecedence(run: RunRow)
    requires AllFinished(run.jobs) && run.status == Verdict(run.cancelRequested, run.jobs)
    ensures ByPrecedence(run)
  {
    if run.status.RunPassed? {
      forall j | j in run.jobs ensures run.jobs[j].status.JobPassed? || run.jobs[j].status.JobCanceled? {
        assert !Unfinished(run.jobs[j].status);
      }
    }
  }

  /** Run and jobs agree in every reachable state, and a finished run never changes again. */
  lemma VerdictAgrees(x: Execution, i: nat, k: nat, r: nat)
    requires Valid(x) && i <= k < |x.states| && r in x.states[i].runs && !x.states[i].runs[r].superseded
    ensures
      var run := x.states[i].runs[r];
      && (Terminal(run.status) <==> AllFinished(run.jobs))
      && (Terminal(run.status) ==> ByPrecedence(run))
      && (Terminal(run.status) ==>
            r in x.states[k].runs && x.states[k].runs[r].status == run.status && x.states[k].runs[r].jobs == run.jobs)
  {
    ReachableInv(x, i);
    ReachableLater(x, i, k);
    hide Valid, LeasesIssued, JobsOk, Settled, ArtifactsOk, Shape, ByPrecedence;
    var run := x.states[i].runs[r];
    VerdictIsTerminal(run.cancelRequested, run.jobs);
    if Terminal(run.status) {
      VerdictIsByPrecedence(run);
      hide RunOk, RunLater, StatusOk;
      LaterIsFinal(run, x.states[k].runs[r]);
    }
  }

  /** What a PASSED run says of its jobs: each passed, or was reported canceled by its leaseholder
      although nobody had asked for a cancellation. */
  lemma PassedVerdict(run: RunRow)
    requires RunOk(run) && Terminal(run.status) && AllFinished(run.jobs)
    ensures run.status.RunPassed? <==>
      !run.cancelRequested && forall j :: j in run.jobs ==>
        run.jobs[j].status.JobPassed? || (run.jobs[j].status.JobCanceled? && run.jobs[j].generation > 0)
  {
    hide Shape, NeedsPassed, BlockedHasCause, Settled, ArtifactsOk;
    if run.status.RunPassed? {
      forall j | j in run.jobs
        ensures run.jobs[j].status.JobPassed? || (run.jobs[j].status.JobCanceled? && run.jobs[j].generation > 0)
      {
      }
    }
  }

  ghost predicate ReportedCanceled(x: Execution, k: nat, r: nat)
    requires k <= |x.events|
  {
    exists i :: 0 <= i < k && x.events[i].Complete? && x.events[i].owner.run == r && x.events[i].status.JobCanceled?
  }

  lemma PassedRun(x: Execution, k: nat, r: nat)
    requires Valid(x) && k < |x.states| && r in x.states[k].runs && x.states[k].runs[r].status.RunPassed?
    ensures
      var run := x.states[k].runs[r];
      !run.cancelRequested && forall j :: j in run.jobs ==>
        run.jobs[j].status.JobPassed? || (run.jobs[j].status.JobCanceled? && run.jobs[j].generation > 0)
  {
    ReachableInv(x, k);
    hide Valid, LeasesIssued;
    var run := x.states[k].runs[r];
    assert RunOk(run);
    assert AllFinished(run.jobs) by { assert StatusOk(run); }
    PassedVerdict(run);
  }

  /** Exactly when PASSED means that every job passed: no leaseholder of the run reported CANCELED. */
  lemma AllPassedIffNoneReported(x: Execution, k: nat, r: nat)
    requires Valid(x) && k < |x.states| && r in x.states[k].runs && x.states[k].runs[r].status.RunPassed?
    ensures (forall j :: j in x.states[k].runs[r].jobs ==> x.states[k].runs[r].jobs[j].status.JobPassed?) <==> !ReportedCanceled(x, k, r)
  {
    hide Step, RunLater;
    PassedRun(x, k, r);
    var run := x.states[k].runs[r];
    if i :| 0 <= i < k && x.events[i].Complete? && x.events[i].owner.run == r && x.events[i].status.JobCanceled? {
      CompleteEffect(x, i);
      RowLater(x, i + 1, k, r, x.events[i].owner.job);
      assert run.jobs[x.events[i].owner.job].status.JobCanceled?;
    } else {
      forall j | j in run.jobs ensures run.jobs[j].status.JobPassed? {
        if !run.jobs[j].status.JobPassed? {
          assert JobAt(x.states[k], r, j);
          var i := CancelOrigin(x, k, r, j);
        }
      }
    }
  }

  /** Leaseholders report CANCELED only once a cancellation was requested. */
  ghost predicate CancelsOnRequest(x: Execution, r: nat)
    requires |x.states| == |x.events| + 1
  {
    forall i :: 0 <= i < |x.events| && x.events[i].Complete? && x.events[i].owner.run == r && r in x.states[i].runs ==>
      x.events[i].status.JobCanceled? ==> x.states[i].runs[r].cancelRequested
  }

  /** Under that discipline, PASSED means that every job passed. */
  lemma PassedMeansAllPassed(x: Execution, k: nat, r: nat)
    requires Valid(x) && k < |x.states| && r in x.states[k].runs && CancelsOnRequest(x, r)
    requires x.states[k].runs[r].status.RunPassed?
    ensures forall j :: j in x.states[k].runs[r].jobs ==> x.states[k].runs[r].jobs[j].status.JobPassed?
  {
    hide Step;
    PassedRun(x, k, r);
    AllPassedIffNoneReported(x, k, r);
    if i :| 0 <= i < k && x.events[i].Complete? && x.events[i].owner.run == r && x.events[i].status.JobCanceled? {
      CompleteEffect(x, i);
      RowLater(x, i, k, r, x.events[i].owner.job);
    }
  }
}
