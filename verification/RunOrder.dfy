/** The one direction a run's rows move in, whatever transaction is applied. */
module RunOrder {
  import opened Dag
  import opened Tables
  import opened Blocking
  import opened Runs
  import opened RunInvariant

  /** Finished rows are frozen; a running job keeps its lease until it finishes; nothing returns to pending. */
  ghost predicate JobLater(a: JobRow, b: JobRow) {
    && a.image == b.image && a.generation <= b.generation
    && (!Unfinished(a.status) ==> b == a)
    && (a.status.JobRunning? ==>
          && !b.status.JobPending? && !b.status.JobBlocked? && b.generation == a.generation
          && (b.status.JobRunning? ==> SameLease(a, b)))
  }

  ghost predicate SameLease(a: JobRow, b: JobRow) {
    && a.lease.Some? && b.lease.Some?
    && a.lease.value.runner == b.lease.value.runner && a.lease.value.id == b.lease.value.id
    && a.lease.value.expires <= b.lease.value.expires
  }

  ghost predicate JobsLater(a: Jobs, b: Jobs) {
    a.Keys == b.Keys && forall j :: j in a ==> JobLater(a[j], b[j])
  }

  /** Artifact rows are never replaced, and only an unfinished producer gains any. */
  ghost predicate ArtifactsLater(a: RunRow, b: RunRow) {
    && (forall k :: k in a.artifacts ==> k in b.artifacts && b.artifacts[k].meta == a.artifacts[k].meta)
    && (forall k :: k in b.artifacts && k !in a.artifacts ==> k.0 in a.jobs && Unfinished(a.jobs[k.0].status))
  }

  ghost predicate RunLater(a: RunRow, b: RunRow) {
    && a.decl == b.decl && a.maxParallel == b.maxParallel && a.createdAt == b.createdAt
    && JobsLater(a.jobs, b.jobs)
    && (a.cancelRequested ==> b.cancelRequested) && (a.superseded ==> b.superseded)
    && (Terminal(a.status) ==>
          b.status == a.status && b.cancelRequested == a.cancelRequested && b.superseded == a.superseded)
    && ArtifactsLater(a, b)
  }

  lemma RunLaterReflexive(a: RunRow)
    requires LeaseColumns(a.jobs)
    ensures RunLater(a, a)
  {
  }

  lemma RunLaterTransitive(a: RunRow, b: RunRow, c: RunRow)
    requires RunLater(a, b) && RunLater(b, c)
    ensures RunLater(a, c)
  {
  }

  lemma BlockingIsLater(run: RunRow, before: Jobs)
    requires LeaseColumns(run.jobs) && LeaseColumns(before) && JobsLater(run.jobs, before)
    ensures JobsLater(run.jobs, BlockAll(run.decl, before))
  {
    var after := BlockAll(run.decl, before);
    BlockAllSettles(run.decl, before);
    forall j | j in run.jobs ensures JobLater(run.jobs[j], after[j]) {
      assert JobLater(run.jobs[j], before[j]);
    }
  }

  lemma LeavingIsLater(before: Jobs, after: Jobs, js: set<string>)
    requires LeaseColumns(before) && Leaves(before, after, js)
    ensures JobsLater(before, after)
  {
  }

  lemma FinalizeIsLater(run: RunRow, before: RunRow, expiry: Time)
    requires before.status.RunRunning? && run.artifacts == before.artifacts && !Terminal(before.status)
    requires run == before.(jobs := run.jobs, cancelRequested := run.cancelRequested)
    requires JobsLater(before.jobs, run.jobs) && (before.cancelRequested ==> run.cancelRequested)
    ensures RunLater(before, Finalize(run, expiry))
  {
  }

  lemma LeaseIsLater(run: RunRow, j: string, docker: bool, h: Holding)
    requires RunOk(run) && Leasable(run, j, docker)
    ensures RunLater(run, Leased(run, j, h))
  {
    hide Shape, NeedsPassed, BlockedHasCause, Settled, ArtifactsOk;
  }

  lemma RenewIsLater(run: RunRow, j: string, expires: Time)
    requires RunOk(run) && j in run.jobs && run.jobs[j].lease.Some? && run.jobs[j].lease.value.expires <= expires
    ensures RunLater(run, Renewed(run, j, expires))
  {
    hide Shape, NeedsPassed, BlockedHasCause, Settled, ArtifactsOk;
  }

  lemma CompleteIsLater(run: RunRow, j: string, s: JobStatus, expiry: Time)
    requires RunOk(run) && j in run.jobs && run.jobs[j].status.JobRunning? && Reportable(s)
    ensures RunLater(run, Completed(run, j, s, expiry))
  {
    hide StatusOk, ArtifactsOk, Settled, NeedsPassed, BlockedHasCause, CanceledByRequest, Shape, RunLater, BlockAll, Finalize, JobsLater;
    RunningRun(run, j);
    var left := run.(jobs := run.jobs[j := run.jobs[j].(status := s, lease := None)]);
    if s.JobPassed? {
      LeavingIsLater(run.jobs, left.jobs, {j});
      FinalizeIsLater(left, run, expiry);
    } else {
      DepartureIsLater(run, left.jobs, {j}, expiry);
    }
  }

  /** Rows that left and then had their dependents blocked are later than before. */
  lemma DepartureIsLater(run: RunRow, left: Jobs, js: set<string>, expiry: Time)
    requires RunOk(run) && run.status.RunRunning? && Leaves(run.jobs, left, js)
    ensures RunLater(run, Finalize(run.(jobs := BlockAll(run.decl, left)), expiry))
  {
    LeavingIsLater(run.jobs, left, js);
    LeavingKeepsJobs(run, left, js);
    BlockingIsLater(run, left);
    FinalizeIsLater(run.(jobs := BlockAll(run.decl, left)), run, expiry);
  }

  lemma AbortIsLater(run: RunRow, js: set<string>, expiry: Time)
    requires RunOk(run) && js <= RunningIn(run.jobs)
    ensures RunLater(run, Aborted(run, js, expiry))
  {
    if j :| j in js {
      RunningRun(run, j);
      AbortLeaves(run.jobs, js);
      DepartureIsLater(run, AbortIn(run.jobs, js), js, expiry);
    } else {
      RunLaterReflexive(run);
    }
  }

  lemma CancelAskedIsLater(run: RunRow, expiry: Time)
    requires RunOk(run) && run.status.RunRunning?
    ensures RunLater(run, CancelAsked(run, expiry))
  {
    hide Shape, NeedsPassed, BlockedHasCause, Settled, ArtifactsOk;
    FinalizeIsLater(run.(cancelRequested := true, jobs := CancelPending(run.jobs)), run, expiry);
  }

  lemma CancelQueuedIsLater(run: RunRow)
    requires RunOk(run) && run.status.RunQueued?
    ensures RunLater(run, QueuedCanceled(run))
  {
    hide Shape, NeedsPassed, BlockedHasCause, Settled, ArtifactsOk;
  }

  lemma SupersedeIsLater(run: RunRow)
    requires RunOk(run) && !Terminal(run.status)
    ensures RunLater(run, SupersededBy(run))
  {
    hide Shape, NeedsPassed, BlockedHasCause, Settled, ArtifactsOk;
  }

  lemma InsertIsLater(run: RunRow, j: string, items: map<string, Meta>)
    requires RunOk(run) && j in run.jobs && run.jobs[j].status.JobRunning?
    requires forall n :: n in items ==> (j, n) !in run.artifacts
    ensures RunLater(run, Inserted(run, j, items))
  {
    hide Shape, NeedsPassed, BlockedHasCause, Settled, ArtifactsOk;
    var after := Inserted(run, j, items);
    assert forall k :: k in after.artifacts <==> k in run.artifacts || (k.0 == j && k.1 in items);
  }

  lemma SweepIsLater(run: RunRow, now: Time)
    requires RunOk(run)
    ensures RunLater(run, Swept(run, now))
  {
    hide Shape, NeedsPassed, BlockedHasCause, Settled, ArtifactsOk;
  }

  // ----- Progress measure -----

  /** 2 for each pending job and 1 for each running one. */
  function Weight(jobs: Jobs): nat {
    2 * |PendingIn(jobs)| + |RunningIn(jobs)|
  }

  ghost predicate SomeStatusDiffers(a: Jobs, b: Jobs) {
    exists j :: j in a && j in b && a[j].status != b[j].status
  }

  /** Any job transition, in either scheduler direction, strictly lowers the measure. */
  lemma WeightFalls(a: Jobs, b: Jobs)
    requires JobsLater(a, b)
    ensures Weight(b) <= Weight(a)
    ensures SomeStatusDiffers(a, b) ==> Weight(b) < Weight(a)
  {
    var p, p' := PendingIn(a), PendingIn(b);
    var r, r' := RunningIn(a), RunningIn(b);
    var started := p - p';
    assert p' <= p && r' <= r + started;
    assert p == p' + started;
    SubsetSize(r', r + started);
    assert |r + started| == |r| + |started| by { assert r !! started; }
    if SomeStatusDiffers(a, b) {
      var j :| j in a && j in b && a[j].status != b[j].status;
      if a[j].status.JobPending? {
        assert j in started;
      } else {
        assert j in r && j !in r';
        assert j in r + started;
      }
    }
  }

  /** No status goes backwards, so a job that left pending never returns and a verdict is final. */
  lemma LaterIsFinal(a: RunRow, b: RunRow)
    requires RunOk(a) && RunLater(a, b) && AllFinished(a.jobs)
    ensures b.jobs == a.jobs && b.status == a.status && Terminal(a.status)
  {
    VerdictIsTerminal(a.cancelRequested, a.jobs);
    assert forall j :: j in a.jobs ==> b.jobs[j] == a.jobs[j];
  }
}
