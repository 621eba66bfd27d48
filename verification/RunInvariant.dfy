/** The invariant every transaction keeps on every run, and the direction rows move in. */
module RunInvariant {
  import opened Dag
  import opened Tables
  import opened Blocking
  import opened Runs

  ghost predicate Shape(run: RunRow) {
    ValidPipeline(run.decl) && run.jobs.Keys == run.decl.Keys && run.maxParallel > 0
  }

  /** Lease columns are set exactly while a job runs; the generation tells whether it was ever leased. */
  ghost predicate LeaseColumns(jobs: Jobs) {
    forall j :: j in jobs ==>
      && (jobs[j].status.JobRunning? <==> jobs[j].lease.Some?)
      && jobs[j].generation <= 1
      && (jobs[j].status.JobPending? || jobs[j].status.JobBlocked? ==> jobs[j].generation == 0)
      && (jobs[j].generation == 0 ==> jobs[j].status.JobPending? || jobs[j].status.JobBlocked? || jobs[j].status.JobCanceled?)
  }

  /** A job that was ever leased has all its needs passed. */
  ghost predicate NeedsPassed(decl: Pipeline, jobs: Jobs) {
    forall j, d :: j in jobs && j in decl && jobs[j].generation > 0 && d in decl[j].needs ==>
      d in jobs && jobs[d].status.JobPassed?
  }

  ghost predicate BlockedHasCause(decl: Pipeline, jobs: Jobs) {
    forall j :: j in jobs && jobs[j].status.JobBlocked? ==> UpstreamFailed(decl, jobs, j)
  }

  /** Only a cancellation request cancels a job that was never leased. */
  ghost predicate CanceledByRequest(cancel: bool, jobs: Jobs) {
    forall j :: j in jobs && jobs[j].status.JobCanceled? && jobs[j].generation == 0 ==> cancel
  }

  ghost predicate AllPending(jobs: Jobs) {
    forall j :: j in jobs ==> jobs[j].status.JobPending?
  }

  ghost predicate NoPending(jobs: Jobs) {
    forall j :: j in jobs ==> !jobs[j].status.JobPending?
  }

  /** The parts failure propagation and the final verdict do not have to restore. */
  ghost predicate JobsOk(run: RunRow) {
    && LeaseColumns(run.jobs)
    && NeedsPassed(run.decl, run.jobs)
    && BlockedHasCause(run.decl, run.jobs)
    && CanceledByRequest(run.cancelRequested, run.jobs)
    && (run.cancelRequested && !run.superseded ==> NoPending(run.jobs))
    && |RunningIn(run.jobs)| <= run.maxParallel
  }

  /** Run status and job statuses agree. A superseded run is the one exception: it may be
      canceled with its jobs still pending. */
  ghost predicate StatusOk(run: RunRow) {
    && (run.status.RunQueued? ==> AllPending(run.jobs) && !run.cancelRequested)
    && (AllFinished(run.jobs) ==> run.status == Verdict(run.cancelRequested, run.jobs))
    && (Terminal(run.status) && !AllFinished(run.jobs) ==>
          run.superseded && run.status.RunCanceled? && AllPending(run.jobs))
  }

  ghost predicate ArtifactsOwned(run: RunRow) {
    forall k :: k in run.artifacts ==>
      k.0 in run.jobs && k.0 in run.decl && run.jobs[k.0].generation > 0 && Declares(run.decl[k.0], k.1)
  }

  ghost predicate ArtifactsLive(run: RunRow) {
    !Terminal(run.status) ==> forall k :: k in run.artifacts ==> run.artifacts[k].expires.None? && !run.artifacts[k].deleted
  }

  ghost predicate ArtifactsPresent(run: RunRow) {
    forall j, n :: j in run.jobs && j in run.decl && run.jobs[j].status.JobPassed? && Declares(run.decl[j], n) ==>
      (j, n) in run.artifacts
  }

  ghost predicate ArtifactsOk(run: RunRow) {
    ArtifactsOwned(run) && ArtifactsLive(run) && ArtifactsPresent(run)
  }

  ghost predicate RunOk(run: RunRow) {
    Shape(run) && JobsOk(run) && Settled(run.decl, run.jobs) && StatusOk(run) && ArtifactsOk(run)
  }

  lemma RunningRun(run: RunRow, j: string)
    requires RunOk(run) && j in run.jobs && run.jobs[j].status.JobRunning?
    ensures run.status.RunRunning? && !AllFinished(run.jobs)
  {
  }

  lemma VerdictIsTerminal(cancel: bool, jobs: Jobs)
    ensures Terminal(Verdict(cancel, jobs))
  {
  }

  // ----- Failure propagation and the verdict -----

  lemma BlockedKeepCause(decl: Pipeline, before: Jobs, after: Jobs)
    requires OnlyBlocks(before, after) && BlockedByFailure(decl, before, after) && BlockedHasCause(decl, before)
    ensures BlockedHasCause(decl, after)
  {
    forall j | j in after && after[j].status.JobBlocked? ensures UpstreamFailed(decl, after, j) {
      if after[j] == before[j] {
        FailureLasts(decl, before, after, j);
      }
    }
  }

  lemma BlockingKeepsJobs(run: RunRow, after: Jobs)
    requires JobsOk(run) && OnlyBlocks(run.jobs, after) && BlockedByFailure(run.decl, run.jobs, after)
    ensures JobsOk(run.(jobs := after))
  {
    hide LeaseColumns, NeedsPassed, BlockedHasCause, CanceledByRequest, NoPending, UpstreamFailed;
    assert RunningIn(after) == RunningIn(run.jobs);
    BlockedKeepCause(run.decl, run.jobs, after);
    BlockingKeepsColumns(run, after);
  }

  lemma BlockingKeepsColumns(run: RunRow, after: Jobs)
    requires LeaseColumns(run.jobs) && NeedsPassed(run.decl, run.jobs) && CanceledByRequest(run.cancelRequested, run.jobs) && OnlyBlocks(run.jobs, after)
    ensures LeaseColumns(after) && NeedsPassed(run.decl, after) && CanceledByRequest(run.cancelRequested, after)
    ensures NoPending(run.jobs) ==> NoPending(after)
  {
  }

  lemma BlockingKeepsArtifacts(run: RunRow, after: Jobs)
    requires ArtifactsOk(run) && OnlyBlocks(run.jobs, after)
    ensures ArtifactsOk(run.(jobs := after))
  {
  }

  /** Rows fit to be finalized: everything but the final verdict. */
  ghost predicate Finalizable(run: RunRow) {
    && Shape(run) && JobsOk(run) && Settled(run.decl, run.jobs) && ArtifactsOk(run)
    && run.status.RunRunning?
  }

  lemma FinalizeKeeps(run: RunRow, expiry: Time)
    requires Finalizable(run)
    ensures RunOk(Finalize(run, expiry))
  {
    hide LeaseColumns, NeedsPassed, BlockedHasCause, CanceledByRequest, NoPending, ValidPipeline, Settled, StatusOk, ArtifactsOk;
    FinalizedStatusOk(run, expiry);
    FinalizedArtifactsOk(run, expiry);
  }

  lemma FinalizedStatusOk(run: RunRow, expiry: Time)
    requires run.status.RunRunning?
    ensures StatusOk(Finalize(run, expiry))
  {
    VerdictIsTerminal(run.cancelRequested, run.jobs);
  }

  lemma FinalizedArtifactsOk(run: RunRow, expiry: Time)
    requires run.status.RunRunning? && ArtifactsOk(run)
    ensures ArtifactsOk(Finalize(run, expiry))
  {
    VerdictIsTerminal(run.cancelRequested, run.jobs);
  }

  /** Blocking dependents and then finalizing restores the whole invariant. */
  lemma SettleKeeps(run: RunRow, expiry: Time)
    requires Shape(run) && JobsOk(run) && ArtifactsOk(run) && run.status.RunRunning?
    ensures RunOk(Finalize(run.(jobs := BlockAll(run.decl, run.jobs)), expiry))
  {
    var after := BlockAll(run.decl, run.jobs);
    BlockAllSettles(run.decl, run.jobs);
    BlockingKeepsJobs(run, after);
    BlockingKeepsArtifacts(run, after);
    FinalizeKeeps(run.(jobs := after), expiry);
  }

  // ----- Each transaction -----

  lemma NewRunOk(decl: Pipeline, maxParallel: nat, createdAt: Time)
    requires ValidPipeline(decl) && maxParallel > 0
    ensures RunOk(NewRun(decl, maxParallel, createdAt))
  {
    hide LeaseColumns, NeedsPassed, BlockedHasCause, CanceledByRequest, Closed, Acyclic, ValidArtifacts, Declares, UpstreamFailed;
    var run := NewRun(decl, maxParallel, createdAt);
    NewJobsOk(decl);
    var j :| j in decl;
    assert !AllFinished(run.jobs) by { assert Unfinished(run.jobs[j].status); }
  }

  lemma NewJobsOk(decl: Pipeline)
    ensures LeaseColumns(NewJobs(decl)) && NeedsPassed(decl, NewJobs(decl)) && BlockedHasCause(decl, NewJobs(decl))
    ensures CanceledByRequest(false, NewJobs(decl)) && Settled(decl, NewJobs(decl)) && RunningIn(NewJobs(decl)) == {}
  {
  }

  lemma LeaseKeepsJobs(run: RunRow, j: string, docker: bool, h: Holding)
    requires JobsOk(run) && Leasable(run, j, docker)
    ensures JobsOk(Leased(run, j, h))
  {
    var after := Leased(run, j, h);
    assert RunningIn(after.jobs) == RunningIn(run.jobs) + {j};
    forall i | i in after.jobs && after.jobs[i].status.JobBlocked? ensures UpstreamFailed(run.decl, after.jobs, i) {
      FailureElsewhere(run.decl, run.jobs, after.jobs, i);
    }
  }

  /** Changing only unfinished rows, without failing any, gives no pending job a failed dependency. */
  lemma SettledElsewhere(decl: Pipeline, before: Jobs, after: Jobs)
    requires Settled(decl, before) && before.Keys == after.Keys
    requires forall i :: i in after && after[i].status.JobPending? ==> before[i].status.JobPending?
    requires forall i :: i in after && Failing(after[i].status) ==> after[i] == before[i]
    ensures Settled(decl, after)
  {
    forall i | i in after && after[i].status.JobPending? ensures !UpstreamFailed(decl, after, i) {
      if UpstreamFailed(decl, after, i) {
        FailureElsewhere(decl, after, before, i);
      }
    }
  }

  /** Artifact rows stay accounted for when no job newly passes and no generation drops. */
  lemma ArtifactsElsewhere(run: RunRow, after: RunRow)
    requires ArtifactsOk(run)
    requires after.decl == run.decl && after.artifacts == run.artifacts && after.jobs.Keys == run.jobs.Keys
    requires Terminal(run.status) ==> Terminal(after.status)
    requires forall i :: i in run.jobs ==> run.jobs[i].generation <= after.jobs[i].generation
    requires forall i :: i in after.jobs && after.jobs[i].status.JobPassed? ==> run.jobs[i].status.JobPassed?
    ensures ArtifactsOk(after)
  {
  }

  /** A run with a running job and no final status agrees with its jobs. */
  lemma UnfinishedStatusOk(run: RunRow, j: string)
    requires j in run.jobs && run.jobs[j].status.JobRunning? && run.status.RunRunning?
    ensures StatusOk(run)
  {
    assert Unfinished(run.jobs[j].status);
  }

  lemma LeaseKeeps(run: RunRow, j: string, docker: bool, h: Holding)
    requires RunOk(run) && Leasable(run, j, docker)
    ensures RunOk(Leased(run, j, h))
  {
    hide JobsOk, Settled, ArtifactsOk, StatusOk;
    var after := Leased(run, j, h);
    LeaseKeepsJobs(run, j, docker, h);
    SettledElsewhere(run.decl, run.jobs, after.jobs);
    ArtifactsElsewhere(run, after);
    UnfinishedStatusOk(after, j);
  }

  /** A failed dependency is still failed when only unfinished rows changed. */
  lemma FailureElsewhere(decl: Pipeline, before: Jobs, after: Jobs, j: string)
    requires UpstreamFailed(decl, before, j)
    requires forall d :: d in before && Failing(before[d].status) ==> d in after && after[d] == before[d]
    ensures UpstreamFailed(decl, after, j)
  {
    var d :| d in decl[j].needs && d in before && Failing(before[d].status);
    assert d in after && Failing(after[d].status);
  }

  lemma RenewKeepsJobs(run: RunRow, j: string, expires: Time)
    requires JobsOk(run) && j in run.jobs && run.jobs[j].lease.Some?
    ensures JobsOk(Renewed(run, j, expires))
  {
    var after := Renewed(run, j, expires);
    assert RunningIn(after.jobs) == RunningIn(run.jobs);
    forall i | i in after.jobs && after.jobs[i].status.JobBlocked? ensures UpstreamFailed(run.decl, after.jobs, i) {
      FailureElsewhere(run.decl, run.jobs, after.jobs, i);
    }
  }

  lemma RenewKeeps(run: RunRow, j: string, expires: Time)
    requires RunOk(run) && j in run.jobs && run.jobs[j].status.JobRunning? && run.jobs[j].lease.Some?
    ensures RunOk(Renewed(run, j, expires))
  {
    RunningRun(run, j);
    RenewKeepsRest(run, j, expires);
  }

  lemma RenewKeepsRest(run: RunRow, j: string, expires: Time)
    requires RunOk(run) && j in run.jobs && run.jobs[j].status.JobRunning? && run.jobs[j].lease.Some?
    requires run.status.RunRunning?
    ensures RunOk(Renewed(run, j, expires))
  {
    hide JobsOk, Settled, ArtifactsOk, StatusOk;
    var after := Renewed(run, j, expires);
    RenewKeepsJobs(run, j, expires);
    SettledElsewhere(run.decl, run.jobs, after.jobs);
    ArtifactsElsewhere(run, after);
    UnfinishedStatusOk(after, j);
  }

  /** Running jobs `js` leave with the status given to each; nothing else changes. */
  ghost predicate Leaves(before: Jobs, after: Jobs, js: set<string>) {
    && after.Keys == before.Keys
    && (forall j :: j in before && j !in js ==> after[j] == before[j])
    && (forall j :: j in js ==>
          && j in before && before[j].status.JobRunning?
          && !Unfinished(after[j].status) && !after[j].status.JobBlocked?
          && after[j] == before[j].(status := after[j].status, lease := None))
  }

  lemma LeavingKeepsJobs(run: RunRow, after: Jobs, js: set<string>)
    requires JobsOk(run) && Leaves(run.jobs, after, js)
    ensures JobsOk(run.(jobs := after))
  {
    hide LeaseColumns, NeedsPassed, BlockedHasCause, CanceledByRequest, Leaves;
    LeavingKeepsColumns(run, after, js);
    LeavingKeepsCauses(run, after, js);
    LeavingShrinks(run, after, js);
  }

  lemma LeavingShrinks(run: RunRow, after: Jobs, js: set<string>)
    requires Leaves(run.jobs, after, js)
    ensures |RunningIn(after)| <= |RunningIn(run.jobs)| && (NoPending(run.jobs) ==> NoPending(after))
  {
    SubsetSize(RunningIn(after), RunningIn(run.jobs));
  }

  lemma LeavingKeepsColumns(run: RunRow, after: Jobs, js: set<string>)
    requires LeaseColumns(run.jobs) && NeedsPassed(run.decl, run.jobs) && CanceledByRequest(run.cancelRequested, run.jobs) && Leaves(run.jobs, after, js)
    ensures LeaseColumns(after) && NeedsPassed(run.decl, after) && CanceledByRequest(run.cancelRequested, after)
  {
  }

  lemma LeavingKeepsCauses(run: RunRow, after: Jobs, js: set<string>)
    requires BlockedHasCause(run.decl, run.jobs) && Leaves(run.jobs, after, js)
    ensures BlockedHasCause(run.decl, after)
  {
    hide UpstreamFailed;
    forall i | i in after && after[i].status.JobBlocked? ensures UpstreamFailed(run.decl, after, i) {
      FailureElsewhere(run.decl, run.jobs, after, i);
    }
  }

  lemma LeavingKeepsArtifacts(run: RunRow, after: Jobs, js: set<string>)
    requires ArtifactsOk(run) && Leaves(run.jobs, after, js)
    requires forall j :: j in js && after[j].status.JobPassed? ==> ArtifactsCommitted(run, j)
    ensures ArtifactsOk(run.(jobs := after))
  {
  }

  lemma CompleteKeeps(run: RunRow, j: string, s: JobStatus, expiry: Time)
    requires RunOk(run) && j in run.jobs && run.jobs[j].status.JobRunning? && Reportable(s)
    requires s.JobPassed? ==> ArtifactsCommitted(run, j)
    ensures RunOk(Completed(run, j, s, expiry))
  {
    hide JobsOk, ArtifactsOk, Settled, StatusOk, ValidPipeline, BlockAll, Finalize;
    RunningRun(run, j);
    var left := run.(jobs := run.jobs[j := run.jobs[j].(status := s, lease := None)]);
    LeavingKeepsJobs(run, left.jobs, {j});
    LeavingKeepsArtifacts(run, left.jobs, {j});
    if s.JobPassed? {
      SettledElsewhere(run.decl, run.jobs, left.jobs);
      FinalizeKeeps(left, expiry);
    } else {
      SettleKeeps(left, expiry);
    }
  }

  lemma AbortLeaves(jobs: Jobs, js: set<string>)
    requires js <= RunningIn(jobs)
    ensures Leaves(jobs, AbortIn(jobs, js), js)
  {
  }

  lemma AbortKeeps(run: RunRow, js: set<string>, expiry: Time)
    requires RunOk(run) && js <= RunningIn(run.jobs)
    ensures RunOk(Aborted(run, js, expiry))
  {
    hide JobsOk, ArtifactsOk, Settled, StatusOk;
    if j :| j in js {
      RunningRun(run, j);
      var left := run.(jobs := AbortIn(run.jobs, js));
      AbortLeaves(run.jobs, js);
      LeavingKeepsJobs(run, left.jobs, js);
      LeavingKeepsArtifacts(run, left.jobs, js);
      SettleKeeps(left, expiry);
    }
  }

  lemma CancelingKeepsJobs(run: RunRow)
    requires JobsOk(run)
    ensures JobsOk(run.(cancelRequested := true, jobs := CancelPending(run.jobs)))
    ensures Settled(run.decl, CancelPending(run.jobs))
  {
    hide LeaseColumns, NeedsPassed, CanceledByRequest, UpstreamFailed;
    var after := CancelPending(run.jobs);
    assert RunningIn(after) == RunningIn(run.jobs);
    CancelingKeepsColumns(run);
    forall i | i in after && after[i].status.JobBlocked? ensures UpstreamFailed(run.decl, after, i) {
      FailureElsewhere(run.decl, run.jobs, after, i);
    }
  }

  lemma CancelingKeepsColumns(run: RunRow)
    requires LeaseColumns(run.jobs) && NeedsPassed(run.decl, run.jobs)
    ensures
      var after := CancelPending(run.jobs);
      LeaseColumns(after) && NeedsPassed(run.decl, after) && CanceledByRequest(true, after)
  {
  }

  /** The job part of the invariant does not look at the run's status or artifacts. */
  lemma JobsOkTransfers(a: RunRow, b: RunRow)
    requires JobsOk(a) && b == a.(status := b.status, artifacts := b.artifacts)
    ensures JobsOk(b)
  {
    hide LeaseColumns, NeedsPassed, BlockedHasCause, CanceledByRequest, NoPending;
  }

  lemma CancelAskedKeeps(run: RunRow, expiry: Time)
    requires RunOk(run) && run.status.RunRunning?
    ensures RunOk(CancelAsked(run, expiry))
  {
    hide JobsOk, Settled, StatusOk, ArtifactsOk, ValidPipeline;
    var asked := run.(cancelRequested := true, jobs := CancelPending(run.jobs));
    CancelingKeepsJobs(run);
    ArtifactsElsewhere(run, asked);
    FinalizeKeeps(asked, expiry);
  }

  lemma CancelQueuedKeeps(run: RunRow)
    requires RunOk(run) && run.status.RunQueued?
    ensures RunOk(QueuedCanceled(run))
  {
    var after := QueuedCanceled(run);
    hide JobsOk, ArtifactsOk, StatusOk, ValidPipeline, Settled;
    CancelingKeepsJobs(run);
    JobsOkTransfers(run.(cancelRequested := true, jobs := CancelPending(run.jobs)), after);
    CanceledStatusOk(run);
    ArtifactsElsewhere(run, after);
  }

  lemma CanceledStatusOk(run: RunRow)
    requires StatusOk(run) && run.status.RunQueued?
    ensures StatusOk(QueuedCanceled(run))
  {
    var after := QueuedCanceled(run);
    assert forall j :: j in after.jobs ==> after.jobs[j].status.JobCanceled?;
  }

  lemma SupersedeKeeps(run: RunRow)
    requires RunOk(run) && !Terminal(run.status)
    ensures RunOk(SupersededBy(run))
  {
    VerdictIsTerminal(run.cancelRequested, run.jobs);
    assert !AllFinished(run.jobs);
  }

  lemma InsertKeepsArtifacts(run: RunRow, j: string, items: map<string, Meta>)
    requires ArtifactsOk(run) && j in run.jobs && j in run.decl && run.jobs[j].generation > 0 && !Terminal(run.status)
    requires forall n :: n in items ==> Declares(run.decl[j], n)
    ensures ArtifactsOk(Inserted(run, j, items))
  {
    hide Declares;
    var after := Inserted(run, j, items);
    forall k | k in after.artifacts && k !in run.artifacts
      ensures k.0 == j && k.1 in items && after.artifacts[k] == ArtifactRow(items[k.1], None, false)
    {
    }
  }

  lemma InsertKeeps(run: RunRow, j: string, items: map<string, Meta>)
    requires RunOk(run) && j in run.jobs && run.jobs[j].status.JobRunning?
    requires forall n :: n in items ==> Declares(run.decl[j], n)
    ensures RunOk(Inserted(run, j, items))
  {
    RunningRun(run, j);
    hide ArtifactsOk, Settled;
    InsertKeepsArtifacts(run, j, items);
  }

  lemma SweepKeeps(run: RunRow, now: Time)
    requires RunOk(run)
    ensures RunOk(Swept(run, now))
  {
  }
}
