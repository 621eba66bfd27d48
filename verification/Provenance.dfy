/**
 What the tables hold, told by the transactions alone: every status, lease, flag, artifact and runner column of a reachable
 state is the one a particular earlier transaction put there.
 */
module Provenance {
  import opened Dag
  import opened Tables
  import opened Blocking
  import opened Runs
  import opened RunInvariant
  import opened RunOrder
  import opened Protocol
  import opened Executions

  // ----- The history of a job -----

  ghost predicate WasLeased(x: Execution, k: nat, r: nat, j: string)
    requires k <= |x.events|
  {
    exists i :: 0 <= i < k && LeasesJob(x.events[i], r, j)
  }

  ghost predicate WasReported(x: Execution, k: nat, r: nat, j: string, status: JobStatus)
    requires k <= |x.events|
  {
    exists i :: 0 <= i < k && ReportsJob(x.events[i], r, j) && x.events[i].status == status
  }

  ghost predicate LostAt(x: Execution, i: nat, r: nat, j: string)
    requires i < |x.events| && |x.states| == |x.events| + 1
  {
    JobAt(x.states[i], r, j) && LosesJob(x.states[i], x.events[i], Row(x.states[i], r, j))
  }

  ghost predicate WasLost(x: Execution, k: nat, r: nat, j: string)
    requires k <= |x.events| && |x.states| == |x.events| + 1
  {
    exists i :: 0 <= i < k && LostAt(x, i, r, j)
  }

  ghost predicate GivenUpAt(x: Execution, i: nat, r: nat, j: string)
    requires i < |x.events| && |x.states| == |x.events| + 1
  {
    JobAt(x.states[i], r, j) && Row(x.states[i], r, j).status.JobPending? && CancelsRun(x.events[i], r)
  }

  ghost predicate WasGivenUp(x: Execution, k: nat, r: nat, j: string)
    requires k <= |x.events| && |x.states| == |x.events| + 1
  {
    exists i :: 0 <= i < k && GivenUpAt(x, i, r, j)
  }

  /** A job's status, told by what was done to it. */
  ghost predicate Told(x: Execution, k: nat, r: nat, j: string, status: JobStatus)
    requires k <= |x.events| && |x.states| == |x.events| + 1
  {
    && (status.JobPassed? <==> WasReported(x, k, r, j, JobPassed))
    && (status.JobFailed? <==> WasReported(x, k, r, j, JobFailed))
    && (status.JobError? <==> WasReported(x, k, r, j, JobError))
    && (status.JobCanceled? <==> WasReported(x, k, r, j, JobCanceled) || WasGivenUp(x, k, r, j))
    && (status.JobAborted? <==> WasLost(x, k, r, j))
    && (status.JobPending? || status.JobBlocked? <==> !WasLeased(x, k, r, j) && !WasGivenUp(x, k, r, j))
  }

  lemma HistoryStep(x: Execution, k: nat, r: nat, j: string, status: JobStatus)
    requires k < |x.events| && |x.states| == |x.events| + 1
    ensures WasLeased(x, k + 1, r, j) <==> WasLeased(x, k, r, j) || LeasesJob(x.events[k], r, j)
    ensures WasReported(x, k + 1, r, j, status) <==> WasReported(x, k, r, j, status) || (ReportsJob(x.events[k], r, j) && x.events[k].status == status)
    ensures WasLost(x, k + 1, r, j) <==> WasLost(x, k, r, j) || LostAt(x, k, r, j)
    ensures WasGivenUp(x, k + 1, r, j) <==> WasGivenUp(x, k, r, j) || GivenUpAt(x, k, r, j)
  {
    hide LeasesJob, ReportsJob, LostAt, GivenUpAt;
  }

  lemma RowStepAt(x: Execution, k: nat, r: nat, j: string)
    requires Valid(x) && k < |x.events| && JobAt(x.states[k], r, j)
    ensures JobAt(x.states[k + 1], r, j) && (ReportsJob(x.events[k], r, j) ==> Reportable(x.events[k].status))
    ensures RowMoves(x.states[k], x.events[k], r, j, Row(x.states[k], r, j), Row(x.states[k + 1], r, j))
  {
    hide Inv, Enabled, Apply, RowMoves;
    assert Step(x, k);
    ReachableInv(x, k);
    EnabledOnRow(x.states[k], x.events[k], r, j);
    RowStep(x.states[k], x.events[k], r, j);
  }

  lemma ToldStep(x: Execution, k: nat, r: nat, j: string)
    requires Valid(x) && k < |x.events| && JobAt(x.states[k], r, j) && JobAt(x.states[k + 1], r, j)
    requires Told(x, k, r, j, Row(x.states[k], r, j).status)
    ensures Told(x, k + 1, r, j, Row(x.states[k + 1], r, j).status)
  {
    assert Step(x, k);
    EnabledOnRow(x.states[k], x.events[k], r, j);
    RowStepAt(x, k, r, j);
    hide Valid, Step, WasLeased, WasReported, WasLost, WasGivenUp, LeasesJob, ReportsJob, RenewsJob, CancelsRun;
    HistoryStep(x, k, r, j, JobPassed);
    HistoryStep(x, k, r, j, JobFailed);
    HistoryStep(x, k, r, j, JobError);
    HistoryStep(x, k, r, j, JobCanceled);
  }

  /** Nothing is done to a run before it is created. */
  lemma NothingBefore(x: Execution, k: nat, r: nat, i: nat)
    requires Valid(x) && k < |x.events| && r !in x.states[k].runs && i <= k && i < |x.events| && (i == k ==> x.events[k].Submit?)
    ensures r !in x.states[i].runs
    ensures forall j :: !LeasesJob(x.events[i], r, j) && !ReportsJob(x.events[i], r, j) && !RenewsJob(x.events[i], r, j)
    ensures !CancelsRun(x.events[i], r)
  {
    assert Step(x, i);
    ReachableLater(x, i, k);
    hide RunLater, Valid;
    forall j ensures !LeasesJob(x.events[i], r, j) && !ReportsJob(x.events[i], r, j) && !RenewsJob(x.events[i], r, j) {
      EnabledOnRow(x.states[i], x.events[i], r, j);
    }
  }

  lemma ToldFirst(x: Execution, k: nat, r: nat, j: string)
    requires Valid(x) && k < |x.events| && r !in x.states[k].runs && x.events[k].Submit?
    ensures Told(x, k + 1, r, j, JobPending)
  {
    forall i | 0 <= i < k + 1
      ensures !LeasesJob(x.events[i], r, j) && !ReportsJob(x.events[i], r, j) && !LostAt(x, i, r, j) && !GivenUpAt(x, i, r, j)
    {
      NothingBefore(x, k, r, i);
    }
    hide Valid, LeasesJob, ReportsJob, LostAt, GivenUpAt;
  }

  /** In every reachable state, every job's status is the one its history tells: passed, failed or in error as its leaseholder
      reported, canceled by that report or by a request while it was pending, aborted when its lease was lost. */
  lemma {:induction false} StatusFromHistory(x: Execution, k: nat, r: nat, j: string)
    requires Valid(x) && k < |x.states| && JobAt(x.states[k], r, j)
    ensures Told(x, k, r, j, Row(x.states[k], r, j).status)
    decreases k
  {
    assert k > 0 by { assert x.states[0].runs == map[]; }
    assert Step(x, k - 1);
    if r in x.states[k - 1].runs {
      hide Enabled, Apply, Told, Step, RunLater;
      ReachableLater(x, k - 1, k);
      assert JobAt(x.states[k - 1], r, j) by { JobsKept(x.states[k - 1].runs[r], x.states[k].runs[r]); }
      StatusFromHistory(x, k - 1, r, j);
      ToldStep(x, k - 1, r, j);
    } else {
      OnlySubmitCreates(x.states[k - 1], x.events[k - 1], r);
      hide Valid, Enabled, Apply, Told, Step;
      ToldFirst(x, k - 1, r, j);
    }
  }

  /** A job that was neither leased nor given up is blocked exactly if a job it needs directly finished without passing. */
  lemma BlockedFromNeeds(x: Execution, k: nat, r: nat, j: string)
    requires Valid(x) && k < |x.states| && JobAt(x.states[k], r, j) && !WasLeased(x, k, r, j) && !WasGivenUp(x, k, r, j)
    ensures Row(x.states[k], r, j).status.JobBlocked? <==> UpstreamFailed(x.states[k].runs[r].decl, x.states[k].runs[r].jobs, j)
    ensures !Row(x.states[k], r, j).status.JobBlocked? ==> Row(x.states[k], r, j).status.JobPending?
  {
    StatusFromHistory(x, k, r, j);
    ReachableInv(x, k);
    hide Valid, LeasesIssued, StatusOk, ArtifactsOk, LeaseColumns, NeedsPassed, CanceledByRequest, WasLeased, WasReported, WasLost, WasGivenUp;
    assert RunOk(x.states[k].runs[r]);
  }

  // ----- Leases -----

  /** `i` is the last transaction before `k` that gave or renewed the job's lease. */
  ghost predicate LastGrant(x: Execution, i: nat, k: nat, r: nat, j: string)
    requires k <= |x.events|
  {
    && i < k && (LeasesJob(x.events[i], r, j) || RenewsJob(x.events[i], r, j))
    && (forall m :: i < m < k ==> !LeasesJob(x.events[m], r, j) && !RenewsJob(x.events[m], r, j))
  }

  /** A running job's lease runs out one period after it was last given or renewed. */
  lemma {:induction false} LeaseFromHistory(x: Execution, k: nat, r: nat, j: string) returns (i: nat)
    requires Valid(x) && k < |x.states| && JobAt(x.states[k], r, j) && Row(x.states[k], r, j).status.JobRunning?
    ensures LastGrant(x, i, k, r, j) && Row(x.states[k], r, j).lease.Some?
    ensures Row(x.states[k], r, j).lease.value.expires == x.states[i].now + 30_000
    decreases k
  {
    RunningBefore(x, k, r, j);
    if LeasesJob(x.events[k - 1], r, j) {
      i := k - 1;
      LeaseEffect(x, i);
    } else {
      RowStepAt(x, k - 1, r, j);
      if RenewsJob(x.events[k - 1], r, j) {
        i := k - 1;
      } else {
        i := LeaseFromHistory(x, k - 1, r, j);
        hide Valid, LeasesJob, RenewsJob;
        assert LastGrant(x, i, k, r, j);
      }
    }
  }

  // ----- Run rows -----

  ghost predicate SupersedesRun(s: State, e: Event, r: nat) {
    e.Supersede? && r in e.affected && r in s.runs && !Terminal(s.runs[r].status)
  }

  /** What a transaction does to a run's flags and when it ends a run before its jobs. */
  ghost predicate FlagsMove(s: State, e: Event, r: nat, a: RunRow, b: RunRow) {
    && (b.superseded <==> a.superseded || SupersedesRun(s, e, r))
    && (b.cancelRequested <==> a.cancelRequested || CancelsRun(e, r) || (SupersedesRun(s, e, r) && a.status.RunRunning?))
    && (b.status.RunRunning? ==> a.status.RunRunning? || (e.Lease? && e.run == r))
    && (a.status.RunQueued? && SupersedesRun(s, e, r) ==> b.status.RunCanceled?)
  }

  lemma SettledFlags(run: RunRow, jobs: Jobs, expiry: Time)
    ensures
      var b := Finalize(run.(jobs := jobs), expiry);
      b.superseded == run.superseded && b.cancelRequested == run.cancelRequested && (b.status == run.status || !b.status.RunRunning?)
  {
  }

  /** The transactions that may finish a run with its last job. */
  lemma FlagsSettle(s: State, e: Event, r: nat)
    requires Enabled(s, e) && r in s.runs && (e.Complete? || e.Expire? || e.Recover? || e.RequestCancel?)
    ensures r in Apply(s, e).runs && FlagsMove(s, e, r, s.runs[r], Apply(s, e).runs[r])
  {
    hide ArtifactsCommitted, BlockAll, Finalize, AbortIn, CancelPending;
    var run := s.runs[r];
    match e
    case Complete(o, st) =>
      if o.run == r {
        var jobs := run.jobs[o.job := run.jobs[o.job].(status := st, lease := None)];
        SettledFlags(run, if st.JobPassed? then jobs else BlockAll(run.decl, jobs), Expiry(s));
      }
    case Expire => SettledFlags(run, BlockAll(run.decl, AbortIn(run.jobs, ExpiredIn(run.jobs, s.now))), Expiry(s));
    case Recover => SettledFlags(run, BlockAll(run.decl, AbortIn(run.jobs, RunningIn(run.jobs))), Expiry(s));
    case RequestCancel(q) => SettledFlags(run.(cancelRequested := true), CancelPending(run.jobs), Expiry(s));
  }

  lemma FlagsStep(s: State, e: Event, r: nat)
    requires Enabled(s, e) && r in s.runs
    ensures r in Apply(s, e).runs && FlagsMove(s, e, r, s.runs[r], Apply(s, e).runs[r])
  {
    hide ValidPipeline, ArtifactsCommitted, Leasable, Completed, Aborted, CancelAsked, Inserted, Swept;
    if e.Complete? || e.Expire? || e.Recover? || e.RequestCancel? {
      hide FlagsMove;
      FlagsSettle(s, e, r);
    } else if e.CommitArtifacts? || e.ExpireArtifacts? {
      FlagsOfArtifacts(s, e, r);
    }
  }

  lemma FlagsOfArtifacts(s: State, e: Event, r: nat)
    requires Enabled(s, e) && r in s.runs && (e.CommitArtifacts? || e.ExpireArtifacts?)
    ensures r in Apply(s, e).runs && FlagsMove(s, e, r, s.runs[r], Apply(s, e).runs[r])
  {
  }

  ghost predicate SupersededAt(x: Execution, i: nat, r: nat)
    requires i < |x.events| && |x.states| == |x.events| + 1
  {
    SupersedesRun(x.states[i], x.events[i], r)
  }

  ghost predicate WasSuperseded(x: Execution, k: nat, r: nat)
    requires k <= |x.events| && |x.states| == |x.events| + 1
  {
    exists i :: 0 <= i < k && SupersededAt(x, i, r)
  }

  ghost predicate CanceledAt(x: Execution, i: nat, r: nat)
    requires i < |x.events| && |x.states| == |x.events| + 1
  {
    CancelsRun(x.events[i], r) || (SupersededAt(x, i, r) && x.states[i].runs[r].status.RunRunning?)
  }

  ghost predicate WasCanceled(x: Execution, k: nat, r: nat)
    requires k <= |x.events| && |x.states| == |x.events| + 1
  {
    exists i :: 0 <= i < k && CanceledAt(x, i, r)
  }

  ghost predicate SomeLeased(x: Execution, k: nat, r: nat)
    requires k <= |x.events|
  {
    exists i :: 0 <= i < k && x.events[i].Lease? && x.events[i].run == r
  }

  lemma FlagHistoryStep(x: Execution, k: nat, r: nat)
    requires k < |x.events| && |x.states| == |x.events| + 1
    ensures WasSuperseded(x, k + 1, r) <==> WasSuperseded(x, k, r) || SupersededAt(x, k, r)
    ensures WasCanceled(x, k + 1, r) <==> WasCanceled(x, k, r) || CanceledAt(x, k, r)
    ensures SomeLeased(x, k + 1, r) <==> SomeLeased(x, k, r) || (x.events[k].Lease? && x.events[k].run == r)
  {
    hide SupersededAt, CanceledAt;
  }

  ghost predicate FlagsTold(x: Execution, k: nat, r: nat, run: RunRow)
    requires k <= |x.events| && |x.states| == |x.events| + 1
  {
    && (run.superseded <==> WasSuperseded(x, k, r)) && (run.cancelRequested <==> WasCanceled(x, k, r))
    && (run.status.RunRunning? ==> SomeLeased(x, k, r))
  }

  lemma FlagsFirst(x: Execution, k: nat, r: nat)
    requires Valid(x) && k < |x.events| && r !in x.states[k].runs && x.events[k].Submit?
    ensures !WasSuperseded(x, k + 1, r) && !WasCanceled(x, k + 1, r)
  {
    forall i | 0 <= i < k + 1 ensures !SupersededAt(x, i, r) && !CanceledAt(x, i, r) {
      NothingBefore(x, k, r, i);
    }
    hide Valid, SupersededAt, CanceledAt;
  }

  lemma FlagsToldStep(x: Execution, k: nat, r: nat)
    requires Valid(x) && k < |x.events| && r in x.states[k].runs && FlagsTold(x, k, r, x.states[k].runs[r])
    ensures r in x.states[k + 1].runs && FlagsTold(x, k + 1, r, x.states[k + 1].runs[r])
  {
    assert Step(x, k);
    FlagsStep(x.states[k], x.events[k], r);
    hide Valid, Enabled, Apply, Step, WasSuperseded, WasCanceled, SomeLeased, SupersedesRun;
    FlagHistoryStep(x, k, r);
  }

  /** A run's flags, told by its history: cancellation was requested exactly by a cancel, or by a newer delivery while it was running;
      it was superseded exactly by a newer delivery before it ended; and a running run has had a job leased. */
  lemma {:induction false} FlagsFromHistory(x: Execution, k: nat, r: nat)
    requires Valid(x) && k < |x.states| && r in x.states[k].runs
    ensures FlagsTold(x, k, r, x.states[k].runs[r])
    decreases k
  {
    assert k > 0 by { assert x.states[0].runs == map[]; }
    assert Step(x, k - 1);
    if r in x.states[k - 1].runs {
      hide Enabled, Apply, FlagsTold, Step;
      FlagsFromHistory(x, k - 1, r);
      FlagsToldStep(x, k - 1, r);
    } else {
      OnlySubmitCreates(x.states[k - 1], x.events[k - 1], r);
      hide Valid, Enabled, Apply, Step, WasSuperseded, WasCanceled;
      FlagsFirst(x, k - 1, r);
    }
  }

  lemma LeasedNotPending(s: State, r: nat, j: string)
    requires Inv(s) && JobAt(s, r, j) && Row(s, r, j).generation > 0
    ensures !Row(s, r, j).status.JobPending?
  {
    hide LeasesIssued, StatusOk, ArtifactsOk, Settled, NeedsPassed, BlockedHasCause, Shape;
  }

  lemma LeasedRunHasStarted(x: Execution, k: nat, r: nat)
    requires Valid(x) && k < |x.states| && r in x.states[k].runs && SomeLeased(x, k, r)
    ensures !AllPending(x.states[k].runs[r].jobs)
  {
    hide Step, RunLater;
    var i :| 0 <= i < k && x.events[i].Lease? && x.events[i].run == r;
    LeaseEffect(x, i);
    RowLater(x, i + 1, k, r, x.events[i].job);
    ReachableInv(x, k);
    hide Valid, Inv;
    LeasedNotPending(x.states[k], r, x.events[i].job);
  }

  /** The run was superseded before any of its jobs was leased. */
  ghost predicate QueuedSupersededAt(x: Execution, i: nat, r: nat)
    requires i < |x.events| && |x.states| == |x.events| + 1
  {
    SupersededAt(x, i, r) && x.states[i].runs[r].status.RunQueued?
  }

  ghost predicate QueuedSuperseded(x: Execution, k: nat, r: nat)
    requires k <= |x.events| && |x.states| == |x.events| + 1
  {
    exists i :: 0 <= i < k && QueuedSupersededAt(x, i, r)
  }

  lemma QueuedSupersededEnds(x: Execution, k: nat, r: nat)
    requires Valid(x) && k < |x.states| && r in x.states[k].runs && QueuedSuperseded(x, k, r)
    ensures x.states[k].runs[r].status.RunCanceled?
  {
    var i :| 0 <= i < k && QueuedSupersededAt(x, i, r);
    assert Step(x, i);
    FlagsStep(x.states[i], x.events[i], r);
    ReachableLater(x, i + 1, k);
    hide Valid, Enabled, Apply, Step;
  }

  lemma CanceledUnfinished(x: Execution, k: nat, r: nat)
    requires Valid(x) && k < |x.states| && r in x.states[k].runs
    requires WasSuperseded(x, k, r) && AllPending(x.states[k].runs[r].jobs)
    ensures QueuedSuperseded(x, k, r)
  {
    var i :| 0 <= i < k && SupersededAt(x, i, r);
    if x.states[i].runs[r].status.RunRunning? {
      FlagsFromHistory(x, i, r);
      hide Valid, AllPending;
      assert SomeLeased(x, k, r) by {
        var m :| 0 <= m < i && x.events[m].Lease? && x.events[m].run == r;
        assert x.events[m].Lease?;
      }
      LeasedRunHasStarted(x, k, r);
    }
    assert QueuedSupersededAt(x, i, r);
  }

  /** A run's status, told by its jobs and its history: the precedence of verdicts once all jobs have finished; before that, running
      exactly if a job was leased, canceled exactly if it was superseded before that, and queued otherwise. */
  lemma RunStatusFromHistory(x: Execution, k: nat, r: nat)
    requires Valid(x) && k < |x.states| && r in x.states[k].runs
    ensures
      var run := x.states[k].runs[r];
      if AllFinished(run.jobs) then Terminal(run.status) && ByPrecedence(run)
      else
        && (run.status.RunRunning? <==> SomeLeased(x, k, r)) && (run.status.RunCanceled? <==> QueuedSuperseded(x, k, r))
        && (run.status.RunQueued? <==> !SomeLeased(x, k, r) && !QueuedSuperseded(x, k, r))
  {
    var run := x.states[k].runs[r];
    ReachableInv(x, k);
    FlagsFromHistory(x, k, r);
    if AllFinished(run.jobs) {
      hide Valid, LeasesIssued, JobsOk, Settled, ArtifactsOk, Shape, ByPrecedence, WasSuperseded, WasCanceled, SomeLeased;
      VerdictIsTerminal(run.cancelRequested, run.jobs);
      VerdictIsByPrecedence(run);
    } else {
      hide LeasesIssued, JobsOk, Settled, ArtifactsOk, Shape, Step, WasSuperseded, WasCanceled, SomeLeased, QueuedSuperseded, AllPending, AllFinished, Verdict;
      assert StatusOk(run);
      if SomeLeased(x, k, r) { LeasedRunHasStarted(x, k, r); }
      if QueuedSuperseded(x, k, r) { QueuedSupersededEnds(x, k, r); }
      if run.status.RunCanceled? { CanceledUnfinished(x, k, r); }
    }
  }

  // ----- When a job can be leased -----

  lemma NotSuperseded(x: Execution, k: nat, r: nat)
    requires Valid(x) && k < |x.states| && r in x.states[k].runs && !Terminal(x.states[k].runs[r].status) && !WasCanceled(x, k, r)
    ensures !WasSuperseded(x, k, r)
  {
    if i :| 0 <= i < k && SupersededAt(x, i, r) {
      if x.states[i].runs[r].status.RunRunning? {
        assert CanceledAt(x, i, r);
      } else {
        assert QueuedSupersededAt(x, i, r);
        QueuedSupersededEnds(x, k, r);
      }
    }
  }

  lemma GivenUpByCancel(x: Execution, k: nat, r: nat, j: string)
    requires k <= |x.events| && |x.states| == |x.events| + 1 && WasGivenUp(x, k, r, j)
    ensures WasCanceled(x, k, r)
  {
    var i :| 0 <= i < k && GivenUpAt(x, i, r, j);
    assert CanceledAt(x, i, r);
  }

  ghost predicate NeedsReported(x: Execution, k: nat, r: nat, needs: seq<string>)
    requires k <= |x.events|
  {
    forall d :: d in needs ==> WasReported(x, k, r, d, JobPassed)
  }

  lemma NeedsReportedIff(x: Execution, k: nat, r: nat, j: string)
    requires Valid(x) && k < |x.states| && JobAt(x.states[k], r, j) && j in x.states[k].runs[r].decl
    requires forall d :: d in x.states[k].runs[r].decl[j].needs ==> JobAt(x.states[k], r, d)
    ensures NeedsReported(x, k, r, x.states[k].runs[r].decl[j].needs) <==> AllPassed(x.states[k].runs[r].jobs, x.states[k].runs[r].decl[j].needs)
  {
    hide Step, Told;
    forall d | d in x.states[k].runs[r].decl[j].needs
      ensures WasReported(x, k, r, d, JobPassed) <==> x.states[k].runs[r].jobs[d].status.JobPassed?
    {
      PassedIffReported(x, k, r, d);
    }
  }

  lemma PassedIffReported(x: Execution, k: nat, r: nat, j: string)
    requires Valid(x) && k < |x.states| && JobAt(x.states[k], r, j)
    ensures WasReported(x, k, r, j, JobPassed) <==> Row(x.states[k], r, j).status.JobPassed?
  {
    hide Valid;
    StatusFromHistory(x, k, r, j);
  }

  ghost predicate NeedsHaveRows(run: RunRow) {
    && run.jobs.Keys == run.decl.Keys && (forall j, d :: j in run.decl && d in run.decl[j].needs ==> d in run.jobs)
    && (Terminal(run.status) && !AllFinished(run.jobs) ==> run.superseded)
  }

  lemma RowsOfNeeds(run: RunRow)
    requires RunOk(run)
    ensures NeedsHaveRows(run)
  {
    hide JobsOk, Settled, ArtifactsOk, AllFinished, AllPending, Verdict, Acyclic, ValidArtifacts;
    forall j, d | j in run.decl && d in run.decl[j].needs ensures d in run.jobs {
      assert Closed(NeedsOf(run.decl)) && j in NeedsOf(run.decl) && d in NeedsOf(run.decl)[j];
      assert d in NeedsOf(run.decl);
    }
  }

  lemma NeedsAreJobs(x: Execution, k: nat, r: nat)
    requires Valid(x) && k < |x.states| && r in x.states[k].runs
    ensures NeedsHaveRows(x.states[k].runs[r])
  {
    hide Step, RunOk, LeasesIssued, NeedsHaveRows;
    ReachableInv(x, k);
    RowsOfNeeds(x.states[k].runs[r]);
  }

  lemma PendingIffUntouched(x: Execution, k: nat, r: nat, j: string)
    requires Valid(x) && k < |x.states| && JobAt(x.states[k], r, j) && j in x.states[k].runs[r].decl && !WasCanceled(x, k, r)
    requires AllPassed(x.states[k].runs[r].jobs, x.states[k].runs[r].decl[j].needs)
    ensures Row(x.states[k], r, j).status.JobPending? <==> !WasLeased(x, k, r, j)
  {
    StatusFromHistory(x, k, r, j);
    if !WasLeased(x, k, r, j) {
      hide Valid, WasLeased, WasReported, WasLost, WasGivenUp, WasCanceled;
      if WasGivenUp(x, k, r, j) { GivenUpByCancel(x, k, r, j); }
      BlockedFromNeeds(x, k, r, j);
    }
  }

  /** Exactly when a job could be leased to a runner with room: the submission declares it, with no container unless the runner has
      docker; it was never leased; a report says PASSED for everything it needs; the run was neither canceled nor superseded; and the
      run has fewer jobs running than its limit. */
  lemma LeasableIff(x: Execution, k: nat, r: nat, j: string, docker: bool) returns (h: nat)
    requires Valid(x) && k < |x.states| && r in x.states[k].runs
    ensures h < k && x.events[h].Submit? && x.events[h].run == r
    ensures Leasable(x.states[k].runs[r], j, docker) <==>
      var decl := x.events[h].decl;
      && j in decl && (decl[j].image ==> docker) && NeedsReported(x, k, r, decl[j].needs)
      && !WasLeased(x, k, r, j) && !WasCanceled(x, k, r) && !WasSuperseded(x, k, r)
      && |RunningIn(x.states[k].runs[r].jobs)| < x.events[h].maxParallel
  {
    hide Step, WasLeased, WasCanceled, WasSuperseded, SomeLeased, RunningIn, NeedsReported;
    h := RunOrigin(x, k, r);
    NeedsAreJobs(x, k, r);
    FlagsFromHistory(x, k, r);
    var run := x.states[k].runs[r];
    if j in run.decl && AllPassed(run.jobs, run.decl[j].needs) && !WasCanceled(x, k, r) {
      PendingIffUntouched(x, k, r, j);
      if !Terminal(run.status) { NotSuperseded(x, k, r); }
    }
    if j in run.decl { NeedsReportedIff(x, k, r, j); }
  }
}
