/** What each transaction does to one run's rows. */
module Runs {
  import opened Dag
  import opened Tables
  import opened Blocking

  predicate AllFinished(jobs: Jobs) {
    forall j | j in jobs :: !Unfinished(jobs[j].status)
  }

  predicate Any(jobs: Jobs, s: JobStatus) {
    exists j | j in jobs :: jobs[j].status == s
  }

  /** The precedence `finalizeRun` applies to a run whose jobs have all finished. */
  function Verdict(cancel: bool, jobs: Jobs): RunStatus {
    if Any(jobs, JobError) then RunError
    else if Any(jobs, JobAborted) then RunAborted
    else if cancel then RunCanceled
    else if Any(jobs, JobFailed) || Any(jobs, JobBlocked) then RunFailed
    else RunPassed
  }

  function Dated(artifacts: map<(string, string), ArtifactRow>, expiry: Time): map<(string, string), ArtifactRow> {
    map k | k in artifacts ::
      if artifacts[k].expires.None? then artifacts[k].(expires := Some(expiry)) else artifacts[k]
  }

  /** `finalizeRun`: nothing while a job is unfinished or once the run is terminal. */
  function Finalize(run: RunRow, expiry: Time): RunRow {
    if !AllFinished(run.jobs) || Terminal(run.status) then run
    else run.(status := Verdict(run.cancelRequested, run.jobs), artifacts := Dated(run.artifacts, expiry))
  }

  function NewJobs(decl: Pipeline): Jobs {
    map j | j in decl :: JobRow(JobPending, decl[j].image, 0, None)
  }

  function NewRun(decl: Pipeline, maxParallel: nat, createdAt: Time): RunRow {
    RunRow(RunQueued, decl, maxParallel, createdAt, false, false, NewJobs(decl), map[])
  }

  function RunningIn(jobs: Jobs): set<string> {
    set j | j in jobs && jobs[j].status.JobRunning?
  }

  predicate AllPassed(jobs: Jobs, needs: seq<string>) {
    forall d | d in needs :: d in jobs && jobs[d].status.JobPassed?
  }

  /** The row-level guards of the lease query, for one job of one run. */
  predicate Leasable(run: RunRow, j: string, docker: bool) {
    && !Terminal(run.status) && !run.cancelRequested
    && j in run.jobs && j in run.decl && run.jobs[j].status.JobPending?
    && (docker || !run.jobs[j].image)
    && AllPassed(run.jobs, run.decl[j].needs)
    && |RunningIn(run.jobs)| < run.maxParallel
  }

  function Leased(run: RunRow, j: string, h: Holding): RunRow
    requires j in run.jobs
  {
    run.(status := if run.status.RunQueued? then RunRunning else run.status,
         jobs := run.jobs[j := run.jobs[j].(status := JobRunning, generation := run.jobs[j].generation + 1, lease := Some(h))])
  }

  /** The fence every leaseholder operation checks: exact runner, lease and generation, unexpired. */
  predicate Holds(run: RunRow, j: string, runner: nat, lease: nat, generation: nat, now: Time) {
    && j in run.jobs && run.jobs[j].status.JobRunning? && run.jobs[j].generation == generation
    && run.jobs[j].lease.Some?
    && run.jobs[j].lease.value.runner == runner && run.jobs[j].lease.value.id == lease
    && run.jobs[j].lease.value.expires > now
  }

  function Renewed(run: RunRow, j: string, expires: Time): RunRow
    requires j in run.jobs && run.jobs[j].lease.Some?
  {
    run.(jobs := run.jobs[j := run.jobs[j].(lease := Some(run.jobs[j].lease.value.(expires := expires)))])
  }

  predicate Reportable(s: JobStatus) {
    s.JobPassed? || s.JobFailed? || s.JobError? || s.JobCanceled?
  }

  /** Exactly the declared artifacts of `j` are committed and live. */
  ghost predicate ArtifactsCommitted(run: RunRow, j: string) {
    j in run.decl &&
    forall n :: Declares(run.decl[j], n) <==> (j, n) in run.artifacts && !run.artifacts[(j, n)].deleted
  }

  function Completed(run: RunRow, j: string, s: JobStatus, expiry: Time): RunRow
    requires j in run.jobs
  {
    var jobs := run.jobs[j := run.jobs[j].(status := s, lease := None)];
    Finalize(run.(jobs := if s.JobPassed? then jobs else BlockAll(run.decl, jobs)), expiry)
  }

  function AbortIn(jobs: Jobs, js: set<string>): Jobs {
    map j | j in jobs :: if j in js then jobs[j].(status := JobAborted, lease := None) else jobs[j]
  }

  /** Leases lost: the jobs abort, their dependents block, the run may finish. */
  function Aborted(run: RunRow, js: set<string>, expiry: Time): RunRow {
    if js == {} then run
    else Finalize(run.(jobs := BlockAll(run.decl, AbortIn(run.jobs, js))), expiry)
  }

  function ExpiredIn(jobs: Jobs, now: Time): set<string> {
    set j | j in jobs && jobs[j].status.JobRunning? && jobs[j].lease.Some? && jobs[j].lease.value.expires <= now
  }

  function CancelPending(jobs: Jobs): Jobs {
    map j | j in jobs :: if jobs[j].status.JobPending? then jobs[j].(status := JobCanceled) else jobs[j]
  }

  function QueuedCanceled(run: RunRow): RunRow {
    run.(status := RunCanceled, cancelRequested := true, jobs := CancelPending(run.jobs))
  }

  function CancelAsked(run: RunRow, expiry: Time): RunRow {
    Finalize(run.(cancelRequested := true, jobs := CancelPending(run.jobs)), expiry)
  }

  /** A newer pull request delivery: run columns change, job rows do not. */
  function SupersededBy(run: RunRow): RunRow {
    run.(superseded := true,
         status := if run.status.RunQueued? then RunCanceled else run.status,
         cancelRequested := run.cancelRequested || run.status.RunRunning?)
  }

  function Inserted(run: RunRow, j: string, items: map<string, Meta>): RunRow {
    run.(artifacts := run.artifacts + map k | k in (set n | n in items :: (j, n)) :: ArtifactRow(items[k.1], None, false))
  }

  function Swept(run: RunRow, now: Time): RunRow {
    run.(artifacts := map k | k in run.artifacts ::
      if run.artifacts[k].expires.Some? && run.artifacts[k].expires.value <= now
      then run.artifacts[k].(deleted := true) else run.artifacts[k])
  }
}
