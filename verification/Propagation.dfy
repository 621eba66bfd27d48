/** Failure propagation in terms of the dependency graph: what a failing job takes down with it. */
module Propagation {
  import opened Dag
  import opened Tables
  import opened Blocking
  import opened Runs
  import opened RunInvariant
  import opened Executions

  /** `left` is `before` after the running jobs `js` finished without passing. */
  ghost predicate Fall(before: Jobs, left: Jobs, js: set<string>) {
    && left.Keys == before.Keys
    && (forall j :: j in before && j in js ==> before[j].status.JobRunning? && Failing(left[j].status))
    && (forall j :: j in before && j !in js ==> left[j] == before[j])
  }

  ghost predicate DependsOnSome(decl: Pipeline, i: string, js: set<string>) {
    exists j :: j in js && DependsOn(NeedsOf(decl), i, j)
  }

  lemma NeedOfPending(run: RunRow, i: string, d: string)
    requires RunOk(run) && i in run.jobs && i in run.decl && run.jobs[i].status.JobPending? && d in run.decl[i].needs && d in run.jobs
    ensures !Failing(run.jobs[d].status)
  {
    hide StatusOk, ArtifactsOk, JobsOk, Shape;
    assert !UpstreamFailed(run.decl, run.jobs, i);
  }

  lemma NeverLeased(run: RunRow, j: string)
    requires RunOk(run) && j in run.jobs && run.jobs[j].generation == 0
    ensures run.jobs[j].status.JobPending? || Failing(run.jobs[j].status)
  {
    hide StatusOk, ArtifactsOk, Settled, Shape, NeedsPassed, BlockedHasCause, CanceledByRequest;
  }

  /** A job in the way of a pending one to a running one is itself pending. */
  lemma NextIsPending(run: RunRow, p: seq<string>)
    requires RunOk(run) && Chain(NeedsOf(run.decl), p) && |p| > 2 && (forall i :: 0 <= i < |p| ==> p[i] in run.jobs)
    requires run.jobs[p[0]].status.JobPending? && run.jobs[p[|p| - 1]].status.JobRunning?
    ensures run.jobs[p[1]].status.JobPending?
  {
    hide RunOk;
    assert Chain(NeedsOf(run.decl), p[1..]);
    NeedOfPending(run, p[0], p[1]);
    if run.jobs[p[1]].generation > 0 {
      ChainPassed(run, p[1..]);
    } else {
      NeverLeased(run, p[1]);
    }
  }

  lemma {:induction false} ChainToFallen(run: RunRow, left: Jobs, js: set<string>, p: seq<string>)
    requires RunOk(run) && Fall(run.jobs, left, js) && Chain(NeedsOf(run.decl), p) && |p| >= 2
    requires run.jobs[p[0]].status.JobPending? && p[|p| - 1] in js
    ensures FailureChain(run.decl, left, p)
  {
    hide RunOk;
    InJobs(run, p);
    assert run.jobs[p[|p| - 1]].status.JobRunning?;
    if |p| > 2 {
      NextIsPending(run, p);
      var q := p[1..];
      assert Chain(NeedsOf(run.decl), q);
      ChainToFallen(run, left, js, q);
      forall i | 0 <= i < |p| - 1 ensures left[p[i]].status.JobPending? {
        if i > 0 { assert p[i] == q[i - 1]; }
      }
    }
  }

  lemma InJobs(run: RunRow, p: seq<string>)
    requires RunOk(run) && Chain(NeedsOf(run.decl), p)
    ensures forall i :: 0 <= i < |p| ==> p[i] in run.jobs
  {
    hide StatusOk, ArtifactsOk, JobsOk, Settled;
  }

  lemma FallenAtEnd(run: RunRow, left: Jobs, js: set<string>, p: seq<string>)
    requires RunOk(run) && Fall(run.jobs, left, js) && FailureChain(run.decl, left, p)
    ensures p[|p| - 1] in js && run.jobs[p[0]].status.JobPending?
  {
    hide StatusOk, ArtifactsOk, JobsOk, ValidPipeline;
    var last, up := p[|p| - 1], p[|p| - 2];
    assert left[up].status.JobPending? && left[up] == run.jobs[up];
    assert last in run.decl[up].needs;
    assert !UpstreamFailed(run.decl, run.jobs, up);
  }

  /** When running jobs finish without passing, exactly their pending transitive dependents are blocked. */
  lemma BlocksExactlyDependents(run: RunRow, left: Jobs, js: set<string>, i: string)
    requires RunOk(run) && Fall(run.jobs, left, js) && js <= run.jobs.Keys && i in run.jobs
    ensures BlockAll(run.decl, left)[i] != left[i] <==> run.jobs[i].status.JobPending? && DependsOnSome(run.decl, i, js)
  {
    hide RunOk, Fall;
    SameKeys(run, left, js);
    BlocksExactly(run.decl, left, i);
    if BehindFailure(run.decl, left, i) {
      var p :| FailureChain(run.decl, left, p) && p[0] == i;
      FallenAtEnd(run, left, js, p);
      assert DependsOn(NeedsOf(run.decl), i, p[|p| - 1]);
    }
    if run.jobs[i].status.JobPending? && DependsOnSome(run.decl, i, js) {
      var j :| j in js && DependsOn(NeedsOf(run.decl), i, j);
      var p :| Chain(NeedsOf(run.decl), p) && |p| >= 2 && p[0] == i && p[|p| - 1] == j;
      ChainToFallen(run, left, js, p);
    }
  }

  lemma SameKeys(run: RunRow, left: Jobs, js: set<string>)
    requires RunOk(run) && Fall(run.jobs, left, js)
    ensures left.Keys == run.jobs.Keys == run.decl.Keys
  {
  }

  /** Reporting a job changes another exactly if the report is not PASSED and the other is a pending transitive dependent. */
  lemma CompletionBlocksExactly(run: RunRow, j: string, s: JobStatus, expiry: Time, i: string)
    requires RunOk(run) && j in run.jobs && run.jobs[j].status.JobRunning? && Reportable(s) && i in run.jobs && i != j
    ensures i in Completed(run, j, s, expiry).jobs
    ensures Completed(run, j, s, expiry).jobs[i] != run.jobs[i] <==>
      !s.JobPassed? && run.jobs[i].status.JobPending? && DependsOn(NeedsOf(run.decl), i, j)
  {
    hide RunOk, BlockAll, DependsOn;
    var left := run.jobs[j := run.jobs[j].(status := s, lease := None)];
    if !s.JobPassed? {
      assert Fall(run.jobs, left, {j});
      BlocksExactlyDependents(run, left, {j}, i);
      assert DependsOnSome(run.decl, i, {j}) <==> DependsOn(NeedsOf(run.decl), i, j);
    }
  }

  /** Losing leases changes a job that kept its own exactly if it is a pending transitive dependent of a lost one. */
  lemma AbortBlocksExactly(run: RunRow, js: set<string>, expiry: Time, i: string)
    requires RunOk(run) && js <= RunningIn(run.jobs) && i in run.jobs && i !in js
    ensures i in Aborted(run, js, expiry).jobs
    ensures Aborted(run, js, expiry).jobs[i] != run.jobs[i] <==> run.jobs[i].status.JobPending? && DependsOnSome(run.decl, i, js)
  {
    hide RunOk, BlockAll, DependsOn;
    if js != {} {
      var left := AbortIn(run.jobs, js);
      assert Fall(run.jobs, left, js);
      BlocksExactlyDependents(run, left, js, i);
    }
  }
}
