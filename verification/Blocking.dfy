/** Failure propagation: `blockDependents` and what it leaves behind. */
module Blocking {
  import opened Dag
  import opened Tables

  type Jobs = map<string, JobRow>

  predicate UpstreamFailed(decl: Pipeline, jobs: Jobs, j: string) {
    j in decl && exists d | d in decl[j].needs :: d in jobs && Failing(jobs[d].status)
  }

  function PendingIn(jobs: Jobs): set<string> {
    set j | j in jobs && jobs[j].status.JobPending?
  }

  predicate Hit(decl: Pipeline, jobs: Jobs, j: string)
    requires j in jobs
  {
    jobs[j].status.JobPending? && UpstreamFailed(decl, jobs, j)
  }

  /** One UPDATE: every pending job with a failed dependency becomes blocked. */
  function BlockRound(decl: Pipeline, jobs: Jobs): Jobs {
    map j | j in jobs :: if Hit(decl, jobs, j) then jobs[j].(status := JobBlocked) else jobs[j]
  }

  function Hits(decl: Pipeline, jobs: Jobs): set<string> {
    set j | j in jobs && Hit(decl, jobs, j)
  }

  lemma RoundShrinks(decl: Pipeline, jobs: Jobs)
    requires Hits(decl, jobs) != {}
    ensures |PendingIn(BlockRound(decl, jobs))| < |PendingIn(jobs)|
  {
    var after := PendingIn(BlockRound(decl, jobs));
    assert after !! Hits(decl, jobs);
    assert PendingIn(jobs) == after + Hits(decl, jobs);
  }

  /** The rounds repeated until one changes no row. */
  function BlockAll(decl: Pipeline, jobs: Jobs): (r: Jobs)
    ensures r.Keys == jobs.Keys
    decreases |PendingIn(jobs)|
  {
    if Hits(decl, jobs) == {} then jobs
    else
      RoundShrinks(decl, jobs);
      BlockAll(decl, BlockRound(decl, jobs))
  }

  /** `after` differs from `before` only in pending jobs turned blocked. */
  ghost predicate OnlyBlocks(before: Jobs, after: Jobs) {
    && after.Keys == before.Keys
    && (forall j :: j in before ==>
          || after[j] == before[j]
          || (before[j].status.JobPending? && after[j] == before[j].(status := JobBlocked)))
  }

  lemma RoundOnlyBlocks(decl: Pipeline, jobs: Jobs)
    ensures OnlyBlocks(jobs, BlockRound(decl, jobs))
  {
  }

  lemma FailureLasts(decl: Pipeline, before: Jobs, after: Jobs, j: string)
    requires OnlyBlocks(before, after) && UpstreamFailed(decl, before, j)
    ensures UpstreamFailed(decl, after, j)
  {
    var d :| d in decl[j].needs && d in before && Failing(before[d].status);
    assert d in after && Failing(after[d].status);
  }

  ghost predicate BlockedByFailure(decl: Pipeline, before: Jobs, after: Jobs) {
    forall j :: j in before && j in after && after[j] != before[j] ==> UpstreamFailed(decl, after, j)
  }

  ghost predicate Settled(decl: Pipeline, jobs: Jobs) {
    forall j :: j in jobs && jobs[j].status.JobPending? ==> !UpstreamFailed(decl, jobs, j)
  }

  /** The loop only blocks pending jobs, each with a failed dependency, and stops
      when no pending job has one. */
  lemma {:induction false} BlockAllSettles(decl: Pipeline, jobs: Jobs)
    ensures OnlyBlocks(jobs, BlockAll(decl, jobs))
    ensures BlockedByFailure(decl, jobs, BlockAll(decl, jobs))
    ensures Settled(decl, BlockAll(decl, jobs))
    decreases |PendingIn(jobs)|
  {
    if Hits(decl, jobs) == {} {
      forall j | j in jobs && jobs[j].status.JobPending? ensures !UpstreamFailed(decl, jobs, j) {
        assert j !in Hits(decl, jobs);
      }
    } else {
      var round := BlockRound(decl, jobs);
      RoundShrinks(decl, jobs);
      BlockAllSettles(decl, round);
      var after := BlockAll(decl, round);
      RoundOnlyBlocks(decl, jobs);
      forall j | j in jobs && after[j] != jobs[j] ensures UpstreamFailed(decl, after, j) {
        if round[j] != jobs[j] {
          FailureLasts(decl, jobs, round, j);
          FailureLasts(decl, round, after, j);
        }
      }
    }
  }

  /** A chain of needs from `j` through pending jobs to one that finished without passing. */
  ghost predicate FailureChain(decl: Pipeline, jobs: Jobs, p: seq<string>) {
    && Chain(NeedsOf(decl), p)
    && |p| >= 2
    && (forall i :: 0 <= i < |p| ==> p[i] in jobs)
    && (forall i :: 0 <= i < |p| - 1 ==> jobs[p[i]].status.JobPending?)
    && Failing(jobs[p[|p| - 1]].status)
  }

  ghost predicate BehindFailure(decl: Pipeline, jobs: Jobs, j: string) {
    exists p :: FailureChain(decl, jobs, p) && p[0] == j
  }

  /** A chain that ends in a job this round blocked extends to the failure that blocked it. */
  lemma ChainBeforeRound(decl: Pipeline, jobs: Jobs, p: seq<string>)
    requires jobs.Keys == decl.Keys && FailureChain(decl, BlockRound(decl, jobs), p)
    ensures BehindFailure(decl, jobs, p[0])
  {
    var last := p[|p| - 1];
    if Failing(jobs[last].status) {
      assert FailureChain(decl, jobs, p);
    } else {
      var d :| d in decl[last].needs && d in jobs && Failing(jobs[d].status);
      var q := p + [d];
      assert FailureChain(decl, jobs, q) && q[0] == p[0];
    }
  }

  lemma {:induction false} ChainIsBlocked(decl: Pipeline, jobs: Jobs, after: Jobs, p: seq<string>)
    requires jobs.Keys == decl.Keys && OnlyBlocks(jobs, after) && Settled(decl, after) && FailureChain(decl, jobs, p)
    ensures after[p[0]].status.JobBlocked?
  {
    var d := p[1];
    if |p| > 2 {
      assert FailureChain(decl, jobs, p[1..]);
      ChainIsBlocked(decl, jobs, after, p[1..]);
    }
    assert d in decl[p[0]].needs && d in after && Failing(after[d].status);
    assert UpstreamFailed(decl, after, p[0]);
  }

  lemma {:induction false} BlockedIsBehindFailure(decl: Pipeline, jobs: Jobs, j: string)
    requires jobs.Keys == decl.Keys && j in jobs && BlockAll(decl, jobs)[j] != jobs[j]
    ensures BehindFailure(decl, jobs, j)
    decreases |PendingIn(jobs)|
  {
    if Hit(decl, jobs, j) {
      var d :| d in decl[j].needs && d in jobs && Failing(jobs[d].status);
      assert FailureChain(decl, jobs, [j, d]);
    } else {
      var round := BlockRound(decl, jobs);
      RoundShrinks(decl, jobs);
      BlockedIsBehindFailure(decl, round, j);
      var p :| FailureChain(decl, round, p) && p[0] == j;
      ChainBeforeRound(decl, jobs, p);
    }
  }

  /** `blockDependents` blocks exactly the pending jobs that reach, through pending jobs,
      a job that finished without passing. */
  lemma BlocksExactly(decl: Pipeline, jobs: Jobs, j: string)
    requires jobs.Keys == decl.Keys && j in jobs
    ensures BlockAll(decl, jobs)[j] != jobs[j] <==> BehindFailure(decl, jobs, j)
  {
    if BlockAll(decl, jobs)[j] != jobs[j] {
      BlockedIsBehindFailure(decl, jobs, j);
    }
    if BehindFailure(decl, jobs, j) {
      var p :| FailureChain(decl, jobs, p) && p[0] == j;
      BlockAllSettles(decl, jobs);
      ChainIsBlocked(decl, jobs, BlockAll(decl, jobs), p);
    }
  }

  /** `blockDependents`: UPDATE until no row is affected. */
  method BlockDependents(decl: Pipeline, jobs: Jobs) returns (r: Jobs)
    ensures r == BlockAll(decl, jobs)
  {
    r := jobs;
    var affected := Hits(decl, r);
    while affected != {}
      invariant affected == Hits(decl, r)
      invariant BlockAll(decl, r) == BlockAll(decl, jobs)
      decreases |PendingIn(r)|
    {
      RoundShrinks(decl, r);
      r := BlockRound(decl, r);
      affected := Hits(decl, r);
    }
  }
}
