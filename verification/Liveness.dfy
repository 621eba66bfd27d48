/** No run gets stuck, and no run changes forever; the one exception is a superseded run. */
module Liveness {
  import opened Dag
  import opened Tables
  import opened Blocking
  import opened Runs
  import opened RunInvariant
  import opened RunOrder
  import opened Protocol
  import opened Executions

  /** Nothing will ever happen to this run by itself: no job runs and no runner could lease one. */
  ghost predicate Stalled(run: RunRow) {
    !Terminal(run.status) && RunningIn(run.jobs) == {} && forall j :: !Leasable(run, j, true)
  }

  /** A first pending job: everything it needs is finished, hence passed. */
  lemma FirstPending(run: RunRow) returns (j: string)
    requires RunOk(run) && RunningIn(run.jobs) == {} && !AllFinished(run.jobs)
    ensures j in run.jobs && run.jobs[j].status.JobPending? && AllPassed(run.jobs, run.decl[j].needs)
  {
    hide StatusOk, ArtifactsOk, LeaseColumns, NeedsPassed, BlockedHasCause, CanceledByRequest;
    var pending := PendingIn(run.jobs);
    assert pending != {} by {
      var u :| u in run.jobs && Unfinished(run.jobs[u].status);
      assert u !in RunningIn(run.jobs);
      assert u in pending;
    }
    j := AcyclicHasMinimal(NeedsOf(run.decl), pending);
    forall d | d in run.decl[j].needs ensures d in run.jobs && run.jobs[d].status.JobPassed? {
      assert j in NeedsOf(run.decl) && d in NeedsOf(run.decl)[j];
      assert d in NeedsOf(run.decl);
      assert d in run.jobs && d !in pending && d !in RunningIn(run.jobs);
      assert !UpstreamFailed(run.decl, run.jobs, j);
    }
  }

  /** An unfinished run with no running job stalls exactly when its cancellation was requested. */
  lemma StalledIffCancelRequested(run: RunRow)
    requires RunOk(run) && !Terminal(run.status) && RunningIn(run.jobs) == {}
    ensures Stalled(run) <==> run.cancelRequested
    ensures run.cancelRequested ==> run.superseded
  {
    VerdictIsTerminal(run.cancelRequested, run.jobs);
    var j := FirstPending(run);
    hide Settled, ArtifactsOk, LeaseColumns, NeedsPassed, BlockedHasCause, CanceledByRequest;
    if !run.cancelRequested {
      assert Leasable(run, j, true);
    }
  }

  /** In every reachable state an unfinished, never superseded run has a running job, or a pending one
      that the lease query admits for any free runner able to run it. */
  lemma NeverStuck(x: Execution, i: nat, r: nat) returns (j: string)
    requires Valid(x) && i < |x.states| && r in x.states[i].runs
    requires !Terminal(x.states[i].runs[r].status) && !x.states[i].runs[r].superseded
    ensures j in x.states[i].runs[r].jobs
    ensures
      var row := x.states[i].runs[r].jobs[j];
      || row.status.JobRunning?
      || (row.status.JobPending? && forall runner ::
            Free(x.states[i], runner) && (x.states[i].runners[runner].docker || !row.image) ==> Admits(x.states[i], runner, r, j))
  {
    var s := x.states[i];
    var run := s.runs[r];
    ReachableInv(x, i);
    assert RunOk(run);
    hide Inv, RunOk, Valid;
    if RunningIn(run.jobs) != {} {
      j :| j in RunningIn(run.jobs);
    } else {
      StalledIffCancelRequested(run);
      j :| Leasable(run, j, true);
    }
  }

  // ----- Superseded runs -----

  lemma RowKept(s: State, e: Event, r: nat)
    requires Inv(s) && Enabled(s, e) && r in s.runs && Stalled(s.runs[r]) && s.runs[r].status.RunRunning?
    requires e != RequestCancel(r)
    ensures r in Apply(s, e).runs
    ensures
      var run, after := s.runs[r], Apply(s, e).runs[r];
      after.jobs == run.jobs && after.status == run.status && (run.cancelRequested ==> after.cancelRequested)
  {
    hide RunOk, LeasesIssued;
    var run := s.runs[r];
    match e
    case Lease(runner, q, j) =>
      assert q == r ==> Leasable(run, j, true);
    case Renew(o) => assert o.run == r ==> o.job in RunningIn(run.jobs);
    case Complete(o, _) => assert o.run == r ==> o.job in RunningIn(run.jobs);
    case CommitArtifacts(o, _) => assert o.run == r ==> o.job in RunningIn(run.jobs);
    case Expire => assert ExpiredIn(run.jobs, s.now) <= RunningIn(run.jobs);
    case _ =>
  }

  lemma StalledIsRunning(run: RunRow)
    requires RunOk(run) && Stalled(run)
    ensures run.status.RunRunning? && run.cancelRequested
  {
    StalledIffCancelRequested(run);
    assert StatusOk(run);
  }

  lemma CancelFinishesIdle(run: RunRow, expiry: Time)
    requires run.status.RunRunning? && RunningIn(run.jobs) == {}
    ensures Terminal(CancelAsked(run, expiry).status)
  {
    var jobs := CancelPending(run.jobs);
    forall j | j in jobs ensures !Unfinished(jobs[j].status) {
      assert j !in RunningIn(run.jobs);
    }
    VerdictIsTerminal(true, jobs);
  }

  lemma CanceledStaysStalled(run: RunRow, after: RunRow)
    requires Stalled(run) && after.jobs == run.jobs && after.status == run.status && after.cancelRequested
    ensures Stalled(after)
  {
  }

  /** A stalled run stays as it is under every transaction but one: an explicit cancellation,
      which finishes it at once. */
  lemma OnlyCancelUnstalls(s: State, e: Event, r: nat)
    requires Inv(s) && Enabled(s, e) && r in s.runs && Stalled(s.runs[r])
    ensures r in Apply(s, e).runs
    ensures e != RequestCancel(r) ==> Stalled(Apply(s, e).runs[r]) && Apply(s, e).runs[r].jobs == s.runs[r].jobs
    ensures e == RequestCancel(r) ==> Terminal(Apply(s, e).runs[r].status)
  {
    hide RunOk, LeasesIssued, Leasable, Enabled, CancelAsked;
    StalledIsRunning(s.runs[r]);
    CancelFinishesIdle(s.runs[r], Expiry(s));
    if e != RequestCancel(r) {
      RowKept(s, e, r);
      hide Apply;
      CanceledStaysStalled(s.runs[r], Apply(s, e).runs[r]);
    }
  }

  // ----- Bounded change -----

  ghost predicate Moves(x: Execution, i: nat, r: nat)
    requires |x.states| == |x.events| + 1 && i < |x.events|
  {
    r in x.states[i].runs && r in x.states[i + 1].runs &&
    SomeStatusDiffers(x.states[i].runs[r].jobs, x.states[i + 1].runs[r].jobs)
  }

  /** How many transactions between `i` and `k` changed some job status of run `r`. */
  ghost function MoveCount(x: Execution, i: nat, k: nat, r: nat): nat
    requires |x.states| == |x.events| + 1 && i <= k < |x.states|
    decreases k
  {
    if i == k then 0 else MoveCount(x, i, k - 1, r) + if Moves(x, k - 1, r) then 1 else 0
  }

  /** Every job transition uses up weight, so a run of n jobs sees at most 2n of them. */
  lemma {:induction false} MovesAreBounded(x: Execution, i: nat, k: nat, r: nat)
    requires Valid(x) && i <= k < |x.states| && r in x.states[i].runs
    ensures r in x.states[k].runs
    ensures MoveCount(x, i, k, r) + Weight(x.states[k].runs[r].jobs) <= Weight(x.states[i].runs[r].jobs)
    decreases k
  {
    if i < k {
      hide Step, JobLater, Weight;
      MovesAreBounded(x, i, k - 1, r);
      ReachableLater(x, k - 1, k);
      WeightFalls(x.states[k - 1].runs[r].jobs, x.states[k].runs[r].jobs);
    }
  }

  lemma NewRunWeight(decl: Pipeline)
    ensures Weight(NewJobs(decl)) == 2 * |decl|
  {
    assert PendingIn(NewJobs(decl)) == decl.Keys;
    assert RunningIn(NewJobs(decl)) == {};
  }
}
