/**
 The two schedulers agree: on one compiled graph with the same job outcomes, and nothing canceled
 or lost, the lease protocol and the in-process event loop end in the same job states,
 whatever the completion order, the limits and the runners.
 */
module Agreement {
  import opened Dag
  import opened Tables
  import opened Blocking
  import opened Runs
  import opened RunInvariant
  import opened Protocol
  import opened Executions
  import Scheduler

  /** A job status of the lease protocol as the in-process scheduler would name it. */
  function StateOf(s: JobStatus): Scheduler.JobState {
    match s
    case JobPending => Scheduler.Pending
    case JobRunning => Scheduler.Running
    case JobPassed => Scheduler.Passed
    case JobBlocked => Scheduler.Blocked
    case JobFailed => Scheduler.Failed
    case _ => Scheduler.Canceled
  }

  ghost function StatesOf(run: RunRow): Scheduler.States {
    map j | j in run.jobs :: StateOf(run.jobs[j].status)
  }

  /** Leaves run `r` undisturbed: no cancellation, no lost lease, and completions that report the outcomes. */
  ghost predicate Undisturbed(s: State, e: Event, r: nat, passes: map<string, bool>) {
    match e
    case Complete(o, st) => o.run == r ==> o.job in passes && st == if passes[o.job] then JobPassed else JobFailed
    case CancelQueued(q) => q != r
    case RequestCancel(q) => q != r
    case Supersede(affected) => r !in affected
    case Expire => r in s.runs ==> ExpiredIn(s.runs[r].jobs, s.now) == {}
    case Recover => r in s.runs ==> RunningIn(s.runs[r].jobs) == {}
    case _ => true
  }

  ghost predicate FaithfulJob(row: JobRow, passes: bool) {
    match row.status
    case JobPassed => passes
    case JobFailed => !passes
    case JobPending => true
    case JobRunning => true
    case JobBlocked => true
    case _ => false
  }

  ghost predicate Faithful(run: RunRow, passes: map<string, bool>) {
    run.decl.Keys <= passes.Keys && run.jobs.Keys == run.decl.Keys && !run.cancelRequested &&
    forall j :: j in run.jobs ==> FaithfulJob(run.jobs[j], passes[j])
  }

  lemma CompletionIsFaithful(run: RunRow, j: string, s: JobStatus, expiry: Time, passes: map<string, bool>)
    requires Faithful(run, passes) && j in run.jobs && s == (if passes[j] then JobPassed else JobFailed)
    ensures Faithful(Completed(run, j, s, expiry), passes)
  {
    var after := Completed(run, j, s, expiry);
    forall i | i in after.jobs ensures i in run.jobs && FaithfulJob(after.jobs[i], passes[i]) {
      CompletedKeys(run, j, s, expiry);
      CompletedRows(run, j, s, expiry, i);
    }
    CompletedKeys(run, j, s, expiry);
  }

  lemma CompletedKeys(run: RunRow, j: string, s: JobStatus, expiry: Time)
    requires j in run.jobs
    ensures Completed(run, j, s, expiry).jobs.Keys == run.jobs.Keys
    ensures Completed(run, j, s, expiry).decl == run.decl
    ensures Completed(run, j, s, expiry).cancelRequested == run.cancelRequested
  {
  }

  lemma StepIsFaithful(s: State, e: Event, r: nat, passes: map<string, bool>)
    requires Enabled(s, e) && Undisturbed(s, e, r, passes)
    requires r in s.runs && Faithful(s.runs[r], passes)
    ensures r in Apply(s, e).runs && Faithful(Apply(s, e).runs[r], passes)
  {
    match e
    case Complete(o, st) =>
      if o.run == r {
        hide Completed, Faithful;
        assert o.job in s.runs[r].jobs;
        CompletionIsFaithful(s.runs[r], o.job, st, Expiry(s), passes);
      }
    case _ => hide Completed;
  }

  /** Throughout an undisturbed execution, finished jobs carry their own outcomes. */
  lemma {:induction false} FaithfulAt(x: Execution, k: nat, r: nat, passes: map<string, bool>)
    requires Valid(x) && k < |x.states| && r in x.states[k].runs && x.states[k].runs[r].decl.Keys <= passes.Keys
    requires forall i :: 0 <= i < k ==> Undisturbed(x.states[i], x.events[i], r, passes)
    ensures Faithful(x.states[k].runs[r], passes)
  {
    assert k > 0 by { assert x.states[0].runs == map[]; }
    assert Step(x, k - 1);
    var s, e := x.states[k - 1], x.events[k - 1];
    if r in s.runs {
      ReachableLater(x, k - 1, k);
      hide Enabled, Apply, Undisturbed;
      FaithfulAt(x, k - 1, r, passes);
      StepIsFaithful(s, e, r, passes);
    } else {
      OnlySubmitCreates(s, e, r);
    }
  }

  /** A finished, faithful run solves the equations the in-process scheduler solves. */
  lemma FinishedSolves(run: RunRow, passes: map<string, bool>)
    requires RunOk(run) && Faithful(run, passes) && AllFinished(run.jobs)
    ensures Scheduler.Solves(NeedsOf(run.decl), passes, StatesOf(run))
  {
    hide RunOk, Faithful, AllFinished;
    forall j | j in run.decl ensures SolvedAt(run, passes, j) {
      JobSolves(run, passes, j);
    }
    assert run.jobs.Keys == run.decl.Keys by { FaithfulKeys(run, passes); }
  }

  ghost predicate SolvedAt(run: RunRow, passes: map<string, bool>, j: string) {
    j in run.jobs && j in run.decl && j in passes &&
    StateOf(run.jobs[j].status) ==
      if Scheduler.AllPassed(run.decl[j].needs, StatesOf(run)) then (if passes[j] then Scheduler.Passed else Scheduler.Failed)
      else Scheduler.Blocked
  }

  lemma FaithfulKeys(run: RunRow, passes: map<string, bool>)
    requires Faithful(run, passes)
    ensures run.jobs.Keys == run.decl.Keys
  {
  }

  /** The states of a run's needs, as the equations see them. */
  lemma NeedsAsStates(run: RunRow, needs: seq<string>)
    requires forall d :: d in needs ==> d in run.jobs
    ensures Scheduler.AllPassed(needs, StatesOf(run)) <==> forall d :: d in needs ==> run.jobs[d].status.JobPassed?
  {
    var states := StatesOf(run);
    forall d | d in needs ensures d in states && (states[d].Passed? <==> run.jobs[d].status.JobPassed?) {
    }
    hide StatesOf;
  }

  lemma NeedsInJobs(run: RunRow, j: string)
    requires RunOk(run) && j in run.decl
    ensures j in run.jobs && forall d :: d in run.decl[j].needs ==> d in run.jobs
  {
    hide StatusOk, ArtifactsOk, Settled, JobsOk, Acyclic, ValidArtifacts;
    assert j in NeedsOf(run.decl);
    forall d | d in run.decl[j].needs ensures d in run.jobs {
      assert d in NeedsOf(run.decl)[j];
      assert d in NeedsOf(run.decl);
    }
  }

  lemma RanAfterNeeds(run: RunRow, j: string)
    requires RunOk(run) && j in run.jobs && j in run.decl && (run.jobs[j].status.JobPassed? || run.jobs[j].status.JobFailed?)
    ensures forall d :: d in run.decl[j].needs ==> d in run.jobs && run.jobs[d].status.JobPassed?
  {
    hide StatusOk, ArtifactsOk, Settled, BlockedHasCause, CanceledByRequest, Shape;
  }

  lemma BlockedByNeed(run: RunRow, j: string)
    requires RunOk(run) && j in run.jobs && j in run.decl && run.jobs[j].status.JobBlocked?
    ensures exists d :: d in run.decl[j].needs && d in run.jobs && !run.jobs[d].status.JobPassed?
  {
    hide StatusOk, ArtifactsOk, Settled, LeaseColumns, NeedsPassed, CanceledByRequest, Shape;
    assert UpstreamFailed(run.decl, run.jobs, j);
  }

  lemma JobSolves(run: RunRow, passes: map<string, bool>, j: string)
    requires RunOk(run) && Faithful(run, passes) && AllFinished(run.jobs) && j in run.decl
    ensures SolvedAt(run, passes, j)
  {
    hide RunOk, StatesOf, Scheduler.AllPassed;
    NeedsInJobs(run, j);
    NeedsAsStates(run, run.decl[j].needs);
    assert !Unfinished(run.jobs[j].status) && FaithfulJob(run.jobs[j], passes[j]);
    if run.jobs[j].status.JobBlocked? {
      BlockedByNeed(run, j);
    } else {
      RanAfterNeeds(run, j);
    }
  }

  /** Once an undisturbed run is terminal its job states are the unique solution for its graph and outcomes. */
  lemma RemoteSolves(x: Execution, k: nat, r: nat, passes: map<string, bool>)
    requires Valid(x) && k < |x.states| && r in x.states[k].runs && x.states[k].runs[r].decl.Keys <= passes.Keys
    requires forall i :: 0 <= i < k ==> Undisturbed(x.states[i], x.events[i], r, passes)
    requires AllFinished(x.states[k].runs[r].jobs)
    ensures Scheduler.Solves(NeedsOf(x.states[k].runs[r].decl), passes, StatesOf(x.states[k].runs[r]))
  {
    hide RunOk, Step, Undisturbed, LeasesIssued;
    ReachableInv(x, k);
    FaithfulAt(x, k, r, passes);
    FinishedSolves(x.states[k].runs[r], passes);
  }

  /** Running the same graph in process, with any limit, ends in the states the lease protocol ended in. */
  method RunInProcess(ghost x: Execution, ghost k: nat, ghost r: nat, g: Needs, order: seq<string>, maxParallel: int,
                      outcome: map<string, Scheduler.Outcome>)
    returns (result: Scheduler.Result, canceled: bool)
    requires Valid(x) && k < |x.states| && r in x.states[k].runs
    requires g == NeedsOf(x.states[k].runs[r].decl) && Topological(g, order) && Closed(g) && g.Keys <= outcome.Keys
    requires forall i :: 0 <= i < k ==>
      Undisturbed(x.states[i], x.events[i], r, map j | j in outcome :: outcome[j].passed)
    requires AllFinished(x.states[k].runs[r].jobs)
    ensures !canceled ==> result.states == StatesOf(x.states[k].runs[r])
  {
    ghost var passes := map j | j in outcome :: outcome[j].passed;
    var log;
    ghost var trace;
    result, log, canceled, trace := Scheduler.Run(g, order, maxParallel, outcome);
    if !canceled {
      RemoteSolves(x, k, r, passes);
      Scheduler.SolutionUnique(g, order, passes, result.states, StatesOf(x.states[k].runs[r]));
    }
  }
}
