/**
 A runner's active jobs against its capacity, over whole executions. Nothing but a lease adds to the active jobs, and nothing
 but a registration changes the capacity; so the bound holds exactly as long as no registration asks for less than is running.
 */
module Capacity {
  import Dag
  import opened Tables
  import opened Runs
  import opened RunInvariant
  import opened RunOrder
  import opened Protocol
  import opened Executions

  ghost predicate Within(s: State, runner: nat) {
    runner in s.runners ==> |ActiveJobs(s.runs, runner)| <= s.runners[runner].capacity
  }

  predicate LeasesTo(e: Event, runner: nat) {
    e.Lease? && e.runner == runner
  }

  predicate Registers(e: Event, runner: nat) {
    e.Register? && e.runner == runner
  }

  ghost predicate Active(s: State, runner: nat, r: nat, j: string) {
    JobAt(s, r, j) && Row(s, r, j).status.JobRunning? && Row(s, r, j).lease.Some? && Row(s, r, j).lease.value.runner == runner
  }

  lemma ActiveIffListed(s: State, runner: nat, r: nat, j: string)
    ensures (r, j) in ActiveJobs(s.runs, runner) <==> Active(s, runner, r, j)
  {
  }

  /** A job active after a transaction that was no lease to its runner was active before it. */
  lemma ActiveBefore(x: Execution, k: nat, runner: nat, r: nat, j: string)
    requires Valid(x) && k < |x.events| && !LeasesTo(x.events[k], runner) && Active(x.states[k + 1], runner, r, j)
    ensures Active(x.states[k], runner, r, j)
  {
    hide Step, RunLater, NewLease;
    var i := LeaseOrigin(x, k + 1, r, j);
    LeaseEffect(x, i);
    RowLater(x, i + 1, k, r, j);
    RowLater(x, k, k + 1, r, j);
    LeaseIsToRunner(x.states[i], x.events[i].runner);
  }

  lemma LeaseIsToRunner(s: State, runner: nat)
    ensures NewLease(s, runner).runner == runner
  {
  }

  lemma NoGain(x: Execution, k: nat, runner: nat)
    requires Valid(x) && k < |x.events| && !LeasesTo(x.events[k], runner)
    ensures ActiveJobs(x.states[k + 1].runs, runner) <= ActiveJobs(x.states[k].runs, runner)
  {
    hide Step, ActiveJobs, Active;
    forall a | a in ActiveJobs(x.states[k + 1].runs, runner) ensures a in ActiveJobs(x.states[k].runs, runner) {
      ActiveIffListed(x.states[k + 1], runner, a.0, a.1);
      ActiveIffListed(x.states[k], runner, a.0, a.1);
      ActiveBefore(x, k, runner, a.0, a.1);
    }
  }

  lemma CapacityStep(x: Execution, k: nat, runner: nat)
    requires Valid(x) && k < |x.events|
    ensures Registers(x.events[k], runner) ==>
      && runner in x.states[k + 1].runners && x.states[k + 1].runners[runner].capacity == x.events[k].capacity
      && x.states[k + 1].runs == x.states[k].runs
    ensures !Registers(x.events[k], runner) && runner in x.states[k + 1].runners ==>
      runner in x.states[k].runners && x.states[k + 1].runners[runner].capacity == x.states[k].runners[runner].capacity
    ensures runner in x.states[k].runners ==> runner in x.states[k + 1].runners
  {
    assert Step(x, k);
  }

  /** One transaction breaks the bound exactly if it registers the runner with less than it is running. */
  lemma WithinStep(x: Execution, k: nat, runner: nat)
    requires Valid(x) && k < |x.events| && Within(x.states[k], runner)
    ensures Within(x.states[k + 1], runner) <==>
      (Registers(x.events[k], runner) ==> |ActiveJobs(x.states[k].runs, runner)| <= x.events[k].capacity)
  {
    hide Step, ActiveJobs;
    CapacityStep(x, k, runner);
    if LeasesTo(x.events[k], runner) {
      var h := LeaseFitsRunner(x, k);
    } else {
      NoGain(x, k, runner);
      Dag.SubsetSize(ActiveJobs(x.states[k + 1].runs, runner), ActiveJobs(x.states[k].runs, runner));
    }
  }

  /** Every registration so far asked for at least as much as the runner was running. */
  ghost predicate RegistrationsFit(x: Execution, k: nat, runner: nat)
    requires Valid(x) && k < |x.states|
  {
    forall m :: 0 <= m < k && Registers(x.events[m], runner) ==> |ActiveJobs(x.states[m].runs, runner)| <= x.events[m].capacity
  }

  ghost predicate WithinSoFar(x: Execution, k: nat, runner: nat)
    requires Valid(x) && k < |x.states|
  {
    forall m :: 0 <= m <= k ==> Within(x.states[m], runner)
  }

  /** Exactly when a runner stays within its capacity: the condition compares a registration with the tables it meets. */
  lemma {:induction false} WithinIffRegistrationsFit(x: Execution, k: nat, runner: nat)
    requires Valid(x) && k < |x.states|
    ensures WithinSoFar(x, k, runner) <==> RegistrationsFit(x, k, runner)
  {
    if k == 0 {
      assert Within(x.states[0], runner);
    } else {
      hide Step, ActiveJobs, Within;
      WithinIffRegistrationsFit(x, k - 1, runner);
      if WithinSoFar(x, k - 1, runner) {
        assert Within(x.states[k - 1], runner);
        WithinStep(x, k - 1, runner);
        assert WithinSoFar(x, k, runner) <==> Within(x.states[k], runner);
      } else {
        var m :| 0 <= m <= k - 1 && !Within(x.states[m], runner);
      }
    }
  }

  /** `i` is the last lease to the runner before `k`. */
  ghost predicate LastLease(x: Execution, i: nat, k: nat, runner: nat)
    requires Valid(x) && k < |x.states|
  {
    i < k && LeasesTo(x.events[i], runner) && forall m :: i < m < k ==> !LeasesTo(x.events[m], runner)
  }

  lemma {:induction false} ActiveShrinks(x: Execution, i: nat, k: nat, runner: nat)
    requires Valid(x) && i <= k < |x.states| && forall m :: i <= m < k ==> !LeasesTo(x.events[m], runner)
    ensures ActiveJobs(x.states[k].runs, runner) <= ActiveJobs(x.states[i].runs, runner)
    decreases k
  {
    if i < k {
      hide Step, ActiveJobs;
      ActiveShrinks(x, i, k - 1, runner);
      NoGain(x, k - 1, runner);
    }
  }

  /** What a runner is running never exceeds the capacity it had when it was last given a job. */
  lemma BoundedByLastLease(x: Execution, i: nat, k: nat, runner: nat)
    requires Valid(x) && k < |x.states| && LastLease(x, i, k, runner)
    ensures runner in x.states[i].runners && |ActiveJobs(x.states[k].runs, runner)| <= x.states[i].runners[runner].capacity
  {
    hide Step, ActiveJobs;
    var h := LeaseFitsRunner(x, i);
    ActiveShrinks(x, i + 1, k, runner);
    Dag.SubsetSize(ActiveJobs(x.states[k].runs, runner), ActiveJobs(x.states[i + 1].runs, runner));
  }

  /** A runner that was never given a job runs none; any other has a last lease. */
  lemma {:induction false} IdleOrLeased(x: Execution, k: nat, runner: nat) returns (i: nat)
    requires Valid(x) && k < |x.states|
    ensures ActiveJobs(x.states[k].runs, runner) == {} || LastLease(x, i, k, runner)
  {
    if k == 0 {
      i := 0;
    } else if LeasesTo(x.events[k - 1], runner) {
      i := k - 1;
    } else {
      hide Step, ActiveJobs;
      i := IdleOrLeased(x, k - 1, runner);
      NoGain(x, k - 1, runner);
    }
  }

  /** No registration between the two states asked for less than the capacity it replaced. */
  ghost predicate NeverLowered(x: Execution, i: nat, k: nat, runner: nat)
    requires Valid(x) && k < |x.states|
  {
    forall m :: i <= m < k && Registers(x.events[m], runner) && runner in x.states[m].runners ==>
      x.states[m].runners[runner].capacity <= x.events[m].capacity
  }

  lemma {:induction false} CapacityGrows(x: Execution, i: nat, k: nat, runner: nat)
    requires Valid(x) && i <= k < |x.states| && runner in x.states[i].runners && NeverLowered(x, i, k, runner)
    ensures runner in x.states[k].runners && x.states[i].runners[runner].capacity <= x.states[k].runners[runner].capacity
    decreases k
  {
    if i < k {
      hide Step;
      CapacityGrows(x, i, k - 1, runner);
      CapacityStep(x, k - 1, runner);
    }
  }

  /** Unless its capacity was lowered since it was last given a job, a runner is within it. */
  lemma WithinUnlessLowered(x: Execution, i: nat, k: nat, runner: nat)
    requires Valid(x) && k < |x.states| && LastLease(x, i, k, runner) && NeverLowered(x, i, k, runner)
    ensures Within(x.states[k], runner)
  {
    hide Step, ActiveJobs;
    BoundedByLastLease(x, i, k, runner);
    CapacityGrows(x, i, k, runner);
  }
}
