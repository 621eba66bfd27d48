/** What the table says about a runner, told by its registrations, its heartbeats and the sweeps. */
module RunnerLife {
  import opened Tables
  import opened Runs
  import opened RunInvariant
  import opened Protocol
  import opened Executions

  ghost predicate RegistersRunner(e: Event, runner: nat) {
    e.Register? && e.runner == runner
  }

  ghost predicate HearsFrom(e: Event, runner: nat) {
    RegistersRunner(e, runner) || (e.Seen? && e.runner == runner)
  }

  ghost predicate LastRegistration(x: Execution, i: nat, k: nat, runner: nat)
    requires k <= |x.events|
  {
    i < k && RegistersRunner(x.events[i], runner) && forall q :: i < q < k ==> !RegistersRunner(x.events[q], runner)
  }

  ghost predicate LastHeard(x: Execution, m: nat, k: nat, runner: nat)
    requires k <= |x.events|
  {
    m < k && HearsFrom(x.events[m], runner) && forall q :: m < q < k ==> !HearsFrom(x.events[q], runner)
  }

  /** A sweep found the runner silent for more than one lease period since `m`. */
  ghost predicate FoundSilent(x: Execution, m: nat, k: nat)
    requires m <= k <= |x.events| && |x.states| == |x.events| + 1
  {
    exists q :: m < q < k && x.events[q].Expire? && x.states[m].now + JOB_LEASE_TTL < x.states[q].now
  }

  /** What a transaction does to a runner's row. */
  lemma RunnerStep(s: State, e: Event, runner: nat)
    requires Enabled(s, e)
    ensures
      var t := Apply(s, e);
      && (runner in t.runners <==> runner in s.runners || RegistersRunner(e, runner))
      && (RegistersRunner(e, runner) ==> t.runners[runner] == RunnerRow(e.docker, e.capacity, e.protocol, true, s.now))
      && (runner in s.runners && !RegistersRunner(e, runner) ==>
            var a, b := s.runners[runner], t.runners[runner];
            if HearsFrom(e, runner) then b == a.(online := true, lastSeen := s.now)
            else b == a.(online := a.online && !(e.Expire? && a.lastSeen + JOB_LEASE_TTL < s.now)))
  {
    hide ValidPipeline, Leasable, Holds, ArtifactsCommitted, Completed, Aborted;
  }

  /** A runner's row, told by the transactions: the capabilities are those of its last registration, it was last seen when it last
      registered or sent a heartbeat, and it is online exactly if no sweep has found it silent since. */
  lemma {:induction false} RunnerFromHistory(x: Execution, k: nat, runner: nat) returns (i: nat, m: nat)
    requires Valid(x) && k < |x.states| && runner in x.states[k].runners
    ensures LastRegistration(x, i, k, runner) && LastHeard(x, m, k, runner)
    ensures
      x.states[k].runners[runner] ==
        RunnerRow(x.events[i].docker, x.events[i].capacity, x.events[i].protocol, !FoundSilent(x, m, k), x.states[m].now)
    decreases k
  {
    assert k > 0 by { assert x.states[0].runners == map[]; }
    assert Step(x, k - 1);
    RunnerStep(x.states[k - 1], x.events[k - 1], runner);
    hide Enabled, Apply;
    if RegistersRunner(x.events[k - 1], runner) {
      i, m := k - 1, k - 1;
    } else {
      i, m := RunnerFromHistory(x, k - 1, runner);
      hide Valid, Step, RegistersRunner, HearsFrom;
      if HearsFrom(x.events[k - 1], runner) {
        m := k - 1;
      } else {
        assert FoundSilent(x, m, k) <==>
          FoundSilent(x, m, k - 1) || (x.events[k - 1].Expire? && x.states[m].now + JOB_LEASE_TTL < x.states[k - 1].now);
      }
    }
  }

  /** A runner that registered stays known. */
  lemma {:induction false} RunnerKept(x: Execution, i: nat, k: nat, runner: nat)
    requires Valid(x) && i < k < |x.states| && RegistersRunner(x.events[i], runner)
    ensures runner in x.states[k].runners
    decreases k
  {
    assert Step(x, k - 1);
    RunnerStep(x.states[k - 1], x.events[k - 1], runner);
    hide Enabled, Apply;
    if i < k - 1 {
      RunnerKept(x, i, k - 1, runner);
    }
  }
}
