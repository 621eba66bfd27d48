/** Concrete executions in which a tempting claim about the lease protocol fails. */
module Findings {
  import opened Dag
  import opened Tables
  import opened Blocking
  import opened Runs
  import opened RunInvariant
  import opened Protocol
  import opened Executions
  import opened Liveness
  import opened Capacity

  ghost function Then(x: Execution, e: Event): Execution
    requires x.states != [] && Enabled(x.states[|x.states| - 1], e)
  {
    Execution(x.states + [Apply(x.states[|x.states| - 1], e)], x.events + [e])
  }

  ghost function Last(x: Execution): State
    requires x.states != []
  {
    x.states[|x.states| - 1]
  }

  lemma ThenValid(x: Execution, e: Event)
    requires Valid(x) && Enabled(Last(x), e)
    ensures Valid(Then(x, e)) && Last(Then(x, e)) == Apply(Last(x), e)
  {
    hide Enabled, Apply;
    var y := Then(x, e);
    forall i | 0 <= i < |y.events| ensures Step(y, i) {
      if i < |x.events| { assert Step(x, i); }
    }
  }

  const PLAIN := JobDecl([], false, [], [])
  const AFTER_A := JobDecl(["a"], false, [], [])

  lemma ChainOfTwo()
    ensures ValidPipeline(map["a" := PLAIN, "b" := AFTER_A])
  {
    hide Topological, Acyclic;
    var p: Pipeline := map["a" := PLAIN, "b" := AFTER_A];
    assert "a" in p;
    InOrder(NeedsOf(p));
    TopologicalIsAcyclic(NeedsOf(p), ["a", "b"]);
  }

  lemma InOrder(g: Needs)
    requires g == map["a" := [], "b" := ["a"]]
    ensures Topological(g, ["a", "b"])
  {
    assert ["a", "b"][..0] == [] && ["a", "b"][..1] == ["a"];
  }

  lemma SingleJob()
    ensures ValidPipeline(map["a" := PLAIN])
  {
    var p: Pipeline := map["a" := PLAIN];
    assert "a" in p;
    assert Topological(NeedsOf(p), ["a"]);
    TopologicalIsAcyclic(NeedsOf(p), ["a"]);
  }

  /** One runner, one run, its job "a" leased. */
  lemma Started(p: Pipeline) returns (x: Execution)
    requires ValidPipeline(p) && "a" in p && p["a"] == PLAIN
    ensures Valid(x)
    ensures
      var s := Last(x);
      && 0 in s.runs && s.now == 0 && s.retention == 0
      && s.runs[0] == Leased(NewRun(p, 1, 0), "a", Holding(0, 0, JOB_LEASE_TTL))
  {
    hide ValidPipeline;
    var s := Initial(0);
    x := Execution([s], []);
    ThenValid(x, Register(0, false, 1, 2));
    x := Then(x, Register(0, false, 1, 2));
    ThenValid(x, Submit(0, p, 1));
    x := Then(x, Submit(0, p, 1));
    var t := Last(x);
    assert RunningIn(t.runs[0].jobs) == {};
    assert ActiveJobs(t.runs, 0) == {};
    assert Admits(t, 0, 0, "a");
    ThenValid(x, Lease(0, 0, "a"));
    x := Then(x, Lease(0, 0, "a"));
  }

  /** A leaseholder that reports CANCELED on its own ends the run PASSED although its only job did not pass. */
  lemma CanceledReportPasses() returns (x: Execution)
    ensures Valid(x)
    ensures
      var s := Last(x);
      0 in s.runs && var run := s.runs[0]; run.status.RunPassed? && !run.cancelRequested && "a" in run.jobs && run.jobs["a"].status.JobCanceled?
  {
    hide ValidPipeline, Completed;
    SingleJob();
    x := Started(map["a" := PLAIN]);
    var o := Owner(0, "a", 0, 0, 1);
    ThenValid(x, Complete(o, JobCanceled));
    CancelingPasses(Last(x).runs[0], map["a" := PLAIN], Expiry(Last(x)));
    x := Then(x, Complete(o, JobCanceled));
  }

  lemma CancelingPasses(run: RunRow, p: Pipeline, expiry: Time)
    requires p == map["a" := PLAIN] && run == Leased(NewRun(p, 1, 0), "a", Holding(0, 0, JOB_LEASE_TTL))
    ensures
      var after := Completed(run, "a", JobCanceled, expiry);
      after.status.RunPassed? && !after.cancelRequested && "a" in after.jobs && after.jobs["a"].status.JobCanceled?
  {
    var left := run.jobs["a" := run.jobs["a"].(status := JobCanceled, lease := None)];
    assert Hits(run.decl, left) == {};
    assert BlockAll(run.decl, left) == left;
  }

  /** A running run touched by a newer pull request delivery stalls once its running jobs are done. */
  lemma SupersededRunStalls() returns (x: Execution)
    ensures Valid(x) && 0 in Last(x).runs && Stalled(Last(x).runs[0])
  {
    hide ValidPipeline, Completed, Stalled;
    ChainOfTwo();
    var p: Pipeline := map["a" := PLAIN, "b" := AFTER_A];
    x := Started(p);
    ThenValid(x, Supersede({0}));
    x := Then(x, Supersede({0}));
    var o := Owner(0, "a", 0, 0, 1);
    ThenValid(x, Complete(o, JobPassed));
    PassingLeavesStalled(Last(x).runs[0], p, Expiry(Last(x)));
    x := Then(x, Complete(o, JobPassed));
  }

  lemma PassingLeavesStalled(run: RunRow, p: Pipeline, expiry: Time)
    requires p == map["a" := PLAIN, "b" := AFTER_A]
    requires run == SupersededBy(Leased(NewRun(p, 1, 0), "a", Holding(0, 0, JOB_LEASE_TTL)))
    ensures Stalled(Completed(run, "a", JobPassed, expiry))
  {
    var after := Completed(run, "a", JobPassed, expiry);
    assert after.jobs["b"].status.JobPending?;
    assert RunningIn(after.jobs) == {};
  }

  lemma TwoJobs()
    ensures ValidPipeline(map["a" := PLAIN, "b" := PLAIN])
  {
    hide Topological, Acyclic;
    var p: Pipeline := map["a" := PLAIN, "b" := PLAIN];
    assert "a" in p;
    EitherOrder(NeedsOf(p));
    TopologicalIsAcyclic(NeedsOf(p), ["a", "b"]);
  }

  lemma EitherOrder(g: Needs)
    requires g == map["a" := [], "b" := []]
    ensures Topological(g, ["a", "b"])
  {
    assert ["a", "b"][..1] == ["a"];
  }

  /** One runner of capacity two and a run of two jobs. */
  lemma TwoOffered(p: Pipeline) returns (x: Execution)
    requires ValidPipeline(p)
    ensures Valid(x)
    ensures
      var s := Last(x);
      && s.now == 0 && s.runs == map[0 := NewRun(p, 2, 0)] && s.runners == map[0 := RunnerRow(false, 2, 2, true, 0)]
  {
    hide ValidPipeline;
    x := Execution([Initial(0)], []);
    ThenValid(x, Register(0, false, 2, 2));
    x := Then(x, Register(0, false, 2, 2));
    ThenValid(x, Submit(0, p, 2));
    x := Then(x, Submit(0, p, 2));
  }

  lemma OffersA(s: State, p: Pipeline)
    requires p == map["a" := PLAIN, "b" := PLAIN]
    requires s.runs == map[0 := NewRun(p, 2, 0)] && s.runners == map[0 := RunnerRow(false, 2, 2, true, 0)]
    ensures ActiveJobs(s.runs, 0) == {} && Admits(s, 0, 0, "a")
  {
    assert RunningIn(s.runs[0].jobs) == {};
    assert ActiveJobs(s.runs, 0) == {};
  }

  lemma OffersB(s: State, p: Pipeline, h: Holding)
    requires p == map["a" := PLAIN, "b" := PLAIN] && ActiveJobs(s.runs, 0) == {(0, "a")}
    requires s.runs == map[0 := Leased(NewRun(p, 2, 0), "a", h)] && s.runners == map[0 := RunnerRow(false, 2, 2, true, 0)]
    ensures Admits(s, 0, 0, "b")
  {
    hide ActiveJobs;
    assert RunningIn(s.runs[0].jobs) == {"a"};
  }

  /** Two jobs leased to one runner of capacity two. */
  lemma BothLeased() returns (x: Execution)
    ensures Valid(x) && 0 in Last(x).runners && ActiveJobs(Last(x).runs, 0) == {(0, "a"), (0, "b")}
  {
    hide ValidPipeline, ActiveJobs, Admits, NewRun, Leased;
    var p: Pipeline := map["a" := PLAIN, "b" := PLAIN];
    TwoJobs();
    x := TwoOffered(p);
    OffersA(Last(x), p);
    LeaseAddsOne(Last(x), 0, 0, "a");
    ThenValid(x, Lease(0, 0, "a"));
    var h := NewLease(Last(x), 0);
    x := Then(x, Lease(0, 0, "a"));
    OffersB(Last(x), p, h);
    LeaseAddsOne(Last(x), 0, 0, "b");
    ThenValid(x, Lease(0, 0, "b"));
    x := Then(x, Lease(0, 0, "b"));
  }

  /** A runner that registers again with a smaller capacity keeps more jobs than it now admits. */
  lemma LoweredCapacityIsExceeded() returns (x: Execution)
    ensures Valid(x) && 0 in Last(x).runners
    ensures |ActiveJobs(Last(x).runs, 0)| == 2 && Last(x).runners[0].capacity == 1 && !Within(Last(x), 0)
  {
    hide ActiveJobs;
    x := BothLeased();
    assert |{(0, "a"), (0, "b")}| == 2;
    ThenValid(x, Register(0, false, 1, 2));
    x := Then(x, Register(0, false, 1, 2));
  }
}
