/** One UPDATE, two views: supersession as the delivery tables see it is supersession as the lease protocol sees it. */
module Supersession {
  import opened Tables
  import opened Runs
  import opened RunInvariant
  import opened Protocol
  import opened Executions
  import opened Liveness
  import Deliveries

  /** The columns of a run that deliveries look at. */
  function Columns(run: RunRow): Deliveries.ScmRun {
    Deliveries.ScmRun(run.status, run.cancelRequested)
  }

  ghost predicate SameRuns(scm: Deliveries.Scm, s: State) {
    scm.runs == map r | r in s.runs :: Columns(s.runs[r])
  }

  /** The runs a delivery supersedes. */
  ghost function Affected(scm: Deliveries.Scm, s: State, a: Deliveries.Action): set<nat>
    requires a.Receive?
  {
    set r | r in s.runs && a.pull.Some? && (a.actionable || a.closed)
            && Deliveries.RunSuperseded(scm.triggers, r, a.repo, a.pull.value, a.commit, a.closed)
  }

  lemma RunAgrees(scm: Deliveries.Scm, s: State, repo: nat, pull: nat, commit: string, closed: bool, affected: set<nat>, r: nat)
    requires SameRuns(scm, s) && r in s.runs
    requires r in affected <==> Deliveries.RunSuperseded(scm.triggers, r, repo, pull, commit, closed)
    ensures r in scm.runs && Deliveries.CancelOlder(scm.runs, scm.triggers, repo, pull, commit, closed)[r] == Columns(SupersedeRuns(s, affected)[r])
  {
    hide Deliveries.RunSuperseded;
  }

  lemma UpdatesAgree(scm: Deliveries.Scm, s: State, repo: nat, pull: nat, commit: string, closed: bool, affected: set<nat>)
    requires SameRuns(scm, s)
    requires forall r :: r in s.runs ==> (r in affected <==> Deliveries.RunSuperseded(scm.triggers, r, repo, pull, commit, closed))
    ensures Deliveries.CancelOlder(scm.runs, scm.triggers, repo, pull, commit, closed) == map r | r in s.runs :: Columns(SupersedeRuns(s, affected)[r])
  {
    hide Deliveries.RunSuperseded, Columns;
    forall r | r in s.runs
      ensures Deliveries.CancelOlder(scm.runs, scm.triggers, repo, pull, commit, closed)[r] == Columns(SupersedeRuns(s, affected)[r])
    {
      RunAgrees(scm, s, repo, pull, commit, closed, affected, r);
    }
  }

  /** Receiving a delivery is the Supersede step on exactly the runs its triggers select. */
  lemma ReceiveIsSupersede(scm: Deliveries.Scm, s: State, a: Deliveries.Action, n: Deliveries.Scm, t: State)
    requires a.Receive? && Deliveries.Possible(scm, a) && n == Deliveries.Next(scm, a)
    requires t == Apply(s, Supersede(Affected(scm, s, a))) && SameRuns(scm, s)
    ensures SameRuns(n, t)
  {
    hide Deliveries.IgnoreOlder, Deliveries.RunSuperseded, Deliveries.CancelOlder, Deliveries.Possible, Deliveries.Next, SupersededBy, Columns;
    Deliveries.ReceiveIs(scm, a);
    if a.pull.Some? && (a.actionable || a.closed) {
      UpdatesAgree(scm, s, a.repo, a.pull.value, a.commit, a.closed, Affected(scm, s, a));
    } else {
      assert t.runs == s.runs;
    }
  }

  lemma SupersededRow(s: State, affected: set<nat>, r: nat, t: State)
    requires t == Apply(s, Supersede(affected)) && r in affected && r in s.runs && s.runs[r].status.RunRunning?
    ensures r in t.runs && t.runs[r].jobs == s.runs[r].jobs && t.runs[r].status.RunRunning? && t.runs[r].cancelRequested
  {
  }

  /** A running run that a delivery supersedes keeps its jobs, and is stalled as soon as none of them runs. */
  lemma SupersededStallsWhenIdle(s: State, affected: set<nat>, r: nat, t: State)
    requires t == Apply(s, Supersede(affected)) && r in affected && r in s.runs && s.runs[r].status.RunRunning?
    requires Inv(s)
    ensures r in t.runs && t.runs[r].jobs == s.runs[r].jobs && (Stalled(t.runs[r]) <==> RunningIn(s.runs[r].jobs) == {})
  {
    hide RunOk, LeasesIssued, Leasable, Apply;
    SupersededRow(s, affected, r, t);
    StepKeeps(s, Supersede(affected));
    assert RunOk(t.runs[r]);
    if RunningIn(t.runs[r].jobs) == {} {
      StalledIffCancelRequested(t.runs[r]);
    }
  }
}
