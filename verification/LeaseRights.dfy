/** Who may do what, told by the transactions alone: exactly when a lease is held, a report accepted, a job given out. */
module LeaseRights {
  import opened Dag
  import opened Tables
  import opened Blocking
  import opened Runs
  import opened RunInvariant
  import opened RunOrder
  import opened Protocol
  import opened Executions
  import opened Provenance
  import opened ArtifactLife
  import opened RunnerLife

  /** Whoever passes the fence was given the lease it names. */
  lemma OwnerOrigin(x: Execution, k: nat, o: Owner) returns (i: nat)
    requires Valid(x) && k < |x.states| && Owns(x.states[k], o)
    ensures i < k && x.events[i] == Lease(o.runner, o.run, o.job) && o.lease == x.states[i].nextLease && o.generation == 1
  {
    hide Step;
    i := LeaseOrigin(x, k, o.run, o.job);
  }

  lemma DeclFrom(run: RunRow, decl: Pipeline, maxParallel: nat, at: Time)
    requires MadeFrom(run, decl, maxParallel, at)
    ensures run.decl == decl
  {
  }

  lemma StillRunning(x: Execution, k: nat, r: nat, j: string)
    requires Valid(x) && k < |x.states| && JobAt(x.states[k], r, j) && Row(x.states[k], r, j).status.JobRunning?
    ensures !WasLost(x, k, r, j) && forall st :: Reportable(st) ==> !WasReported(x, k, r, j, st)
  {
    hide Valid, WasLost, WasReported, WasLeased, WasGivenUp;
    StatusFromHistory(x, k, r, j);
  }

  // ----- Holding a lease -----

  ghost predicate WasGiven(x: Execution, k: nat, o: Owner)
    requires k <= |x.events| && |x.states| == |x.events| + 1
  {
    exists i :: 0 <= i < k && x.events[i] == Lease(o.runner, o.run, o.job) && o.lease == x.states[i].nextLease
  }

  ghost predicate WasCompleted(x: Execution, k: nat, r: nat, j: string)
    requires k <= |x.events|
  {
    exists i :: 0 <= i < k && ReportsJob(x.events[i], r, j)
  }

  ghost predicate StillGranted(x: Execution, k: nat, r: nat, j: string)
    requires k < |x.states| == |x.events| + 1
  {
    exists g :: 0 <= g < k && LastGrant(x, g, k, r, j) && x.states[k].now < x.states[g].now + JOB_LEASE_TTL
  }

  lemma NotCompleted(x: Execution, k: nat, r: nat, j: string)
    requires Valid(x) && k < |x.states|
    ensures WasCompleted(x, k, r, j) <==> exists st :: Reportable(st) && WasReported(x, k, r, j, st)
  {
    if i :| 0 <= i < k && ReportsJob(x.events[i], r, j) {
      assert Step(x, i);
      EnabledOnRow(x.states[i], x.events[i], r, j);
      hide Valid, Step;
      assert WasReported(x, k, r, j, x.events[i].status);
    }
  }

  /** A job that was leased was not given up. */
  lemma LeasedNotGivenUp(x: Execution, k: nat, r: nat, j: string)
    requires Valid(x) && k < |x.states| && WasLeased(x, k, r, j)
    ensures !WasGivenUp(x, k, r, j)
  {
    hide Step, RunLater;
    var i :| 0 <= i < k && LeasesJob(x.events[i], r, j);
    LeaseEffect(x, i);
    forall m | 0 <= m < k ensures !GivenUpAt(x, m, r, j) {
      if m > i {
        RowLater(x, i + 1, m, r, j);
      } else if GivenUpAt(x, m, r, j) {
        CanceledAfter(x, m, i, r, j);
      }
    }
  }

  lemma CanceledAfter(x: Execution, m: nat, i: nat, r: nat, j: string)
    requires Valid(x) && m <= i < |x.events| && GivenUpAt(x, m, r, j) && JobAt(x.states[i], r, j) && Row(x.states[i], r, j).status.JobPending?
    ensures m == i
  {
    hide Step, RunLater;
    RowStepAt(x, m, r, j);
    if m < i {
      RowLater(x, m + 1, i, r, j);
    }
  }

  lemma OnlyGrant(x: Execution, g: nat, h: nat, k: nat, r: nat, j: string)
    requires k <= |x.events| && LastGrant(x, g, k, r, j) && LastGrant(x, h, k, r, j)
    ensures g == h
  {
  }

  lemma LeasedIsRunning(x: Execution, k: nat, r: nat, j: string)
    requires Valid(x) && k < |x.states| && WasLeased(x, k, r, j) && !WasLost(x, k, r, j) && !WasCompleted(x, k, r, j)
    ensures JobAt(x.states[k], r, j) && Row(x.states[k], r, j).status.JobRunning?
  {
    hide Step, RunLater, WasLost, WasReported, WasGivenUp;
    var i :| 0 <= i < k && LeasesJob(x.events[i], r, j);
    LeaseEffect(x, i);
    RowLater(x, i + 1, k, r, j);
    StatusFromHistory(x, k, r, j);
    LeasedNotGivenUp(x, k, r, j);
    NotCompleted(x, k, r, j);
  }

  lemma OwnedIsGiven(x: Execution, k: nat, o: Owner)
    requires Valid(x) && k < |x.states| && Owns(x.states[k], o)
    ensures WasGiven(x, k, o) && o.generation == 1 && StillGranted(x, k, o.run, o.job)
    ensures !WasLost(x, k, o.run, o.job) && !WasCompleted(x, k, o.run, o.job)
  {
    hide Step, WasLost, WasReported, LastGrant;
    var i := OwnerOrigin(x, k, o);
    var g := LeaseFromHistory(x, k, o.run, o.job);
    GrantBefore(x, g, k, o.run, o.job);
    StillRunning(x, k, o.run, o.job);
    NotCompleted(x, k, o.run, o.job);
  }

  lemma GrantBefore(x: Execution, g: nat, k: nat, r: nat, j: string)
    requires k <= |x.events| && LastGrant(x, g, k, r, j)
    ensures g < k
  {
  }

  lemma GivenIsOwned(x: Execution, k: nat, o: Owner)
    requires Valid(x) && k < |x.states| && WasGiven(x, k, o) && o.generation == 1 && StillGranted(x, k, o.run, o.job)
    requires !WasLost(x, k, o.run, o.job) && !WasCompleted(x, k, o.run, o.job)
    ensures Owns(x.states[k], o)
  {
    hide Step, WasLost, WasCompleted, LastGrant;
    var i :| 0 <= i < k && x.events[i] == Lease(o.runner, o.run, o.job) && o.lease == x.states[i].nextLease;
    assert LeasesJob(x.events[i], o.run, o.job);
    LeasedIsRunning(x, k, o.run, o.job);
    var first := LeaseOrigin(x, k, o.run, o.job);
    if first < i { LeasedAtMostOnce(x, first, i); }
    if i < first { LeasedAtMostOnce(x, i, first); }
    var g :| 0 <= g < k && LastGrant(x, g, k, o.run, o.job) && x.states[k].now < x.states[g].now + JOB_LEASE_TTL;
    var h := LeaseFromHistory(x, k, o.run, o.job);
    OnlyGrant(x, g, h, k, o.run, o.job);
  }

  /** Exactly who holds a lease: whoever was given it, as long as nobody reported the job, it was not lost, and no full period has passed since
      it was given or renewed. */
  lemma OwnsIff(x: Execution, k: nat, o: Owner)
    requires Valid(x) && k < |x.states|
    ensures Owns(x.states[k], o) <==>
      && WasGiven(x, k, o) && o.generation == 1 && StillGranted(x, k, o.run, o.job)
      && !WasLost(x, k, o.run, o.job) && !WasCompleted(x, k, o.run, o.job)
  {
    hide Step, Owns, WasGiven, StillGranted, WasLost, WasCompleted;
    if Owns(x.states[k], o) { OwnedIsGiven(x, k, o); }
    if && WasGiven(x, k, o) && o.generation == 1 && StillGranted(x, k, o.run, o.job)
       && !WasLost(x, k, o.run, o.job) && !WasCompleted(x, k, o.run, o.job) {
      GivenIsOwned(x, k, o);
    }
  }

  // ----- Reporting -----

  ghost predicate WasCommitted(x: Execution, k: nat, r: nat, p: string, n: string)
    requires k <= |x.events|
  {
    exists c :: 0 <= c < k && CommitsArtifact(x.events[c], r, p, n)
  }

  lemma StoredIffCommitted(x: Execution, k: nat, r: nat, p: string, n: string)
    requires Valid(x) && k < |x.states| && r in x.states[k].runs
    ensures (p, n) in x.states[k].runs[r].artifacts <==> WasCommitted(x, k, r, p, n)
  {
    hide Step;
    if (p, n) in x.states[k].runs[r].artifacts {
      var c := ArtifactOrigin(x, k, r, p, n);
    }
    if c :| 0 <= c < k && CommitsArtifact(x.events[c], r, p, n) {
      ArtifactKept(x, c, k, p, n);
    }
  }

  lemma RunningKeepsArtifacts(s: State, o: Owner, n: string)
    requires Inv(s) && Owns(s, o) && (o.job, n) in s.runs[o.run].artifacts
    ensures !s.runs[o.run].artifacts[(o.job, n)].deleted && o.job in s.runs[o.run].decl && Declares(s.runs[o.run].decl[o.job], n)
  {
    hide LeasesIssued, Settled, NeedsPassed, BlockedHasCause, CanceledByRequest, ArtifactsPresent, Declares;
    RunningRun(s.runs[o.run], o.job);
    assert ArtifactsOwned(s.runs[o.run]) && ArtifactsLive(s.runs[o.run]);
  }

  lemma CommittedIff(x: Execution, k: nat, o: Owner)
    requires Valid(x) && k < |x.states| && Owns(x.states[k], o) && o.job in x.states[k].runs[o.run].decl
    ensures ArtifactsCommitted(x.states[k].runs[o.run], o.job) <==>
      forall n :: Declares(x.states[k].runs[o.run].decl[o.job], n) ==> WasCommitted(x, k, o.run, o.job, n)
  {
    hide Step, Owns, Declares, WasCommitted, Inv;
    ReachableInv(x, k);
    OwnedRun(x.states[k], o);
    var run := x.states[k].runs[o.run];
    forall n ensures (o.job, n) in run.artifacts <==> WasCommitted(x, k, o.run, o.job, n) {
      StoredIffCommitted(x, k, o.run, o.job, n);
    }
    forall n | (o.job, n) in run.artifacts ensures !run.artifacts[(o.job, n)].deleted && Declares(run.decl[o.job], n) {
      RunningKeepsArtifacts(x.states[k], o, n);
    }
  }

  lemma OwnedRun(s: State, o: Owner)
    requires Owns(s, o)
    ensures o.run in s.runs && o.job in s.runs[o.run].jobs
  {
  }

  /** Exactly which reports are accepted: PASSED, FAILED, ERROR or CANCELED, from the holder of the lease, and PASSED only once every
      artifact the submission declares for the job was committed. */
  lemma ReportAcceptedIff(x: Execution, k: nat, o: Owner, st: JobStatus) returns (h: nat)
    requires Valid(x) && k < |x.states| && Owns(x.states[k], o)
    ensures h < k && x.events[h].Submit? && x.events[h].run == o.run && o.job in x.events[h].decl
    ensures Enabled(x.states[k], Complete(o, st)) <==>
      && (st == JobPassed || st == JobFailed || st == JobError || st == JobCanceled)
      && (st == JobPassed ==> forall n :: Declares(x.events[h].decl[o.job], n) ==> WasCommitted(x, k, o.run, o.job, n))
  {
    hide Step, Owns, Declares, WasCommitted, ArtifactsCommitted;
    OwnedRun(x.states[k], o);
    h := RunOrigin(x, k, o.run);
    CommittedIff(x, k, o);
  }

  /** Exactly which commits add artifacts: for the holder of the lease, metadata for just the artifacts the submission declares, the first
      time. */
  lemma CommitAcceptedIff(x: Execution, k: nat, o: Owner, items: map<string, Meta>) returns (h: nat)
    requires Valid(x) && k < |x.states| && Owns(x.states[k], o)
    ensures h < k && x.events[h].Submit? && x.events[h].run == o.run && o.job in x.events[h].decl
    ensures Enabled(x.states[k], CommitArtifacts(o, items)) <==>
      (forall n :: n in items <==> Declares(x.events[h].decl[o.job], n)) && forall n :: !WasCommitted(x, k, o.run, o.job, n)
  {
    hide Step, Owns, Declares, WasCommitted;
    OwnedRun(x.states[k], o);
    h := RunOrigin(x, k, o.run);
    HolderRuns(x, k, o);
    forall n ensures (o.job, n) in x.states[k].runs[o.run].artifacts <==> WasCommitted(x, k, o.run, o.job, n) {
      StoredIffCommitted(x, k, o.run, o.job, n);
    }
  }

  lemma HolderRuns(x: Execution, k: nat, o: Owner)
    requires Valid(x) && k < |x.states| && Owns(x.states[k], o)
    ensures x.states[k].runs[o.run].status.RunRunning?
  {
    ReachableInv(x, k);
    hide Valid, RunOk, LeasesIssued;
    RunningRun(x.states[k].runs[o.run], o.job);
  }

  // ----- Canceling -----

  /** Exactly which cancellations are accepted: of a queued run as long as none of its jobs was leased, of a running one as long as some job
      is unfinished, and never of one superseded before it started. */
  lemma CancelAcceptedIff(x: Execution, k: nat, r: nat)
    requires Valid(x) && k < |x.states| && r in x.states[k].runs
    ensures
      var open := !AllFinished(x.states[k].runs[r].jobs) && !QueuedSuperseded(x, k, r);
      && (Enabled(x.states[k], CancelQueued(r)) <==> open && !SomeLeased(x, k, r))
      && (Enabled(x.states[k], RequestCancel(r)) <==> open && SomeLeased(x, k, r))
  {
    hide Step, SomeLeased, QueuedSuperseded, AllFinished, ByPrecedence;
    RunStatusFromHistory(x, k, r);
  }

  // ----- Giving out jobs -----

  ghost predicate Running(x: Execution, k: nat, runner: nat, r: nat, j: string)
    requires k <= |x.events| && |x.states| == |x.events| + 1
  {
    && (exists i :: 0 <= i < k && x.events[i] == Lease(runner, r, j))
    && !WasLost(x, k, r, j) && !WasCompleted(x, k, r, j)
  }

  /** A runner's active jobs are exactly those leased to it that were neither reported nor lost. */
  lemma ActiveIff(x: Execution, k: nat, runner: nat, r: nat, j: string)
    requires Valid(x) && k < |x.states|
    ensures (r, j) in ActiveJobs(x.states[k].runs, runner) <==> Running(x, k, runner, r, j)
  {
    hide Step, WasLost, WasCompleted;
    if (r, j) in ActiveJobs(x.states[k].runs, runner) {
      var i := LeaseOrigin(x, k, r, j);
      StillRunning(x, k, r, j);
      NotCompleted(x, k, r, j);
      assert x.events[i] == Lease(runner, r, j);
    }
    if Running(x, k, runner, r, j) {
      var i :| 0 <= i < k && x.events[i] == Lease(runner, r, j);
      assert LeasesJob(x.events[i], r, j);
      LeasedIsRunning(x, k, r, j);
      var first := LeaseOrigin(x, k, r, j);
      if first < i { LeasedAtMostOnce(x, first, i); }
      if i < first { LeasedAtMostOnce(x, i, first); }
    }
  }

  /** Exactly when a runner has room: it registered, last for protocol 2, no sweep has found it silent since it was last heard of, and it runs
      fewer jobs than that registration allows. */
  lemma FreeIff(x: Execution, k: nat, runner: nat) returns (i: nat, m: nat)
    requires Valid(x) && k < |x.states| && runner in x.states[k].runners
    ensures LastRegistration(x, i, k, runner) && LastHeard(x, m, k, runner)
    ensures Free(x.states[k], runner) <==>
      x.events[i].protocol == 2 && !FoundSilent(x, m, k) && |ActiveJobs(x.states[k].runs, runner)| < x.events[i].capacity
  {
    hide Step, ActiveJobs, FoundSilent;
    i, m := RunnerFromHistory(x, k, runner);
  }
}
