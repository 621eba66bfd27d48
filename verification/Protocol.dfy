/**
 The remote job-lease protocol: every transaction of the control plane is one atomic
 step over the tables, taken at the time shown by one shared clock.
 */
module Protocol {
  import opened Dag
  import opened Tables
  import opened Blocking
  import opened Runs
  import opened RunInvariant
  import opened RunOrder

  /** Thirty seconds, in milliseconds. */
  const JOB_LEASE_TTL: nat := 30_000

  /** `nextLease` stands for the supply of fresh lease ids. */
  datatype State = State(runs: map<nat, RunRow>, runners: map<nat, RunnerRow>, now: Time, nextLease: nat, retention: nat)

  datatype Owner = Owner(run: nat, job: string, runner: nat, lease: nat, generation: nat)

  /** The transactions that succeed; a rejected one leaves the tables as they were. */
  datatype Event =
    | Tick(elapsed: nat)
    | Register(runner: nat, docker: bool, capacity: nat, protocol: nat)
    | Submit(run: nat, decl: Pipeline, maxParallel: nat)
    | Lease(runner: nat, run: nat, job: string)
    | Seen(runner: nat)
    | Renew(owner: Owner)
    | Complete(owner: Owner, status: JobStatus)
    | Expire
    | Recover
    | CancelQueued(run: nat)
    | RequestCancel(run: nat)
    | Supersede(affected: set<nat>)
    | CommitArtifacts(owner: Owner, items: map<string, Meta>)
    | ExpireArtifacts

  function ActiveJobs(runs: map<nat, RunRow>, runner: nat): set<(nat, string)> {
    set r, j | r in runs && j in runs[r].jobs && runs[r].jobs[j].status.JobRunning?
               && runs[r].jobs[j].lease.Some? && runs[r].jobs[j].lease.value.runner == runner :: (r, j)
  }

  /** The runner-level guards of `LeaseJob`. */
  predicate Free(s: State, runner: nat) {
    && runner in s.runners && s.runners[runner].protocol == 2 && s.runners[runner].online
    && |ActiveJobs(s.runs, runner)| < s.runners[runner].capacity
  }

  predicate Admits(s: State, runner: nat, run: nat, job: string) {
    Free(s, runner) && run in s.runs && Leasable(s.runs[run], job, s.runners[runner].docker)
  }

  predicate Owns(s: State, o: Owner) {
    o.run in s.runs && Holds(s.runs[o.run], o.job, o.runner, o.lease, o.generation, s.now)
  }

  ghost predicate Enabled(s: State, e: Event) {
    match e
    case Tick(_) => true
    case Register(_, _, capacity, _) => capacity > 0
    case Submit(r, decl, maxParallel) => r !in s.runs && ValidPipeline(decl) && maxParallel > 0
    case Lease(runner, r, j) => Admits(s, runner, r, j)
    case Seen(runner) => runner in s.runners
    case Renew(o) => Owns(s, o)
    case Complete(o, st) => Owns(s, o) && Reportable(st) && (st.JobPassed? ==> ArtifactsCommitted(s.runs[o.run], o.job))
    case Expire => true
    case Recover => true
    case CancelQueued(r) => r in s.runs && s.runs[r].status.RunQueued?
    case RequestCancel(r) => r in s.runs && s.runs[r].status.RunRunning?
    case Supersede(_) => true
    case CommitArtifacts(o, items) =>
      && Owns(s, o) && s.runs[o.run].status.RunRunning? && o.job in s.runs[o.run].decl
      && (forall n :: n in items <==> Declares(s.runs[o.run].decl[o.job], n))
      && (forall n :: (o.job, n) !in s.runs[o.run].artifacts)
    case ExpireArtifacts => true
  }

  function Expiry(s: State): Time {
    s.now + s.retention
  }

  function NewLease(s: State, runner: nat): Holding {
    Holding(runner, s.nextLease, s.now + JOB_LEASE_TTL)
  }

  function WithRun(s: State, r: nat, run: RunRow): State {
    s.(runs := s.runs[r := run])
  }

  function ExpireRuns(s: State): map<nat, RunRow> {
    map r | r in s.runs :: Aborted(s.runs[r], ExpiredIn(s.runs[r].jobs, s.now), Expiry(s))
  }

  function RecoverRuns(s: State): map<nat, RunRow> {
    map r | r in s.runs :: Aborted(s.runs[r], RunningIn(s.runs[r].jobs), Expiry(s))
  }

  function SupersedeRuns(s: State, affected: set<nat>): map<nat, RunRow> {
    map r | r in s.runs :: if r in affected && !Terminal(s.runs[r].status) then SupersededBy(s.runs[r]) else s.runs[r]
  }

  function SweepRuns(s: State): map<nat, RunRow> {
    map r | r in s.runs :: Swept(s.runs[r], s.now)
  }

  function SilentOffline(s: State): map<nat, RunnerRow> {
    map x | x in s.runners ::
      if s.runners[x].lastSeen + JOB_LEASE_TTL < s.now then s.runners[x].(online := false) else s.runners[x]
  }

  ghost function Apply(s: State, e: Event): State
    requires Enabled(s, e)
  {
    match e
    case Tick(elapsed) => s.(now := s.now + elapsed)
    case Register(runner, docker, capacity, protocol) =>
      s.(runners := s.runners[runner := RunnerRow(docker, capacity, protocol, true, s.now)])
    case Submit(r, decl, maxParallel) => WithRun(s, r, NewRun(decl, maxParallel, s.now))
    case Lease(runner, r, j) =>
      WithRun(s, r, Leased(s.runs[r], j, NewLease(s, runner))).(nextLease := s.nextLease + 1)
    case Seen(runner) => s.(runners := s.runners[runner := s.runners[runner].(online := true, lastSeen := s.now)])
    case Renew(o) => WithRun(s, o.run, Renewed(s.runs[o.run], o.job, s.now + JOB_LEASE_TTL))
    case Complete(o, st) => WithRun(s, o.run, Completed(s.runs[o.run], o.job, st, Expiry(s)))
    case Expire => s.(runs := ExpireRuns(s), runners := SilentOffline(s))
    case Recover => s.(runs := RecoverRuns(s))
    case CancelQueued(r) => WithRun(s, r, QueuedCanceled(s.runs[r]))
    case RequestCancel(r) => WithRun(s, r, CancelAsked(s.runs[r], Expiry(s)))
    case Supersede(affected) => s.(runs := SupersedeRuns(s, affected))
    case CommitArtifacts(o, items) => WithRun(s, o.run, Inserted(s.runs[o.run], o.job, items))
    case ExpireArtifacts => s.(runs := SweepRuns(s))
  }

  ghost function Initial(retention: nat): State {
    State(map[], map[], 0, 0, retention)
  }

  // ----- Invariant -----

  /** Leases in force carry an issued id and never outlast one period from now. */
  ghost predicate LeasesIssued(run: RunRow, s: State) {
    forall j :: j in run.jobs && run.jobs[j].lease.Some? ==>
      run.jobs[j].lease.value.id < s.nextLease && run.jobs[j].lease.value.expires <= s.now + JOB_LEASE_TTL
  }

  ghost predicate Inv(s: State) {
    forall r :: r in s.runs ==> RunOk(s.runs[r]) && LeasesIssued(s.runs[r], s)
  }

  /** Later in time, with every run moved forward. */
  ghost predicate StateLater(a: State, b: State) {
    && a.now <= b.now && a.nextLease <= b.nextLease && a.retention == b.retention
    && (forall r :: r in a.runs ==> r in b.runs && RunLater(a.runs[r], b.runs[r]))
  }

  /** What one run looks like after a step on it: still sound, and later. */
  ghost predicate Follows(a: RunRow, b: RunRow, s: State) {
    RunOk(b) && RunLater(a, b) && LeasesIssued(b, s)
  }

  /** Issued leases stay issued when no row gains or renews a lease. */
  lemma LeasesRemain(a: RunRow, b: RunRow, s: State)
    requires LeasesIssued(a, s) && a.jobs.Keys == b.jobs.Keys
    requires forall j :: j in b.jobs && b.jobs[j].lease.Some? ==> b.jobs[j].lease == a.jobs[j].lease
    ensures LeasesIssued(b, s)
  {
  }

  lemma StayFollows(run: RunRow, s: State)
    requires RunOk(run) && LeasesIssued(run, s)
    ensures Follows(run, run, s)
  {
    RunLaterReflexive(run);
  }

  lemma BlockingDropsNoLease(decl: Pipeline, before: Jobs)
    ensures forall j :: j in before ==> BlockAll(decl, before)[j].lease == before[j].lease
  {
    BlockAllSettles(decl, before);
  }

  lemma LeaseFollows(s: State, runner: nat, r: nat, j: string)
    requires Inv(s) && Admits(s, runner, r, j)
    ensures Follows(s.runs[r], Leased(s.runs[r], j, NewLease(s, runner)), s.(nextLease := s.nextLease + 1))
  {
    hide RunOk, RunLater;
    var docker := s.runners[runner].docker;
    LeaseKeeps(s.runs[r], j, docker, NewLease(s, runner));
    LeaseIsLater(s.runs[r], j, docker, NewLease(s, runner));
  }

  lemma RenewFollows(s: State, o: Owner)
    requires Inv(s) && Owns(s, o)
    ensures Follows(s.runs[o.run], Renewed(s.runs[o.run], o.job, s.now + JOB_LEASE_TTL), s)
  {
    hide RunOk, RunLater;
    RenewKeeps(s.runs[o.run], o.job, s.now + JOB_LEASE_TTL);
    RenewIsLater(s.runs[o.run], o.job, s.now + JOB_LEASE_TTL);
  }

  lemma CompleteFollows(s: State, o: Owner, st: JobStatus)
    requires o.run in s.runs && o.job in s.runs[o.run].jobs && Inv(s) && Enabled(s, Complete(o, st))
    ensures Follows(s.runs[o.run], Completed(s.runs[o.run], o.job, st, Expiry(s)), s)
  {
    hide RunOk, RunLater, Completed, LeasesIssued;
    var run := s.runs[o.run];
    CompleteKeeps(run, o.job, st, Expiry(s));
    CompleteIsLater(run, o.job, st, Expiry(s));
    CompleteDropsLease(run, o.job, st, Expiry(s));
    LeasesRemain(run, Completed(run, o.job, st, Expiry(s)), s);
  }

  lemma CompleteDropsLease(run: RunRow, j: string, st: JobStatus, expiry: Time)
    requires j in run.jobs
    ensures
      var after := Completed(run, j, st, expiry).jobs;
      after.Keys == run.jobs.Keys && forall i :: i in after && after[i].lease.Some? ==> after[i].lease == run.jobs[i].lease
  {
    BlockingDropsNoLease(run.decl, run.jobs[j := run.jobs[j].(status := st, lease := None)]);
    hide BlockAll;
  }

  lemma AbortFollows(s: State, run: RunRow, js: set<string>)
    requires RunOk(run) && LeasesIssued(run, s) && js <= RunningIn(run.jobs)
    ensures Follows(run, Aborted(run, js, Expiry(s)), s)
  {
    hide RunOk, RunLater, Aborted, LeasesIssued;
    AbortKeeps(run, js, Expiry(s));
    AbortIsLater(run, js, Expiry(s));
    AbortDropsLeases(run, js, Expiry(s));
    LeasesRemain(run, Aborted(run, js, Expiry(s)), s);
  }

  lemma AbortDropsLeases(run: RunRow, js: set<string>, expiry: Time)
    ensures
      var after := Aborted(run, js, expiry).jobs;
      after.Keys == run.jobs.Keys && forall j :: j in after && after[j].lease.Some? ==> after[j].lease == run.jobs[j].lease
  {
    BlockingDropsNoLease(run.decl, AbortIn(run.jobs, js));
    hide BlockAll;
  }

  lemma CancelFollows(s: State, run: RunRow)
    requires RunOk(run) && LeasesIssued(run, s)
    ensures run.status.RunRunning? ==> Follows(run, CancelAsked(run, Expiry(s)), s)
    ensures run.status.RunQueued? ==> Follows(run, QueuedCanceled(run), s)
    ensures !Terminal(run.status) ==> Follows(run, SupersededBy(run), s)
  {
    hide RunOk, RunLater;
    if run.status.RunRunning? {
      CancelAskedKeeps(run, Expiry(s));
      CancelAskedIsLater(run, Expiry(s));
      LeasesRemain(run, CancelAsked(run, Expiry(s)), s);
    }
    if run.status.RunQueued? {
      CancelQueuedKeeps(run);
      CancelQueuedIsLater(run);
    }
    if !Terminal(run.status) {
      SupersedeKeeps(run);
      SupersedeIsLater(run);
    }
  }

  lemma ArtifactStepsFollow(s: State, run: RunRow)
    requires RunOk(run) && LeasesIssued(run, s)
    ensures Follows(run, Swept(run, s.now), s)
  {
    hide RunOk, RunLater;
    SweepKeeps(run, s.now);
    SweepIsLater(run, s.now);
  }

  lemma CommitFollows(s: State, o: Owner, items: map<string, Meta>)
    requires Inv(s) && Enabled(s, CommitArtifacts(o, items))
    ensures Follows(s.runs[o.run], Inserted(s.runs[o.run], o.job, items), s)
  {
    hide RunOk, RunLater;
    InsertKeeps(s.runs[o.run], o.job, items);
    InsertIsLater(s.runs[o.run], o.job, items);
  }

  /** Replacing each run by one that follows it keeps the invariant and moves the state forward. */
  lemma FollowingState(s: State, t: State)
    requires Inv(s) && s.now <= t.now && s.nextLease <= t.nextLease && s.retention == t.retention
    requires s.runs.Keys == t.runs.Keys
    requires forall r :: r in s.runs ==> Follows(s.runs[r], t.runs[r], t)
    ensures Inv(t) && StateLater(s, t)
  {
    hide RunOk, RunLater;
  }

  lemma OneRunFollows(s: State, r: nat, run: RunRow, nextLease: nat)
    requires Inv(s) && r in s.runs && s.nextLease <= nextLease
    requires Follows(s.runs[r], run, s.(nextLease := nextLease))
    ensures Inv(WithRun(s, r, run).(nextLease := nextLease)) && StateLater(s, WithRun(s, r, run).(nextLease := nextLease))
  {
    hide RunOk, RunLater;
    var t := WithRun(s, r, run).(nextLease := nextLease);
    forall x | x in s.runs ensures Follows(s.runs[x], t.runs[x], t) {
      if x != r {
        StayFollows(s.runs[x], t);
      }
    }
    FollowingState(s, t);
  }

  lemma SameRunsFollow(s: State, t: State)
    requires Inv(s) && t.runs == s.runs && s.now <= t.now && t.nextLease == s.nextLease && t.retention == s.retention
    ensures Inv(t) && StateLater(s, t)
  {
    hide RunOk, RunLater;
    forall x | x in s.runs ensures Follows(s.runs[x], t.runs[x], t) {
      StayFollows(s.runs[x], t);
    }
    FollowingState(s, t);
  }

  lemma SubmitFollows(s: State, r: nat, decl: Pipeline, maxParallel: nat)
    requires Inv(s) && Enabled(s, Submit(r, decl, maxParallel))
    ensures Inv(WithRun(s, r, NewRun(decl, maxParallel, s.now))) && StateLater(s, WithRun(s, r, NewRun(decl, maxParallel, s.now)))
  {
    hide RunOk, RunLater;
    NewRunOk(decl, maxParallel, s.now);
    forall x | x in s.runs ensures Follows(s.runs[x], s.runs[x], s) {
      StayFollows(s.runs[x], s);
    }
  }

  lemma EveryRunFollows(s: State, e: Event)
    requires Inv(s) && Enabled(s, e) && (e.Expire? || e.Recover? || e.Supersede? || e.ExpireArtifacts?)
    ensures Inv(Apply(s, e)) && StateLater(s, Apply(s, e))
  {
    hide RunOk, RunLater;
    var t := Apply(s, e);
    forall x | x in s.runs ensures Follows(s.runs[x], t.runs[x], t) {
      StayFollows(s.runs[x], s);
      match e
      case Expire => AbortFollows(s, s.runs[x], ExpiredIn(s.runs[x].jobs, s.now));
      case Recover => AbortFollows(s, s.runs[x], RunningIn(s.runs[x].jobs));
      case Supersede(_) => CancelFollows(s, s.runs[x]);
      case ExpireArtifacts => ArtifactStepsFollow(s, s.runs[x]);
    }
    FollowingState(s, t);
  }

  /** Every transaction keeps the invariant on every run and only moves rows forward. */
  lemma StepKeeps(s: State, e: Event)
    requires Inv(s) && Enabled(s, e)
    ensures Inv(Apply(s, e)) && StateLater(s, Apply(s, e))
  {
    hide RunOk, LeasesIssued, StateLater, Follows;
    match e
    case Tick(_) => SameRunsFollow(s, Apply(s, e));
    case Register(_, _, _, _) => SameRunsFollow(s, Apply(s, e));
    case Seen(_) => SameRunsFollow(s, Apply(s, e));
    case Submit(r, decl, maxParallel) => SubmitFollows(s, r, decl, maxParallel);
    case Lease(runner, r, j) =>
      LeaseFollows(s, runner, r, j);
      OneRunFollows(s, r, Leased(s.runs[r], j, NewLease(s, runner)), s.nextLease + 1);
    case Renew(o) =>
      RenewFollows(s, o);
      OneRunFollows(s, o.run, Renewed(s.runs[o.run], o.job, s.now + JOB_LEASE_TTL), s.nextLease);
    case Complete(o, st) =>
      CompleteFollows(s, o, st);
      OneRunFollows(s, o.run, Completed(s.runs[o.run], o.job, st, Expiry(s)), s.nextLease);
    case CancelQueued(r) =>
      CancelFollows(s, s.runs[r]);
      OneRunFollows(s, r, QueuedCanceled(s.runs[r]), s.nextLease);
    case RequestCancel(r) =>
      CancelFollows(s, s.runs[r]);
      OneRunFollows(s, r, CancelAsked(s.runs[r], Expiry(s)), s.nextLease);
    case CommitArtifacts(o, items) =>
      CommitFollows(s, o, items);
      OneRunFollows(s, o.run, Inserted(s.runs[o.run], o.job, items), s.nextLease);
    case Expire => EveryRunFollows(s, e);
    case Recover => EveryRunFollows(s, e);
    case Supersede(_) => EveryRunFollows(s, e);
    case ExpireArtifacts => EveryRunFollows(s, e);
  }
}
