/**
 Long polling for work without losing a wake-up. A poller takes the manager's current signal channel, asks for a lease,
 and parks on that channel if there is none; a commit that can create work is followed by a Notify, which closes the
 current channel and opens a new one, unless a delivery worker fails in between. Any number of pollers and notifiers
 interleave.
 */
module Wakeup {
  import opened Dag
  import opened Tables
  import opened Blocking
  import opened Runs
  import opened RunInvariant
  import opened Protocol

  /** A poller that has fetched its channel, or one parked on it; `docker` and `capacity` are what its lease query read.
      `missed` records the runs created since then that no Notify follows; no action reads it. */
  datatype Poller =
    | Fetched(runner: nat, channel: nat)
    | Parked(runner: nat, channel: nat, docker: bool, capacity: nat, missed: set<nat>)

  /** Channels are numbered: `channel` is open and all smaller ones are closed. `due` counts commits not yet notified. */
  datatype Board = Board(s: State, channel: nat, due: nat, pollers: map<nat, Poller>)

  /** `SubmitQuietly` is a delivery worker that creates a run and then fails to complete the delivery; `NotifyAgain` a Notify
      that follows no commit, as when a worker finds the run already there. */
  datatype Action =
    | Transact(event: Event)
    | SubmitQuietly(run: nat, decl: Pipeline, maxParallel: nat)
    | Notify
    | NotifyAgain
    | Fetch(poller: nat, runner: nat)
    | FindNothing(poller: nat)
    | Leave(poller: nat)

  /** Transactions whose callers notify after the commit. */
  predicate Notifies(e: Event) {
    e.Submit? || e.Lease? || e.Complete? || e.RequestCancel? || e.Expire?
  }

  /** Some job could be leased by a runner with these capabilities, from a run not in `except`. */
  ghost predicate WorkFor(s: State, runner: nat, docker: bool, capacity: nat, except: set<nat>) {
    |ActiveJobs(s.runs, runner)| < capacity && exists r, j :: r in s.runs && r !in except && Leasable(s.runs[r], j, docker)
  }

  ghost predicate Possible(b: Board, a: Action) {
    match a
    case Transact(e) => Enabled(b.s, e) && (e.Recover? ==> b.pollers == map[])
    case SubmitQuietly(r, decl, maxParallel) => Enabled(b.s, Submit(r, decl, maxParallel))
    case Notify => b.due > 0
    case NotifyAgain => true
    case Fetch(p, _) => p !in b.pollers
    case FindNothing(p) =>
      && p in b.pollers && b.pollers[p].Fetched? && b.pollers[p].runner in b.s.runners
      && (forall r: nat, j :: !Admits(b.s, b.pollers[p].runner, r, j))
      && b.s.runners[b.pollers[p].runner].protocol == 2 && b.s.runners[b.pollers[p].runner].online
    case Leave(p) => true
  }

  function Misses(p: Poller, r: nat): Poller {
    if p.Parked? then p.(missed := p.missed + {r}) else p
  }

  ghost function Next(b: Board, a: Action): Board
    requires Possible(b, a)
  {
    match a
    case Transact(e) => b.(s := Apply(b.s, e), due := b.due + if Notifies(e) then 1 else 0)
    case SubmitQuietly(r, decl, maxParallel) =>
      b.(s := Apply(b.s, Submit(r, decl, maxParallel)), pollers := map p | p in b.pollers :: Misses(b.pollers[p], r))
    case Notify => b.(channel := b.channel + 1, due := b.due - 1)
    case NotifyAgain => b.(channel := b.channel + 1)
    case Fetch(p, runner) => b.(pollers := b.pollers[p := Fetched(runner, b.channel)])
    case FindNothing(p) =>
      var runner := b.pollers[p].runner;
      b.(pollers := b.pollers[p := Parked(runner, b.pollers[p].channel, b.s.runners[runner].docker, b.s.runners[runner].capacity, {})])
    case Leave(p) => b.(pollers := b.pollers - {p})
  }

  /** There is work for a parked poller beyond the runs it missed. */
  ghost predicate WorkBeyond(s: State, p: Poller)
    requires p.Parked?
  {
    WorkFor(s, p.runner, p.docker, p.capacity, p.missed)
  }

  /** A parked poller for which there is such work has its channel closed already, or a Notify is on its way. */
  ghost predicate PollerOk(b: Board, p: Poller) {
    && p.channel <= b.channel
    && (p.Parked? && WorkBeyond(b.s, p) ==> p.channel < b.channel || b.due > 0)
  }

  ghost predicate BoardOk(b: Board) {
    forall p :: p in b.pollers ==> PollerOk(b, b.pollers[p])
  }

  // ----- Silent transactions create no work -----

  lemma SilentLeasable(s: State, e: Event, t: State, r: nat, j: string, docker: bool)
    requires Enabled(s, e) && t == Apply(s, e) && !Notifies(e) && !e.Recover?
    requires r in t.runs && Leasable(t.runs[r], j, docker)
    ensures r in s.runs && Leasable(s.runs[r], j, docker)
  {
    match e
    case Renew(o) =>
      if o.run == r {
        assert RunningIn(t.runs[r].jobs) == RunningIn(s.runs[r].jobs);
      }
    case _ =>
  }

  lemma SilentActive(s: State, e: Event, t: State, runner: nat)
    requires Enabled(s, e) && t == Apply(s, e) && !Notifies(e) && !e.Recover?
    ensures ActiveJobs(t.runs, runner) == ActiveJobs(s.runs, runner)
  {
    forall r: nat, j ensures (r, j) in ActiveJobs(t.runs, runner) <==> (r, j) in ActiveJobs(s.runs, runner) {
      SilentActiveAt(s, e, t, runner, r, j);
    }
  }

  lemma SilentActiveAt(s: State, e: Event, t: State, runner: nat, r: nat, j: string)
    requires Enabled(s, e) && t == Apply(s, e) && !Notifies(e) && !e.Recover?
    ensures (r, j) in ActiveJobs(t.runs, runner) <==> (r, j) in ActiveJobs(s.runs, runner)
  {
  }

  lemma SilentWork(s: State, e: Event, t: State, p: Poller)
    requires Enabled(s, e) && t == Apply(s, e) && !Notifies(e) && !e.Recover? && p.Parked?
    requires WorkBeyond(t, p)
    ensures WorkBeyond(s, p)
  {
    hide Enabled, Apply, Leasable;
    SilentActive(s, e, t, p.runner);
    var r, j :| r in t.runs && r !in p.missed && Leasable(t.runs[r], j, p.docker);
    SilentLeasable(s, e, t, r, j, p.docker);
  }

  lemma SubmitActive(s: State, e: Event, t: State, runner: nat)
    requires e.Submit? && Enabled(s, e) && t == Apply(s, e)
    ensures ActiveJobs(t.runs, runner) == ActiveJobs(s.runs, runner)
    ensures forall r :: r in t.runs && r != e.run ==> r in s.runs && t.runs[r] == s.runs[r]
  {
    hide ValidPipeline;
  }

  /** A run created without a Notify brings a parked poller no work but in that run. */
  lemma QuietWork(s: State, e: Event, t: State, p: Poller)
    requires e.Submit? && Enabled(s, e) && t == Apply(s, e) && p.Parked?
    requires WorkBeyond(t, Misses(p, e.run))
    ensures WorkBeyond(s, p)
  {
    hide Enabled, Apply, Leasable, ActiveJobs;
    SubmitActive(s, e, t, p.runner);
    var r, j :| r in t.runs && r !in p.missed + {e.run} && Leasable(t.runs[r], j, p.docker);
    assert Leasable(s.runs[r], j, p.docker);
  }

  lemma NothingFound(b: Board, p: nat)
    requires Possible(b, FindNothing(p))
    ensures
      var runner := b.pollers[p].runner;
      !WorkFor(b.s, runner, b.s.runners[runner].docker, b.s.runners[runner].capacity, {})
  {
    var runner := b.pollers[p].runner;
    var row := b.s.runners[runner];
    if WorkFor(b.s, runner, row.docker, row.capacity, {}) {
      var r, j :| r in b.s.runs && Leasable(b.s.runs[r], j, row.docker);
      assert Admits(b.s, runner, r, j);
    }
  }

  lemma ActionKeeps(b: Board, a: Action, n: Board)
    requires Possible(b, a) && n == Next(b, a)
    requires BoardOk(b)
    ensures BoardOk(n)
  {
    hide WorkFor, Enabled, Apply, Admits;
    forall p | p in n.pollers ensures PollerOk(n, n.pollers[p]) {
      if p in b.pollers {
        assert PollerOk(b, b.pollers[p]);
      }
      match a
      case Transact(e) =>
        var poller := b.pollers[p];
        if !Notifies(e) && poller.Parked? && WorkBeyond(n.s, poller) {
          SilentWork(b.s, e, n.s, poller);
        }
      case SubmitQuietly(r, decl, maxParallel) =>
        var poller := b.pollers[p];
        if poller.Parked? && WorkBeyond(n.s, Misses(poller, r)) {
          QuietWork(b.s, Submit(r, decl, maxParallel), n.s, poller);
        }
      case FindNothing(q) => NothingFound(b, q);
      case _ =>
    }
  }

  // ----- Whole histories -----

  datatype History = History(boards: seq<Board>, actions: seq<Action>)

  ghost predicate Happens(h: History) {
    && |h.boards| == |h.actions| + 1 && h.boards[0].pollers == map[]
    && (forall i :: 0 <= i < |h.actions| ==> Occurs(h, i))
  }

  ghost predicate Occurs(h: History, i: nat)
    requires i < |h.actions| && |h.boards| == |h.actions| + 1
  {
    Possible(h.boards[i], h.actions[i]) && h.boards[i + 1] == Next(h.boards[i], h.actions[i])
  }

  lemma {:induction false} HistoryOk(h: History, k: nat)
    requires Happens(h) && k < |h.boards|
    ensures BoardOk(h.boards[k])
  {
    if k > 0 {
      hide BoardOk, Possible, Next;
      HistoryOk(h, k - 1);
      assert Occurs(h, k - 1);
      ActionKeeps(h.boards[k - 1], h.actions[k - 1], h.boards[k]);
    } else {
      assert BoardOk(h.boards[0]);
    }
  }

  /** No lost wake-up: whenever a parked runner, with the capabilities its own query read, could be given a job from a run that
      it did not miss, it has been woken or is about to be. */
  lemma NoLostWakeup(h: History, k: nat, p: nat)
    requires Happens(h) && k < |h.boards| && p in h.boards[k].pollers && h.boards[k].pollers[p].Parked?
    ensures
      var b, poller := h.boards[k], h.boards[k].pollers[p];
      WorkBeyond(b.s, poller) ==> poller.channel < b.channel || b.due > 0
  {
    hide Occurs, WorkFor;
    HistoryOk(h, k);
    assert PollerOk(h.boards[k], h.boards[k].pollers[p]);
  }

  lemma {:induction false} ChannelsClose(h: History, i: nat, k: nat)
    requires Happens(h) && i <= k < |h.boards|
    ensures h.boards[i].channel <= h.boards[k].channel
    ensures h.boards[i].channel == h.boards[k].channel ==> h.boards[i].due <= h.boards[k].due
    decreases k
  {
    if i < k {
      hide Enabled, Apply, Admits;
      ChannelsClose(h, i, k - 1);
      assert Occurs(h, k - 1);
    }
  }

  /** A commit made while a poller is waiting reaches that poller: until its channel is closed, the commit's own Notify is still due. */
  lemma EveryCommitReachesPoller(h: History, i: nat, k: nat, p: nat)
    requires Happens(h) && i < k < |h.boards| && h.actions[i].Transact? && Notifies(h.actions[i].event)
    requires p in h.boards[i].pollers && p in h.boards[k].pollers
    requires h.boards[i].pollers[p].channel == h.boards[k].pollers[p].channel
    ensures h.boards[k].pollers[p].channel < h.boards[k].channel || h.boards[k].due > h.boards[i].due
  {
    hide Enabled, Apply, Admits, WorkFor;
    HistoryOk(h, i);
    assert PollerOk(h.boards[i], h.boards[i].pollers[p]);
    assert Occurs(h, i);
    ChannelsClose(h, i + 1, k);
  }

  // ----- What a parked poller can miss -----

  ghost predicate Unsignaled(b: Board, p: Poller) {
    p.Parked? && p.channel == b.channel && b.due == 0
  }

  ghost predicate Fit(s: State, runner: nat) {
    runner in s.runners && s.runners[runner].protocol == 2 && s.runners[runner].online
  }

  /** Why the poller's query could not have found this job: its run was created quietly since, or the runner has registered
      with docker, or with more capacity, since. */
  ghost predicate OutOfSight(s: State, p: Poller, r: nat, j: string) {
    && p.Parked? && r in s.runs && j in s.runs[r].jobs
    && (r in p.missed || (s.runs[r].jobs[j].image && !p.docker) || |ActiveJobs(s.runs, p.runner)| >= p.capacity)
  }

  lemma InSightIsWork(s: State, p: Poller, r: nat, j: string)
    requires p.Parked? && Admits(s, p.runner, r, j) && !OutOfSight(s, p, r, j)
    ensures WorkBeyond(s, p)
  {
    assert Leasable(s.runs[r], j, p.docker);
  }

  /** Exactly when a parked runner that nobody will wake could be given a job: there is one that its query could not have found. */
  lemma MissedIff(h: History, k: nat, p: nat)
    requires Happens(h) && k < |h.boards| && p in h.boards[k].pollers && Unsignaled(h.boards[k], h.boards[k].pollers[p])
    ensures
      var s, poller := h.boards[k].s, h.boards[k].pollers[p];
      (exists r: nat, j :: Admits(s, poller.runner, r, j)) <==>
        Fit(s, poller.runner) && |ActiveJobs(s.runs, poller.runner)| < s.runners[poller.runner].capacity
        && exists r: nat, j :: OutOfSight(s, poller, r, j) && Leasable(s.runs[r], j, s.runners[poller.runner].docker)
  {
    hide Occurs, WorkFor, Leasable, ActiveJobs;
    NoLostWakeup(h, k, p);
    var s, poller := h.boards[k].s, h.boards[k].pollers[p];
    if r: nat, j :| Admits(s, poller.runner, r, j) {
      AdmittedRow(s, poller.runner, r, j);
      if !OutOfSight(s, poller, r, j) {
        InSightIsWork(s, poller, r, j);
      }
      assert OutOfSight(s, poller, r, j) && Leasable(s.runs[r], j, s.runners[poller.runner].docker);
    }
    if Fit(s, poller.runner) && |ActiveJobs(s.runs, poller.runner)| < s.runners[poller.runner].capacity {
      if r: nat, j :| OutOfSight(s, poller, r, j) && Leasable(s.runs[r], j, s.runners[poller.runner].docker) {
        assert Admits(s, poller.runner, r, j);
      }
    }
  }

  lemma AdmittedRow(s: State, runner: nat, r: nat, j: string)
    requires Admits(s, runner, r, j)
    ensures r in s.runs && j in s.runs[r].jobs
  {
  }

  /** Without a registration for more since it asked, only a run created quietly can be missed. */
  lemma NoLostWakeupUnlessUpgraded(h: History, k: nat, p: nat)
    requires Happens(h) && k < |h.boards| && p in h.boards[k].pollers && h.boards[k].pollers[p].Parked?
    requires
      var b, poller := h.boards[k], h.boards[k].pollers[p];
      && poller.runner in b.s.runners && b.s.runners[poller.runner].capacity <= poller.capacity
      && (b.s.runners[poller.runner].docker ==> poller.docker)
    ensures
      var b, poller := h.boards[k], h.boards[k].pollers[p];
      (exists r: nat, j :: r !in poller.missed && Admits(b.s, poller.runner, r, j)) ==> poller.channel < b.channel || b.due > 0
  {
    hide Occurs, WorkFor, Admits;
    NoLostWakeup(h, k, p);
    var b, poller := h.boards[k], h.boards[k].pollers[p];
    if r: nat, j :| r !in poller.missed && Admits(b.s, poller.runner, r, j) {
      AdmittedInSight(b.s, poller, r, j);
      InSightIsWork(b.s, poller, r, j);
    }
  }

  lemma AdmittedInSight(s: State, p: Poller, r: nat, j: string)
    requires p.Parked? && r !in p.missed && Admits(s, p.runner, r, j)
    requires s.runners[p.runner].capacity <= p.capacity && (s.runners[p.runner].docker ==> p.docker)
    ensures !OutOfSight(s, p, r, j)
  {
  }

  ghost predicate ParkedAt(h: History, i: nat, p: nat) {
    i < |h.boards| && p in h.boards[i].pollers && h.boards[i].pollers[p].Parked?
  }

  ghost predicate QuietlyMade(h: History, i: nat, r: nat) {
    i < |h.actions| && h.actions[i].SubmitQuietly? && h.actions[i].run == r
  }

  lemma MissedStep(h: History, k: nat, p: nat)
    requires Happens(h) && k < |h.actions| && ParkedAt(h, k + 1, p)
    ensures ParkedAt(h, k, p) || h.boards[k + 1].pollers[p].missed == {}
    ensures ParkedAt(h, k, p) ==>
      h.boards[k + 1].pollers[p].missed == h.boards[k].pollers[p].missed + if h.actions[k].SubmitQuietly? then {h.actions[k].run} else {}
  {
    hide Enabled, Apply, Admits;
    assert Occurs(h, k);
  }

  /** The runs a poller missed are those created quietly while it was parked, without a break until now. */
  lemma {:induction false} MissedIffQuietlyMade(h: History, k: nat, p: nat, r: nat)
    requires Happens(h) && ParkedAt(h, k, p)
    ensures r in h.boards[k].pollers[p].missed <==> exists i: nat :: i < k && QuietlyMade(h, i, r) && forall m: nat :: i <= m <= k ==> ParkedAt(h, m, p)
    decreases k
  {
    hide Occurs, Possible, Next;
    assert !ParkedAt(h, 0, p);
    MissedStep(h, k - 1, p);
    if ParkedAt(h, k - 1, p) {
      MissedIffQuietlyMade(h, k - 1, p, r);
      if r in h.boards[k].pollers[p].missed {
        if QuietlyMade(h, k - 1, r) {
          assert forall m: nat :: k - 1 <= m <= k ==> ParkedAt(h, m, p);
        } else {
          var i: nat :| i < k - 1 && QuietlyMade(h, i, r) && forall m: nat :: i <= m <= k - 1 ==> ParkedAt(h, m, p);
          assert forall m: nat :: i <= m <= k ==> ParkedAt(h, m, p);
        }
      }
    }
  }

  ghost function Then(h: History, a: Action): History
    requires h.boards != [] && Possible(h.boards[|h.boards| - 1], a)
  {
    History(h.boards + [Next(h.boards[|h.boards| - 1], a)], h.actions + [a])
  }

  ghost function Last(h: History): Board
    requires h.boards != []
  {
    h.boards[|h.boards| - 1]
  }

  lemma ThenHappens(h: History, a: Action)
    requires Happens(h) && Possible(Last(h), a)
    ensures Happens(Then(h, a)) && Last(Then(h, a)) == Next(Last(h), a)
  {
    hide Possible, Next;
    var x := Then(h, a);
    forall i | 0 <= i < |x.actions| ensures Occurs(x, i) {
      if i < |h.actions| { assert Occurs(h, i); }
    }
  }

  const CONTAINER_JOB := JobDecl([], true, [], [])

  lemma ContainerPipeline(p: Pipeline)
    requires p == map["a" := CONTAINER_JOB]
    ensures ValidPipeline(p)
  {
    assert "a" in p;
    assert Topological(NeedsOf(p), ["a"]);
    TopologicalIsAcyclic(NeedsOf(p), ["a"]);
  }

  const RUNNER := RunnerRow(false, 1, 2, true, 0)

  lemma SubmitBoard(b: Board, p: Pipeline)
    requires ValidPipeline(p) && b == Board(State(map[], map[0 := RUNNER], 0, 0, 0), 0, 0, map[])
    ensures Possible(b, Transact(Submit(0, p, 1)))
    ensures Next(b, Transact(Submit(0, p, 1))) == Board(State(map[0 := NewRun(p, 1, 0)], map[0 := RUNNER], 0, 0, 0), 0, 1, map[])
  {
    hide ValidPipeline, NewRun;
  }

  lemma Registered() returns (h: History)
    ensures Happens(h) && h.boards[0] == Board(Initial(0), 0, 0, map[])
    ensures Last(h) == Board(State(map[], map[0 := RUNNER], 0, 0, 0), 0, 0, map[])
  {
    hide Occurs;
    h := History([Board(Initial(0), 0, 0, map[])], []);
    ThenHappens(h, Transact(Register(0, false, 1, 2)));
    h := Then(h, Transact(Register(0, false, 1, 2)));
  }

  lemma Offered(p: Pipeline) returns (h: History)
    requires ValidPipeline(p)
    ensures Happens(h) && h.boards[0] == Board(Initial(0), 0, 0, map[])
    ensures Last(h) == Board(State(map[0 := NewRun(p, 1, 0)], map[0 := RUNNER], 0, 0, 0), 1, 0, map[])
  {
    hide ValidPipeline, Occurs, NewRun, Possible, Next;
    h := Registered();
    SubmitBoard(Last(h), p);
    h := Extend(h, Transact(Submit(0, p, 1)));
    NotifyBoard(Last(h));
    h := Extend(h, Notify);
  }

  lemma Extend(h: History, a: Action) returns (x: History)
    requires Happens(h) && Possible(Last(h), a)
    ensures Happens(x) && x.boards[0] == h.boards[0] && Last(x) == Next(Last(h), a)
  {
    hide Occurs, Possible, Next;
    ThenHappens(h, a);
    x := Then(h, a);
  }

  lemma NotifyBoard(b: Board)
    requires b.due > 0
    ensures Possible(b, Notify) && Next(b, Notify) == b.(channel := b.channel + 1, due := b.due - 1)
  {
  }

  lemma NoDockerNoWork(s: State, p: Pipeline)
    requires p == map["a" := CONTAINER_JOB] && s.runs == map[0 := NewRun(p, 1, 0)] && s.runners == map[0 := RUNNER]
    ensures forall r: nat, j :: !Admits(s, 0, r, j)
  {
  }

  /** A runner without docker parks beside a job that needs it. */
  lemma ParksWithoutDocker(p: Pipeline) returns (h: History)
    requires p == map["a" := CONTAINER_JOB]
    ensures Happens(h) && h.boards[0] == Board(Initial(0), 0, 0, map[])
    ensures Last(h) == Board(State(map[0 := NewRun(p, 1, 0)], map[0 := RUNNER], 0, 0, 0), 1, 0, map[0 := Parked(0, 1, false, 1, {})])
  {
    hide ValidPipeline, Occurs, NewRun, Admits, Enabled, Apply;
    ContainerPipeline(p);
    h := Offered(p);
    NoDockerNoWork(Last(h).s, p);
    ThenHappens(h, Fetch(0, 0));
    h := Then(h, Fetch(0, 0));
    ThenHappens(h, FindNothing(0));
    h := Then(h, FindNothing(0));
  }

  lemma DockerBringsWork(s: State, p: Pipeline)
    requires p == map["a" := CONTAINER_JOB] && s.runs == map[0 := NewRun(p, 1, 0)] && s.runners == map[0 := RunnerRow(true, 1, 2, true, 0)]
    ensures Admits(s, 0, 0, "a")
  {
    assert ActiveJobs(s.runs, 0) == {};
    assert RunningIn(s.runs[0].jobs) == {};
  }

  /** Registering again with docker sends no signal: the runner could be given the job, and stays parked until something else does. */
  lemma UpgradeIsNotSignaled() returns (h: History)
    ensures Happens(h) && h.boards[0] == Board(Initial(0), 0, 0, map[])
    ensures
      var b := Last(h);
      0 in b.pollers && b.pollers[0].Parked? && b.pollers[0].channel == b.channel && b.due == 0 && Admits(b.s, b.pollers[0].runner, 0, "a")
  {
    hide Occurs, NewRun, Admits;
    var p: Pipeline := map["a" := CONTAINER_JOB];
    h := ParksWithoutDocker(p);
    ThenHappens(h, Transact(Register(0, true, 1, 2)));
    h := Then(h, Transact(Register(0, true, 1, 2)));
    DockerBringsWork(Last(h).s, p);
  }

  const PLAIN_JOB := JobDecl([], false, [], [])

  lemma PlainPipeline(p: Pipeline)
    requires p == map["a" := PLAIN_JOB]
    ensures ValidPipeline(p)
  {
    assert "a" in p;
    assert Topological(NeedsOf(p), ["a"]);
    TopologicalIsAcyclic(NeedsOf(p), ["a"]);
  }

  lemma PlainWork(s: State, p: Pipeline)
    requires p == map["a" := PLAIN_JOB] && s.runs == map[0 := NewRun(p, 1, 0)] && s.runners == map[0 := RUNNER]
    ensures Admits(s, 0, 0, "a")
  {
    assert ActiveJobs(s.runs, 0) == {};
    assert RunningIn(s.runs[0].jobs) == {};
  }

  /** A runner parks while there is nothing to do. */
  lemma ParksIdle() returns (h: History)
    ensures Happens(h) && h.boards[0] == Board(Initial(0), 0, 0, map[])
    ensures Last(h) == Board(State(map[], map[0 := RUNNER], 0, 0, 0), 0, 0, map[0 := Parked(0, 0, false, 1, {})])
  {
    hide Occurs, Enabled, Apply;
    h := Registered();
    ThenHappens(h, Fetch(0, 0));
    h := Then(h, Fetch(0, 0));
    ThenHappens(h, FindNothing(0));
    h := Then(h, FindNothing(0));
  }

  /** A run created from a delivery whose completion fails is not signaled: the runner could be given its job, and stays parked. */
  lemma QuietRunIsMissed() returns (h: History)
    ensures Happens(h) && h.boards[0] == Board(Initial(0), 0, 0, map[])
    ensures
      var b := Last(h);
      0 in b.pollers && Unsignaled(b, b.pollers[0]) && b.pollers[0].missed == {0} && Admits(b.s, b.pollers[0].runner, 0, "a")
  {
    hide Occurs, NewRun, Admits, ValidPipeline;
    var p: Pipeline := map["a" := PLAIN_JOB];
    PlainPipeline(p);
    h := ParksIdle();
    ThenHappens(h, SubmitQuietly(0, p, 1));
    h := Then(h, SubmitQuietly(0, p, 1));
    PlainWork(Last(h).s, p);
  }
}
