/**
 The in-process scheduler: one event loop that starts ready jobs up to a limit, blocks
 the dependents of failed ones and winds down once it sees its context canceled.
 A job is an outcome that arrives some time after it started; which running job reports
 next, and when the context is canceled, is arbitrary.
 */
module Scheduler {
  import opened Dag

  datatype JobState = Pending | Running | Passed | Failed | Blocked | Canceled
  type States = map<string, JobState>

  /** What a job returns when its context is not canceled. */
  datatype Outcome = Outcome(passed: bool, internal: bool)

  datatype Result = Result(states: States, interrupted: bool, internalError: bool)

  /** What the scheduler reports while it works: each state change, and noticing the cancellation. */
  datatype Observation = Moved(name: string, from: JobState, to: JobState) | CancelSeen
  type Log = seq<Observation>

  predicate Done(s: JobState) {
    !s.Pending? && !s.Running?
  }

  ghost function RunningIn(states: States): set<string> {
    set j | j in states && states[j].Running?
  }

  ghost function DoneIn(states: States): set<string> {
    set j | j in states && Done(states[j])
  }

  ghost function AllPending(names: set<string>): States {
    map j | j in names :: Pending
  }

  /** The states a log leads to. */
  ghost function After(names: set<string>, log: Log): States {
    if log == [] then AllPending(names)
    else
      var before := After(names, log[..|log| - 1]);
      match log[|log| - 1]
      case CancelSeen => before
      case Moved(n, _, to) => before[n := to]
  }

  ghost predicate AllPassed(needs: seq<string>, states: States) {
    forall d :: d in needs ==> d in states && states[d].Passed?
  }

  ghost predicate SomeFailed(needs: seq<string>, states: States) {
    exists d :: d in needs && d in states && (states[d].Failed? || states[d].Blocked?)
  }

  /** The moves the scheduler may make. Failing a job that never ran is not among them. */
  ghost predicate Legal(g: Needs, limit: nat, canceling: bool, states: States, n: string, from: JobState, to: JobState) {
    && n in g && n in states && states[n] == from
    && match (from, to)
       case (Pending, Running) => !canceling && AllPassed(g[n], states) && |RunningIn(states)| < limit
       case (Pending, Blocked) => !canceling && SomeFailed(g[n], states)
       case (Pending, Canceled) => canceling && RunningIn(states) == {}
       case (Running, _) => Done(to) && !to.Blocked?
       case _ => false
  }

  ghost predicate LogOk(g: Needs, limit: nat, log: Log) {
    log == [] ||
    var before := log[..|log| - 1];
    LogOk(g, limit, before) &&
    match log[|log| - 1]
    case CancelSeen => CancelSeen !in before
    case Moved(n, from, to) => Legal(g, limit, CancelSeen in before, After(g.Keys, before), n, from, to)
  }

  lemma AfterPush(names: set<string>, log: Log, o: Observation)
    ensures After(names, log + [o]) == (match o case CancelSeen => After(names, log) case Moved(n, _, to) => After(names, log)[n := to])
  {
    assert (log + [o])[..|log|] == log;
  }

  lemma LogOkPush(g: Needs, limit: nat, log: Log, n: string, from: JobState, to: JobState)
    requires LogOk(g, limit, log) && Legal(g, limit, CancelSeen in log, After(g.Keys, log), n, from, to)
    ensures LogOk(g, limit, log + [Moved(n, from, to)])
  {
    assert (log + [Moved(n, from, to)])[..|log|] == log;
  }

  /** At no point of a legal log do more jobs run than the limit allows. */
  lemma {:induction false} NeverOverLimit(g: Needs, limit: nat, log: Log, k: nat)
    requires LogOk(g, limit, log) && k <= |log|
    ensures |RunningIn(After(g.Keys, log[..k]))| <= limit
  {
    if log == [] {
      assert RunningIn(After(g.Keys, log[..k])) == {};
    } else if k < |log| {
      NeverOverLimit(g, limit, log[..|log| - 1], k);
      assert log[..|log| - 1][..k] == log[..k];
    } else {
      assert log[..k] == log;
      var before := log[..|log| - 1];
      NeverOverLimit(g, limit, before, |before|);
      assert before[..|before|] == before;
      match log[|log| - 1]
      case CancelSeen =>
      case Moved(n, from, to) =>
        var s := After(g.Keys, before);
        assert RunningIn(s[n := to]) == if to.Running? then RunningIn(s) + {n} else RunningIn(s) - {n};
    }
  }

  /** The job statuses a graph and its outcomes determine: blocked behind anything that did not pass,
      otherwise the job's own outcome. */
  ghost predicate Solves(g: Needs, passes: map<string, bool>, states: States) {
    && states.Keys == g.Keys
    && (forall j :: j in g && j in passes ==>
          states[j] == if AllPassed(g[j], states) then (if passes[j] then Passed else Failed) else Blocked)
  }

  lemma AgreeOnNeeds(g: Needs, passes: map<string, bool>, a: States, b: States, j: string)
    requires g.Keys <= passes.Keys && Solves(g, passes, a) && Solves(g, passes, b) && j in g
    requires forall d :: d in g[j] ==> d in g && a[d] == b[d]
    ensures a[j] == b[j]
  {
    assert AllPassed(g[j], a) <==> AllPassed(g[j], b);
  }

  lemma {:induction false} SolutionUniqueUpTo(g: Needs, order: seq<string>, passes: map<string, bool>, a: States, b: States, k: nat)
    requires a.Keys == b.Keys == g.Keys && Topological(g, order) && k <= |order|
    requires g.Keys <= passes.Keys && Solves(g, passes, a) && Solves(g, passes, b)
    ensures forall i :: 0 <= i < k ==> a[order[i]] == b[order[i]]
  {
    hide *;
    if k > 0 {
      SolutionUniqueUpTo(g, order, passes, a, b, k - 1);
      AgreeBefore(g, order, a, b, k - 1);
      AgreeOnNeeds(g, passes, a, b, order[k - 1]);
    }
  }

  lemma AgreeBefore(g: Needs, order: seq<string>, a: States, b: States, k: nat)
    requires a.Keys == b.Keys == g.Keys && Topological(g, order) && k < |order|
    requires forall i :: 0 <= i < k ==> a[order[i]] == b[order[i]]
    ensures order[k] in g && forall d :: d in g[order[k]] ==> d in g && a[d] == b[d]
  {
    forall d | d in g[order[k]] ensures d in g && a[d] == b[d] {
      var i :| 0 <= i < k && order[..k][i] == d;
    }
  }

  lemma SolutionKeys(g: Needs, passes: map<string, bool>, a: States)
    requires Solves(g, passes, a)
    ensures a.Keys == g.Keys
  {
  }

  /** On an acyclic graph these statuses are unique. */
  lemma SolutionUnique(g: Needs, order: seq<string>, passes: map<string, bool>, a: States, b: States)
    requires Topological(g, order) && g.Keys <= passes.Keys && Solves(g, passes, a) && Solves(g, passes, b)
    ensures a == b
  {
    hide *;
    SolutionKeys(g, passes, a);
    SolutionKeys(g, passes, b);
    SolutionUniqueUpTo(g, order, passes, a, b, |order|);
    forall j | j in g ensures a[j] == b[j] {
      var i := Listed(g, order, j);
    }
  }

  // ----- The event loop -----

  /** `hasFailedDependency` */
  method HasFailedDependency(g: Needs, states: States, name: string) returns (failed: bool)
    requires name in g && Closed(g) && states.Keys == g.Keys
    ensures failed <==> SomeFailed(g[name], states)
  {
    for i := 0 to |g[name]|
      invariant forall k :: 0 <= k < i ==> !states[g[name][k]].Failed? && !states[g[name][k]].Blocked?
    {
      var d := g[name][i];
      if states[d].Failed? || states[d].Blocked? {
        return true;
      }
    }
    return false;
  }

  ghost predicate NoneReadyBefore(g: Needs, order: seq<string>, states: States, i: nat) {
    forall k :: 0 <= k < i && k < |order| && order[k] in g && order[k] in states && states[order[k]].Pending? ==> !AllPassed(g[order[k]], states)
  }

  /** `nextReadyJob`: the first pending job in order whose needs have all passed. */
  method NextReadyJob(g: Needs, order: seq<string>, states: States) returns (found: bool, name: string)
    requires Topological(g, order) && Closed(g) && states.Keys == g.Keys
    ensures found ==> name in g && states[name].Pending? && AllPassed(g[name], states)
    ensures found ==> exists i :: 0 <= i < |order| && order[i] == name && NoneReadyBefore(g, order, states, i)
    ensures !found ==> forall j :: j in g && states[j].Pending? ==> !AllPassed(g[j], states)
  {
    for i := 0 to |order|
      invariant NoneReadyBefore(g, order, states, i)
    {
      name := order[i];
      if !states[name].Pending? {
        continue;
      }
      var ready := true;
      for k := 0 to |g[name]|
        invariant ready ==> forall m :: 0 <= m < k ==> states[g[name][m]].Passed?
        invariant !ready ==> !AllPassed(g[name], states)
      {
        if !states[g[name][k]].Passed? {
          ready := false;
          break;
        }
      }
      if ready {
        return true, name;
      }
    }
    return false, "";
  }

  /** What holds of the states between any two moves: who has run had its needs passed, who is
      blocked had one fail, and without a cancellation the outcomes are the jobs' own. */
  ghost predicate Sound(g: Needs, outcome: map<string, Outcome>, canceled: bool, states: States) {
    && states.Keys == g.Keys
    && (forall j :: j in g ==> SoundJob(g, outcome, canceled, states, j))
  }

  ghost predicate SoundJob(g: Needs, outcome: map<string, Outcome>, canceled: bool, states: States, j: string)
    requires j in g && states.Keys == g.Keys
  {
    match states[j]
    case Pending => true
    case Running => AllPassed(g[j], states)
    case Passed => AllPassed(g[j], states) && (!canceled ==> j in outcome && outcome[j].passed)
    case Failed => AllPassed(g[j], states) && (!canceled ==> j in outcome && !outcome[j].passed)
    case Blocked => SomeFailed(g[j], states)
    case Canceled => canceled
  }

  /** The loop's bookkeeping: counters, log and states describe the same history. */
  ghost predicate Tracks(g: Needs, limit: nat, states: States, active: int, terminal: int, canceling: bool, log: Log) {
    && states == After(g.Keys, log) && LogOk(g, limit, log)
    && canceling == (CancelSeen in log)
    && active == |RunningIn(states)| && terminal == |DoneIn(states)|
  }

  /** A move out of pending or running keeps the states sound when the mover is sound itself. */
  lemma MoveKeepsSound(g: Needs, outcome: map<string, Outcome>, canceled: bool, states: States, n: string, to: JobState)
    requires Sound(g, outcome, canceled, states) && n in g && !Done(states[n])
    requires SoundJob(g, outcome, canceled, states[n := to], n)
    ensures Sound(g, outcome, canceled, states[n := to])
  {
    var after := states[n := to];
    forall j | j in g ensures SoundJob(g, outcome, canceled, after, j) {
      assert SoundJob(g, outcome, canceled, states, j);
      if j != n {
        if AllPassed(g[j], states) {
          assert AllPassed(g[j], after);
        }
        if SomeFailed(g[j], states) {
          var d :| d in g[j] && d in states && (states[d].Failed? || states[d].Blocked?);
          assert d in after && (after[d].Failed? || after[d].Blocked?);
        }
      }
    }
  }

  /** Logging a legal move keeps the bookkeeping in step. */
  lemma MoveTracks(g: Needs, limit: nat, states: States, active: int, terminal: int, canceling: bool, log: Log, n: string, to: JobState)
    requires Tracks(g, limit, states, active, terminal, canceling, log) && n in states
    requires Legal(g, limit, canceling, states, n, states[n], to)
    ensures Tracks(g, limit, states[n := to],
                   active + (if to.Running? then 1 else 0) - (if states[n].Running? then 1 else 0),
                   terminal + (if Done(to) then 1 else 0), canceling, log + [Moved(n, states[n], to)])
  {
    var o := Moved(n, states[n], to);
    AfterPush(g.Keys, log, o);
    LogOkPush(g, limit, log, n, states[n], to);
    assert CancelSeen in log + [o] <==> CancelSeen in log;
    var after := states[n := to];
    if to.Running? {
      assert RunningIn(after) == RunningIn(states) + {n};
      assert DoneIn(after) == DoneIn(states);
    } else {
      assert RunningIn(after) == RunningIn(states) - {n};
      assert DoneIn(after) == DoneIn(states) + {n};
    }
  }

  /** No pending job has a failed or blocked dependency. */
  ghost predicate NoneBehindFailure(g: Needs, states: States)
    requires states.Keys == g.Keys
  {
    forall j :: j in g && states[j].Pending? ==> !SomeFailed(g[j], states)
  }

  /** Some pending jobs became blocked, each with a failed or blocked dependency; nothing else changed. */
  ghost predicate OnlyBlocked(g: Needs, a: States, b: States) {
    && a.Keys == b.Keys == g.Keys
    && forall j :: j in g ==> b[j] == a[j] || (a[j].Pending? && b[j].Blocked? && SomeFailed(g[j], b))
  }

  /** Some pending jobs started, each with all its needs passed; nothing else changed. */
  ghost predicate OnlyStarted(g: Needs, a: States, b: States) {
    && a.Keys == b.Keys == g.Keys
    && forall j :: j in g ==> b[j] == a[j] || (a[j].Pending? && b[j].Running? && AllPassed(g[j], b))
  }

  /** A pending job the scheduler has reason to move: it is ready, behind a failure, or to be given up. */
  ghost predicate Applies(g: Needs, states: States, j: string, to: JobState) {
    && j in g && j in states && states[j].Pending?
    && match to
       case Running => AllPassed(g[j], states)
       case Blocked => SomeFailed(g[j], states)
       case Canceled => true
       case _ => false
  }

  /** It is the turn of `n`: no job standing before it in the order could make the same move. */
  ghost predicate Turn(g: Needs, order: seq<string>, states: States, n: string, to: JobState) {
    forall i, k :: 0 <= i < k < |order| && order[k] == n ==> !Applies(g, states, order[i], to)
  }

  lemma TurnOf(g: Needs, order: seq<string>, states: States, k: nat, to: JobState)
    requires Topological(g, order) && k < |order|
    requires forall i :: 0 <= i < k ==> !Applies(g, states, order[i], to)
    ensures Turn(g, order, states, order[k], to)
  {
    forall m | k < m < |order| ensures order[m] != order[k] {
      assert order[..m][k] == order[k];
    }
  }

  /** `after` continues `before` with moves of pending jobs only, each made when it was that job's turn. */
  ghost predicate MovesPending(g: Needs, order: seq<string>, before: Log, after: Log) {
    before <= after && forall i :: |before| <= i < |after| ==> MovedInTurn(g, order, after, i)
  }

  ghost predicate MovedInTurn(g: Needs, order: seq<string>, log: Log, i: nat)
    requires i < |log|
  {
    && log[i].Moved? && log[i].from.Pending?
    && var states := After(g.Keys, log[..i]);
      && Turn(g, order, states, log[i].name, log[i].to)
      && (log[i].to.Running? ==> states.Keys == g.Keys && NoneBehindFailure(g, states))
  }

  lemma MovesPendingPush(g: Needs, order: seq<string>, before: Log, after: Log, states: States, n: string, to: JobState)
    requires MovesPending(g, order, before, after) && states == After(g.Keys, after) && Turn(g, order, states, n, to)
    requires to.Running? ==> states.Keys == g.Keys && NoneBehindFailure(g, states)
    ensures MovesPending(g, order, before, after + [Moved(n, Pending, to)])
  {
    hide After, Turn, NoneBehindFailure;
    var log := after + [Moved(n, Pending, to)];
    forall i | |before| <= i < |log| ensures MovedInTurn(g, order, log, i) {
      if i < |after| {
        assert MovedInTurn(g, order, after, i) && log[..i] == after[..i];
      } else {
        assert log[..i] == after;
      }
    }
  }

  lemma MovesPendingNone(g: Needs, order: seq<string>, log: Log)
    ensures MovesPending(g, order, log, log)
  {
  }

  lemma MovesPendingJoin(g: Needs, order: seq<string>, a: Log, b: Log, c: Log)
    requires MovesPending(g, order, a, b) && MovesPending(g, order, b, c)
    ensures MovesPending(g, order, a, c)
  {
    hide MovedInTurn;
    forall i | |a| <= i < |c| ensures MovedInTurn(g, order, c, i) {
      if i < |b| { InTurnWithin(g, order, b, c, i); }
    }
  }

  lemma InTurnWithin(g: Needs, order: seq<string>, before: Log, after: Log, i: nat)
    requires before <= after && i < |before| && MovedInTurn(g, order, before, i)
    ensures MovedInTurn(g, order, after, i)
  {
    hide After, Turn;
    assert before[..i] == after[..i];
  }

  ghost predicate SameFailed(a: States, b: States) {
    a.Keys == b.Keys && forall j :: j in a ==> (a[j].Failed? <==> b[j].Failed?)
  }

  ghost predicate NoneReady(g: Needs, states: States)
    requires states.Keys == g.Keys
  {
    forall j :: j in g && states[j].Pending? ==> !AllPassed(g[j], states)
  }

  ghost predicate CheckedUpTo(g: Needs, order: seq<string>, states: States, i: nat)
    requires states.Keys == g.Keys && i <= |order| && forall k :: 0 <= k < |order| ==> order[k] in g
  {
    forall k :: 0 <= k < i && states[order[k]].Pending? ==> !SomeFailed(g[order[k]], states)
  }

  /** Blocking a job cannot matter to jobs earlier in the order. */
  lemma BlockKeepsChecked(g: Needs, order: seq<string>, states: States, i: nat)
    requires Topological(g, order) && states.Keys == g.Keys && i < |order| && states[order[i]].Pending?
    requires CheckedUpTo(g, order, states, i)
    ensures CheckedUpTo(g, order, states[order[i] := Blocked], i + 1)
  {
    var after := states[order[i] := Blocked];
    forall k | 0 <= k < i + 1 && after[order[k]].Pending? ensures !SomeFailed(g[order[k]], after) {
      forall d | d in g[order[k]] ensures d != order[i] {
        assert d in order[..k];
      }
    }
  }

  lemma BlockTurn(g: Needs, order: seq<string>, limit: nat, states: States, active: int, terminal: int, log: Log, i: nat)
    requires Topological(g, order) && states.Keys == g.Keys && i < |order| && CheckedUpTo(g, order, states, i)
    requires Tracks(g, limit, states, active, terminal, false, log)
    ensures states == After(g.Keys, log) && Turn(g, order, states, order[i], Blocked)
  {
    hide After, LogOk;
    TurnOf(g, order, states, i, Blocked);
  }

  lemma BlockStepKeeps(g: Needs, limit: nat, outcome: map<string, Outcome>, canceled: bool, states: States,
                       active: int, terminal: int, log: Log, n: string)
    requires Tracks(g, limit, states, active, terminal, false, log) && Sound(g, outcome, canceled, states)
    requires n in g && states[n].Pending? && SomeFailed(g[n], states)
    ensures Tracks(g, limit, states[n := Blocked], active, terminal + 1, false, log + [Moved(n, Pending, Blocked)])
    ensures Sound(g, outcome, canceled, states[n := Blocked])
  {
    MoveTracks(g, limit, states, active, terminal, false, log, n, Blocked);
    FailureStays(g, states, n);
    MoveKeepsSound(g, outcome, canceled, states, n, Blocked);
  }

  method BlockPass(g: Needs, order: seq<string>, limit: nat, ghost outcome: map<string, Outcome>, ghost canceled: bool,
                   states0: States, ghost active: int, terminal0: int, log0: Log)
    returns (states: States, terminal: int, log: Log)
    requires Topological(g, order) && Closed(g)
    requires Tracks(g, limit, states0, active, terminal0, false, log0) && Sound(g, outcome, canceled, states0)
    requires states0.Keys == g.Keys
    ensures Tracks(g, limit, states, active, terminal, false, log) && Sound(g, outcome, canceled, states)
    ensures states.Keys == g.Keys && NoneBehindFailure(g, states) && terminal0 <= terminal && SameFailed(states0, states)
    ensures OnlyBlocked(g, states0, states) && MovesPending(g, order, log0, log)
  {
    hide Sound, Tracks, OnlyBlocked, MovesPending, After, Turn;
    NothingChanged(g, states0);
    MovesPendingNone(g, order, log0);
    states, terminal, log := states0, terminal0, log0;
    for i := 0 to |order|
      invariant Tracks(g, limit, states, active, terminal, false, log) && Sound(g, outcome, canceled, states)
      invariant states.Keys == g.Keys && CheckedUpTo(g, order, states, i) && terminal0 <= terminal && SameFailed(states0, states)
      invariant OnlyBlocked(g, states0, states) && MovesPending(g, order, log0, log)
    {
      var name := order[i];
      if states[name].Pending? {
        var failed := HasFailedDependency(g, states, name);
        if failed {
          BlockKeepsChecked(g, order, states, i);
          BlockIsOnlyChange(g, states0, states, name);
          BlockTurn(g, order, limit, states, active, terminal, log, i);
          MovesPendingPush(g, order, log0, log, states, name, Blocked);
          BlockStepKeeps(g, limit, outcome, canceled, states, active, terminal, log, name);
          states, terminal, log := states[name := Blocked], terminal + 1, log + [Moved(name, Pending, Blocked)];
        }
      }
    }
    forall j | j in g && states[j].Pending? ensures !SomeFailed(g[j], states) {
      var k := Index(order, j);
    }
  }

  lemma NothingChanged(g: Needs, states: States)
    requires states.Keys == g.Keys
    ensures OnlyBlocked(g, states, states) && OnlyStarted(g, states, states)
  {
  }

  lemma BlockIsOnlyChange(g: Needs, a: States, b: States, n: string)
    requires OnlyBlocked(g, a, b) && n in g && b[n].Pending? && SomeFailed(g[n], b)
    ensures OnlyBlocked(g, a, b[n := Blocked])
  {
    var after := b[n := Blocked];
    forall j | j in g && SomeFailed(g[j], b) ensures SomeFailed(g[j], after) {
      var d :| d in g[j] && d in b && (b[d].Failed? || b[d].Blocked?);
      assert d in after && (after[d].Failed? || after[d].Blocked?);
    }
  }

  lemma StartIsOnlyChange(g: Needs, a: States, b: States, n: string)
    requires OnlyStarted(g, a, b) && n in g && b[n].Pending? && AllPassed(g[n], b)
    ensures OnlyStarted(g, a, b[n := Running])
  {
    var after := b[n := Running];
    forall j | j in g && AllPassed(g[j], b) ensures AllPassed(g[j], after) {
    }
  }

  lemma FailureStays(g: Needs, states: States, name: string)
    requires name in g && name in states && states[name].Pending? && SomeFailed(g[name], states)
    ensures SomeFailed(g[name], states[name := Blocked])
  {
    var d :| d in g[name] && d in states && (states[d].Failed? || states[d].Blocked?);
    assert d in states[name := Blocked];
  }

  lemma StartTurn(g: Needs, order: seq<string>, states: States, name: string)
    requires Topological(g, order) && exists i :: 0 <= i < |order| && order[i] == name && NoneReadyBefore(g, order, states, i)
    ensures Turn(g, order, states, name, Running)
  {
    var i :| 0 <= i < |order| && order[i] == name && NoneReadyBefore(g, order, states, i);
    TurnOf(g, order, states, i, Running);
  }

  method Admit(g: Needs, order: seq<string>, limit: nat, ghost outcome: map<string, Outcome>, ghost canceled: bool,
               states0: States, active0: int, ghost terminal: int, log0: Log)
    returns (states: States, active: int, log: Log)
    requires Topological(g, order) && Closed(g) && limit > 0
    requires Tracks(g, limit, states0, active0, terminal, false, log0) && Sound(g, outcome, canceled, states0)
    requires states0.Keys == g.Keys && NoneBehindFailure(g, states0)
    ensures Tracks(g, limit, states, active, terminal, false, log) && Sound(g, outcome, canceled, states)
    ensures states.Keys == g.Keys && NoneBehindFailure(g, states)
    ensures active < limit ==> NoneReady(g, states)
    ensures SameFailed(states0, states) && OnlyStarted(g, states0, states) && MovesPending(g, order, log0, log)
  {
    hide Sound, LogOk, OnlyStarted, MovesPending;
    MovesPendingNone(g, order, log0);
    NothingChanged(g, states0);
    states, active, log := states0, active0, log0;
    while active < limit
      invariant Tracks(g, limit, states, active, terminal, false, log) && Sound(g, outcome, canceled, states)
      invariant states.Keys == g.Keys && NoneBehindFailure(g, states) && SameFailed(states0, states) && OnlyStarted(g, states0, states)
      invariant MovesPending(g, order, log0, log)
    {
      var found, name := NextReadyJob(g, order, states);
      if !found {
        break;
      }
      MoveTracks(g, limit, states, active, terminal, false, log, name, Running);
      StartKeepsSound(g, outcome, canceled, states, name);
      StartIsOnlyChange(g, states0, states, name);
      StartTurn(g, order, states, name);
      MovesPendingPush(g, order, log0, log, states, name, Running);
      states, active, log := states[name := Running], active + 1, log + [Moved(name, Pending, Running)];
    }
  }

  lemma StartKeepsSound(g: Needs, outcome: map<string, Outcome>, canceled: bool, states: States, n: string)
    requires Sound(g, outcome, canceled, states) && n in g && states[n].Pending? && AllPassed(g[n], states)
    requires NoneBehindFailure(g, states)
    ensures Sound(g, outcome, canceled, states[n := Running]) && NoneBehindFailure(g, states[n := Running])
  {
    MoveKeepsSound(g, outcome, canceled, states, n, Running);
    hide Sound;
    var after := states[n := Running];
    forall j | j in g && after[j].Pending? ensures !SomeFailed(g[j], after) {
      assert !SomeFailed(g[j], states);
    }
  }

  /** With nothing running, nothing ready and nothing behind a failure, every job is done: the
      internal-error fallback is unreachable. */
  lemma NothingLeft(g: Needs, order: seq<string>, outcome: map<string, Outcome>, states: States)
    requires Topological(g, order) && Sound(g, outcome, false, states) && NoneBehindFailure(g, states)
    requires RunningIn(states) == {} && NoneReady(g, states)
    ensures DoneIn(states) == g.Keys
  {
    var pending := set j | j in g && states[j].Pending?;
    if pending != {} {
      TopologicalIsAcyclic(g, order);
      var j := AcyclicHasMinimal(g, pending);
      forall d | d in g[j] ensures d in states && states[d].Passed? {
        assert d in order by { NeedEarlier(g, order, j, d); }
        assert d in g && SoundJob(g, outcome, false, states, d);
        assert d !in RunningIn(states) && !SomeFailed(g[j], states);
      }
      assert AllPassed(g[j], states);
    }
    forall j | j in g ensures j in DoneIn(states) {
      assert j !in pending && j !in RunningIn(states);
    }
  }

  lemma CancelStepKeeps(g: Needs, limit: nat, outcome: map<string, Outcome>, states: States, terminal: int, log: Log, n: string)
    requires Tracks(g, limit, states, 0, terminal, true, log) && Sound(g, outcome, true, states)
    requires n in g && states[n].Pending?
    ensures Tracks(g, limit, states[n := Canceled], 0, terminal + 1, true, log + [Moved(n, Pending, Canceled)])
    ensures Sound(g, outcome, true, states[n := Canceled])
  {
    assert RunningIn(states) == {};
    MoveTracks(g, limit, states, 0, terminal, true, log, n, Canceled);
    MoveKeepsSound(g, outcome, true, states, n, Canceled);
  }

  /** The jobs listed before `i` are canceled if they were pending; nothing else changed. */
  ghost predicate CanceledUpTo(g: Needs, order: seq<string>, a: States, b: States, i: nat) {
    && a.Keys == b.Keys == g.Keys
    && (forall j :: j in g ==> b[j] == a[j] || (a[j].Pending? && b[j].Canceled?))
    && (forall k :: 0 <= k < i && k < |order| && order[k] in g ==> !b[order[k]].Pending?)
  }

  lemma CancelUpTo(g: Needs, order: seq<string>, a: States, b: States, i: nat)
    requires CanceledUpTo(g, order, a, b, i) && i < |order| && order[i] in g
    ensures CanceledUpTo(g, order, a, if b[order[i]].Pending? then b[order[i] := Canceled] else b, i + 1)
  {
  }

  lemma AllCanceled(g: Needs, order: seq<string>, a: States, b: States)
    requires Topological(g, order) && CanceledUpTo(g, order, a, b, |order|) && RunningIn(a) == {}
    ensures DoneIn(b) == g.Keys && forall j :: j in g ==> b[j] == if a[j].Pending? then Canceled else a[j]
  {
    hide Topological;
    forall j | j in g ensures j in DoneIn(b) && b[j] == if a[j].Pending? then Canceled else a[j] {
      var k := Listed(g, order, j);
      assert j !in RunningIn(a);
    }
  }

  lemma TracksFacts(g: Needs, limit: nat, outcome: map<string, Outcome>, states: States, active: int, terminal: int, canceling: bool, log: Log)
    requires Tracks(g, limit, states, active, terminal, canceling, log) && Sound(g, outcome, true, states)
    ensures states.Keys == g.Keys && (active == 0 ==> RunningIn(states) == {})
  {
    hide After, LogOk, SoundJob;
  }

  lemma CancelTurn(g: Needs, order: seq<string>, limit: nat, a: States, b: States, terminal: int, log: Log, i: nat)
    requires Topological(g, order) && CanceledUpTo(g, order, a, b, i) && i < |order|
    requires Tracks(g, limit, b, 0, terminal, true, log)
    ensures b == After(g.Keys, log) && Turn(g, order, b, order[i], Canceled)
  {
    hide After, LogOk;
    TurnOf(g, order, b, i, Canceled);
  }

  /** Once nothing runs any more, a canceling scheduler cancels whatever never started. */
  method CancelRest(g: Needs, order: seq<string>, limit: nat, ghost outcome: map<string, Outcome>,
                    states0: States, terminal0: int, log0: Log)
    returns (states: States, terminal: int, log: Log)
    requires Topological(g, order)
    requires Tracks(g, limit, states0, 0, terminal0, true, log0) && Sound(g, outcome, true, states0)
    ensures Tracks(g, limit, states, 0, terminal, true, log) && Sound(g, outcome, true, states)
    ensures states0.Keys == states.Keys == g.Keys && DoneIn(states) == g.Keys
    ensures forall j :: j in g ==> states[j] == if states0[j].Pending? then Canceled else states0[j]
    ensures MovesPending(g, order, log0, log)
  {
    hide Tracks, Sound, CanceledUpTo, DoneIn, RunningIn, MovesPending;
    MovesPendingNone(g, order, log0);
    states, terminal, log := states0, terminal0, log0;
    TracksFacts(g, limit, outcome, states0, 0, terminal0, true, log0);
    CancelStarts(g, order, states0);
    for i := 0 to |order|
      invariant Tracks(g, limit, states, 0, terminal, true, log) && Sound(g, outcome, true, states)
      invariant states.Keys == g.Keys && CanceledUpTo(g, order, states0, states, i) && MovesPending(g, order, log0, log)
    {
      var name := order[i];
      CancelUpTo(g, order, states0, states, i);
      if states[name].Pending? {
        CancelStepKeeps(g, limit, outcome, states, terminal, log, name);
        CancelTurn(g, order, limit, states0, states, terminal, log, i);
        MovesPendingPush(g, order, log0, log, states, name, Canceled);
        states, terminal, log := states[name := Canceled], terminal + 1, log + [Moved(name, Pending, Canceled)];
      }
    }
    AllCanceled(g, order, states0, states);
  }

  lemma CancelStarts(g: Needs, order: seq<string>, states: States)
    requires states.Keys == g.Keys
    ensures CanceledUpTo(g, order, states, states, 0)
  {
  }

  lemma SeenTracks(g: Needs, limit: nat, states: States, active: int, terminal: int, log: Log)
    requires Tracks(g, limit, states, active, terminal, false, log)
    ensures Tracks(g, limit, states, active, terminal, true, log + [CancelSeen])
  {
    AfterPush(g.Keys, log, CancelSeen);
    assert (log + [CancelSeen])[..|log|] == log;
  }

  lemma SoundWhenCanceled(g: Needs, outcome: map<string, Outcome>, canceled: bool, states: States)
    requires Sound(g, outcome, canceled, states)
    ensures Sound(g, outcome, true, states)
  {
    forall j | j in g ensures SoundJob(g, outcome, true, states, j) {
      assert SoundJob(g, outcome, canceled, states, j);
    }
  }

  /** What a running job may report: its own outcome, or anything once its context is canceled;
      canceled only then. */
  ghost predicate MayReport(o: Outcome, canceled: bool, to: JobState, internal: bool) {
    && (to.Passed? || to.Failed? || (to.Canceled? && canceled))
    && (internal ==> to.Failed?)
    && (!canceled ==> (to.Passed? <==> o.passed) && (internal <==> !o.passed && o.internal))
  }

  ghost predicate InternalFailure(outcome: map<string, Outcome>, states: States) {
    exists j :: j in states && j in outcome && states[j].Failed? && outcome[j].internal
  }

  lemma ReportKeeps(g: Needs, limit: nat, outcome: map<string, Outcome>, canceled: bool, states: States,
                    active: int, terminal: int, canceling: bool, log: Log, n: string, to: JobState, internal: bool)
    requires Tracks(g, limit, states, active, terminal, canceling, log) && Sound(g, outcome, canceled, states)
    requires n in g && n in outcome && states[n].Running? && MayReport(outcome[n], canceled, to, internal)
    ensures Tracks(g, limit, states[n := to], active - 1, terminal + 1, canceling, log + [Moved(n, Running, to)])
    ensures Sound(g, outcome, canceled, states[n := to])
    ensures !canceled ==> (InternalFailure(outcome, states[n := to]) <==> InternalFailure(outcome, states) || internal)
  {
    var after := states[n := to];
    MoveTracks(g, limit, states, active, terminal, canceling, log, n, to);
    assert SoundJob(g, outcome, canceled, states, n);
    assert AllPassed(g[n], after) by {
      assert forall d :: d in g[n] ==> d != n;
    }
    MoveKeepsSound(g, outcome, canceled, states, n, to);
    if InternalFailure(outcome, states) {
      var j :| j in states && j in outcome && states[j].Failed? && outcome[j].internal;
      assert j in after && after[j].Failed?;
    }
    if !canceled && internal {
      assert n in after && after[n].Failed? && outcome[n].internal;
    }
  }

  /** A job as the scheduler sees it: some report allowed by its outcome and context. */
  method AwaitReport(states: States, outcome: map<string, Outcome>, canceled: bool)
    returns (name: string, to: JobState, internal: bool)
    requires RunningIn(states) != {} && states.Keys <= outcome.Keys
    ensures name in states && states[name].Running? && MayReport(outcome[name], canceled, to, internal)
  {
    assert exists n :: n in states && states[n].Running? by {
      var n :| n in RunningIn(states);
      assert states[n].Running?;
    }
    name :| name in states && states[name].Running?;
    to := if outcome[name].passed then Passed else Failed;
    internal := !outcome[name].passed && outcome[name].internal;
    if canceled {
      if * {
        to, internal := Canceled, false;
      } else if * {
        to, internal := Passed, false;
      } else {
        to, internal := Failed, *;
      }
    }
  }

  lemma AllDone(g: Needs, states: States, terminal: int)
    requires states.Keys == g.Keys && terminal == |DoneIn(states)|
    ensures terminal <= |g| && (terminal == |g| <==> DoneIn(states) == g.Keys)
  {
    var d := DoneIn(states);
    assert g.Keys == d + (g.Keys - d);
  }

  lemma SoundSolves(g: Needs, outcome: map<string, Outcome>, states: States)
    requires Closed(g) && g.Keys <= outcome.Keys && Sound(g, outcome, false, states) && DoneIn(states) == g.Keys
    ensures Solves(g, map j | j in outcome :: outcome[j].passed, states)
  {
    forall j | j in g
      ensures states[j] == if AllPassed(g[j], states) then (if outcome[j].passed then Passed else Failed) else Blocked
    {
      assert SoundJob(g, outcome, false, states, j);
      assert j in DoneIn(states);
    }
  }

  lemma NoneCanceled(g: Needs, outcome: map<string, Outcome>, states: States)
    requires Sound(g, outcome, false, states)
    ensures Canceled !in states.Values
  {
    forall j | j in states ensures !states[j].Canceled? {
      assert SoundJob(g, outcome, false, states, j);
    }
  }

  lemma Starts(g: Needs, limit: nat, outcome: map<string, Outcome>)
    ensures Tracks(g, limit, AllPending(g.Keys), 0, 0, false, []) && Sound(g, outcome, false, AllPending(g.Keys))
    ensures !InternalFailure(outcome, AllPending(g.Keys))
  {
    var states := AllPending(g.Keys);
    assert RunningIn(states) == {} && DoneIn(states) == {};
  }

  lemma SameInternalFailure(outcome: map<string, Outcome>, a: States, b: States)
    requires SameFailed(a, b)
    ensures InternalFailure(outcome, a) <==> InternalFailure(outcome, b)
  {
    if j :| j in a && j in outcome && a[j].Failed? && outcome[j].internal { assert j in b && b[j].Failed?; }
    if j :| j in b && j in outcome && b[j].Failed? && outcome[j].internal { assert j in a && a[j].Failed?; }
  }

  // ----- The loop, step by step -----

  /** At the head of the loop, after looking at the context, at the select, or out of the loop. */
  datatype Phase = Top | Body | Select | Stopped

  /** The loop's variables: `canceled` is the context's own state, `canceling` whether the loop has noticed it. */
  datatype Loop = Loop(phase: Phase, states: States, active: int, terminal: int, canceling: bool, canceled: bool,
                       internalError: bool, log: Log)

  ghost function Begin(names: set<string>): Loop {
    Loop(Top, AllPending(names), 0, 0, false, false, false, [])
  }

  /** The context may be canceled at any time. */
  ghost predicate ContextCanceled(s: Loop, t: Loop) {
    !s.phase.Stopped? && t == s.(canceled := true)
  }

  /** The loop looks at the context. */
  ghost predicate Checks(g: Needs, s: Loop, t: Loop) {
    && s.phase.Top? && s.terminal < |g|
    && t == if s.canceled && !s.canceling then s.(phase := Body, canceling := true, log := s.log + [CancelSeen]) else s.(phase := Body)
  }

  /** Blocks every pending job behind a failure, then starts ready ones up to the limit. */
  ghost predicate AdvancesStates(g: Needs, limit: nat, a: States, b: States) {
    && b.Keys == g.Keys && NoneBehindFailure(g, b) && (|RunningIn(b)| < limit ==> NoneReady(g, b))
    && exists mid :: OnlyBlocked(g, a, mid) && NoneBehindFailure(g, mid) && OnlyStarted(g, mid, b)
  }

  ghost predicate Advances(g: Needs, order: seq<string>, limit: nat, s: Loop, t: Loop) {
    && s.phase.Body? && !s.canceling && AdvancesStates(g, limit, s.states, t.states)
    && t == s.(phase := Select, states := t.states, active := |RunningIn(t.states)|, terminal := |DoneIn(t.states)|, log := t.log)
    && t.states == After(g.Keys, t.log) && LogOk(g, limit, t.log) && MovesPending(g, order, s.log, t.log)
  }

  /** Cancels every pending job, once nothing runs. */
  ghost predicate WindsDown(g: Needs, order: seq<string>, s: Loop, t: Loop) {
    && s.phase.Body? && s.canceling && s.active == 0 && s.states.Keys == t.states.Keys == g.Keys
    && (forall j :: j in g ==> t.states[j] == if s.states[j].Pending? then Canceled else s.states[j])
    && t == s.(phase := Stopped, states := t.states, terminal := |DoneIn(t.states)|, log := t.log)
    && t.states == After(g.Keys, t.log) && MovesPending(g, order, s.log, t.log)
  }

  /** A canceling loop goes on to wait for what still runs. */
  ghost predicate Proceeds(s: Loop, t: Loop) {
    s.phase.Body? && s.canceling && s.active != 0 && t == s.(phase := Select)
  }

  ghost predicate Ends(g: Needs, s: Loop, t: Loop) {
    s.phase.Select? && s.active == 0 && s.terminal == |g| && t == s.(phase := Stopped)
  }

  /** The select takes the cancellation. */
  ghost predicate TurnsBack(s: Loop, t: Loop) {
    s.phase.Select? && s.active != 0 && !s.canceling && s.canceled && t == s.(phase := Top)
  }

  /** The select, or a canceling loop, takes a completion. */
  ghost predicate Takes(outcome: map<string, Outcome>, s: Loop, t: Loop, name: string, to: JobState, internal: bool) {
    && s.phase.Select? && s.active != 0 && name in s.states && name in outcome && s.states[name].Running?
    && MayReport(outcome[name], s.canceled, to, internal)
    && t == s.(phase := Top, states := s.states[name := to], log := s.log + [Moved(name, Running, to)],
               internalError := s.internalError || internal, active := s.active - 1, terminal := s.terminal + 1)
  }

  ghost predicate TakesSome(outcome: map<string, Outcome>, s: Loop, t: Loop) {
    exists name, to, internal :: Takes(outcome, s, t, name, to, internal)
  }

  /** One step. The internal-error fallback is not among them: `Round` never gets there. */
  ghost predicate LoopStep(g: Needs, order: seq<string>, limit: nat, outcome: map<string, Outcome>, s: Loop, t: Loop) {
    || ContextCanceled(s, t) || Checks(g, s, t) || Advances(g, order, limit, s, t) || WindsDown(g, order, s, t)
    || Proceeds(s, t) || Ends(g, s, t) || TurnsBack(s, t) || TakesSome(outcome, s, t)
  }

  /** What the loop goes through, from its start. */
  ghost predicate Trace(g: Needs, order: seq<string>, limit: nat, outcome: map<string, Outcome>, trace: seq<Loop>) {
    && trace != [] && trace[0] == Begin(g.Keys)
    && (forall i :: 0 <= i < |trace| - 1 ==> LoopStep(g, order, limit, outcome, trace[i], trace[i + 1]))
  }

  ghost predicate Returned(g: Needs, s: Loop) {
    s.phase.Stopped? || (s.phase.Top? && s.terminal == |g|)
  }

  ghost function Last(trace: seq<Loop>): Loop
    requires trace != []
  {
    trace[|trace| - 1]
  }

  lemma TracePush(g: Needs, order: seq<string>, limit: nat, outcome: map<string, Outcome>, trace: seq<Loop>, t: Loop)
    requires Trace(g, order, limit, outcome, trace) && LoopStep(g, order, limit, outcome, Last(trace), t)
    ensures Trace(g, order, limit, outcome, trace + [t]) && Last(trace + [t]) == t
  {
    hide LoopStep;
  }

  // ----- What the log says -----

  /** Nothing is left to do but to wait: no pending job is behind a failure, and none is ready unless as many run as may. */
  ghost predicate Waiting(g: Needs, limit: nat, states: States) {
    && states.Keys == g.Keys && NoneBehindFailure(g, states) && (|RunningIn(states)| < limit ==> NoneReady(g, states))
  }

  /** Each entry is the one the loop makes at that point: a pending job moves when it is its turn, and starts only when nothing is
      left to block; until a cancellation is noticed, a report is taken only when there is nothing to do but wait. */
  ghost predicate Due(g: Needs, order: seq<string>, limit: nat, log: Log, i: nat)
    requires i < |log|
  {
    match log[i]
    case CancelSeen => true
    case Moved(_, from, _) =>
      if from.Pending? then MovedInTurn(g, order, log, i)
      else CancelSeen in log[..i] || Waiting(g, limit, After(g.Keys, log[..i]))
  }

  ghost predicate InOrder(g: Needs, order: seq<string>, limit: nat, log: Log) {
    forall i :: 0 <= i < |log| ==> Due(g, order, limit, log, i)
  }

  lemma DueWithin(g: Needs, order: seq<string>, limit: nat, before: Log, after: Log, i: nat)
    requires before <= after && i < |before| && Due(g, order, limit, before, i)
    ensures Due(g, order, limit, after, i)
  {
    hide After, Turn, Waiting;
    assert before[..i] == after[..i];
  }

  lemma InOrderPush(g: Needs, order: seq<string>, limit: nat, log: Log, o: Observation)
    requires InOrder(g, order, limit, log)
    requires o.CancelSeen? || (!o.from.Pending? && (CancelSeen in log || Waiting(g, limit, After(g.Keys, log))))
    ensures InOrder(g, order, limit, log + [o])
  {
    hide After, Turn, Waiting, MovedInTurn;
    forall i | 0 <= i < |log + [o]| ensures Due(g, order, limit, log + [o], i) {
      if i < |log| {
        DueWithin(g, order, limit, log, log + [o], i);
      } else {
        assert (log + [o])[..i] == log;
      }
    }
  }

  lemma InOrderMoves(g: Needs, order: seq<string>, limit: nat, before: Log, after: Log)
    requires InOrder(g, order, limit, before) && MovesPending(g, order, before, after)
    ensures InOrder(g, order, limit, after)
  {
    hide MovedInTurn, After;
    forall i | 0 <= i < |after| ensures Due(g, order, limit, after, i) {
      if i < |before| {
        DueWithin(g, order, limit, before, after, i);
      } else {
        InTurnMoved(g, order, after, i);
      }
    }
  }

  lemma InTurnMoved(g: Needs, order: seq<string>, log: Log, i: nat)
    requires i < |log| && MovedInTurn(g, order, log, i)
    ensures log[i].Moved? && log[i].from.Pending?
  {
  }

  ghost predicate OrderOk(g: Needs, order: seq<string>, limit: nat, s: Loop) {
    && s.states == After(g.Keys, s.log) && (s.canceling <==> CancelSeen in s.log) && InOrder(g, order, limit, s.log)
    && (s.phase.Select? && !s.canceling ==> Waiting(g, limit, s.states))
  }

  lemma TakeKeepsOrder(g: Needs, order: seq<string>, limit: nat, outcome: map<string, Outcome>, s: Loop, t: Loop,
                       name: string, to: JobState, internal: bool)
    requires OrderOk(g, order, limit, s) && Takes(outcome, s, t, name, to, internal)
    ensures OrderOk(g, order, limit, t)
  {
    AfterPush(g.Keys, s.log, Moved(name, Running, to));
    hide After, InOrder, Waiting, MayReport;
    InOrderPush(g, order, limit, s.log, Moved(name, Running, to));
  }

  lemma StepKeepsOrder(g: Needs, order: seq<string>, limit: nat, outcome: map<string, Outcome>, s: Loop, t: Loop)
    requires OrderOk(g, order, limit, s) && LoopStep(g, order, limit, outcome, s, t)
    ensures OrderOk(g, order, limit, t)
  {
    hide After, LogOk, MovesPending, InOrder, Takes, MayReport, RunningIn, DoneIn, NoneReady, NoneBehindFailure, OnlyBlocked, OnlyStarted;
    if Checks(g, s, t) {
      AfterPush(g.Keys, s.log, CancelSeen);
      InOrderPush(g, order, limit, s.log, CancelSeen);
    } else if Advances(g, order, limit, s, t) {
      InOrderMoves(g, order, limit, s.log, t.log);
      PendingMovesSeeNothing(g, order, s.log, t.log);
    } else if WindsDown(g, order, s, t) {
      InOrderMoves(g, order, limit, s.log, t.log);
      PendingMovesSeeNothing(g, order, s.log, t.log);
    } else if TakesSome(outcome, s, t) {
      var name, to, internal :| Takes(outcome, s, t, name, to, internal);
      TakeKeepsOrder(g, order, limit, outcome, s, t, name, to, internal);
    }
  }

  /** In every trace of the loop, every entry of the log is due when it is made. */
  lemma {:induction false} LogInOrder(g: Needs, order: seq<string>, limit: nat, outcome: map<string, Outcome>, trace: seq<Loop>, i: nat)
    requires Trace(g, order, limit, outcome, trace) && i < |trace|
    ensures OrderOk(g, order, limit, trace[i])
  {
    if i == 0 {
      assert OrderOk(g, order, limit, Begin(g.Keys));
    } else {
      hide OrderOk, LoopStep;
      LogInOrder(g, order, limit, outcome, trace, i - 1);
      assert LoopStep(g, order, limit, outcome, trace[i - 1], trace[i - 1 + 1]);
      StepKeepsOrder(g, order, limit, outcome, trace[i - 1], trace[i]);
    }
  }

  /** The reports a log took, in the order in which they arrived. */
  ghost function Reports(log: Log): Log {
    if log == [] then []
    else
      var last := log[|log| - 1];
      Reports(log[..|log| - 1]) + if last.Moved? && last.from.Running? then [last] else []
  }

  lemma {:induction false} ReportsWithin(log: Log, k: nat)
    requires k <= |log|
    ensures Reports(log[..k]) <= Reports(log)
  {
    if k < |log| {
      ReportsWithin(log[..|log| - 1], k);
      assert log[..|log| - 1][..k] == log[..k];
    } else {
      assert log[..k] == log;
    }
  }

  lemma {:induction false} LegalAt(g: Needs, limit: nat, log: Log, k: nat)
    requires LogOk(g, limit, log) && k < |log| && log[k].Moved?
    ensures Legal(g, limit, CancelSeen in log[..k], After(g.Keys, log[..k]), log[k].name, log[k].from, log[k].to)
  {
    hide Legal;
    var before := log[..|log| - 1];
    if k < |before| {
      LegalAt(g, limit, before, k);
      assert before[..k] == log[..k];
    }
  }

  /** In a given state at most one pending job may move, and in at most one way; and if one may, no report may be taken. */
  lemma OneMoveDue(g: Needs, order: seq<string>, limit: nat, states: States, m: string, to: JobState, n: string, too: JobState)
    requires Topological(g, order) && states.Keys == g.Keys
    requires Legal(g, limit, false, states, m, Pending, to) && Turn(g, order, states, m, to)
    requires Legal(g, limit, false, states, n, Pending, too) && Turn(g, order, states, n, too)
    requires to.Running? || too.Running? ==> NoneBehindFailure(g, states)
    ensures m == n && to == too && !Waiting(g, limit, states)
  {
    var i, k := Index(order, m), Index(order, n);
    assert Applies(g, states, m, to) && Applies(g, states, n, too);
  }

  ghost predicate NextDue(g: Needs, order: seq<string>, limit: nat, states: States, o: Observation) {
    && o.Moved? && Legal(g, limit, false, states, o.name, o.from, o.to)
    && if o.from.Pending? then Turn(g, order, states, o.name, o.to) && (o.to.Running? ==> states.Keys == g.Keys && NoneBehindFailure(g, states))
      else Waiting(g, limit, states)
  }

  lemma NextOf(g: Needs, order: seq<string>, limit: nat, log: Log, k: nat)
    requires LogOk(g, limit, log) && InOrder(g, order, limit, log) && CancelSeen !in log && k < |log|
    ensures NextDue(g, order, limit, After(g.Keys, log[..k]), log[k])
  {
    hide After, Legal, Turn, Waiting, NoneBehindFailure, LogOk;
    assert log[k] != CancelSeen && Due(g, order, limit, log, k);
    LegalAt(g, limit, log, k);
  }

  lemma SameNext(g: Needs, order: seq<string>, limit: nat, states: States, o: Observation, p: Observation)
    requires Topological(g, order) && states.Keys == g.Keys
    requires NextDue(g, order, limit, states, o) && NextDue(g, order, limit, states, p)
    ensures o == p || (o.Moved? && o.from.Running? && p.Moved? && p.from.Running?)
  {
    hide Turn, NoneBehindFailure, Waiting, SomeFailed, AllPassed;
    if o.from.Pending? && p.from.Pending? {
      OneMoveDue(g, order, limit, states, o.name, o.to, p.name, p.to);
    } else if o.from.Pending? {
      OneMoveDue(g, order, limit, states, o.name, o.to, o.name, o.to);
    } else if p.from.Pending? {
      OneMoveDue(g, order, limit, states, p.name, p.to, p.name, p.to);
    }
  }

  lemma {:induction false} AfterKeys(g: Needs, limit: nat, log: Log)
    requires LogOk(g, limit, log)
    ensures After(g.Keys, log).Keys == g.Keys
  {
    if log != [] {
      AfterKeys(g, limit, log[..|log| - 1]);
    }
  }

  lemma {:induction false} PrefixOk(g: Needs, limit: nat, log: Log, k: nat)
    requires LogOk(g, limit, log) && k <= |log|
    ensures LogOk(g, limit, log[..k])
  {
    if k < |log| {
      PrefixOk(g, limit, log[..|log| - 1], k);
      assert log[..|log| - 1][..k] == log[..k];
    } else {
      assert log[..k] == log;
    }
  }

  ghost predicate Schedule(g: Needs, order: seq<string>, limit: nat, log: Log) {
    LogOk(g, limit, log) && InOrder(g, order, limit, log) && CancelSeen !in log
  }

  lemma SameReport(a: Log, b: Log, k: nat)
    requires k < |a| && k < |b| && a[..k] == b[..k] && Reports(a) == Reports(b)
    requires a[k].Moved? && a[k].from.Running? && b[k].Moved? && b[k].from.Running?
    ensures a[k] == b[k]
  {
    ReportsWithin(a, k + 1);
    ReportsWithin(b, k + 1);
    assert a[..k + 1][..k] == a[..k] && b[..k + 1][..k] == b[..k];
    var r := |Reports(a[..k])|;
    assert Reports(a[..k + 1])[r] == a[k] && Reports(b[..k + 1])[r] == b[k];
  }

  lemma {:induction false} SameUpTo(g: Needs, order: seq<string>, limit: nat, a: Log, b: Log, k: nat)
    requires Topological(g, order) && Schedule(g, order, limit, a) && Schedule(g, order, limit, b)
    requires Reports(a) == Reports(b) && k <= |a| && k <= |b|
    ensures a[..k] == b[..k]
  {
    hide Topological, LogOk, InOrder, After, NextDue, Reports;
    if k > 0 {
      SameUpTo(g, order, limit, a, b, k - 1);
      var states := After(g.Keys, a[..k - 1]);
      PrefixOk(g, limit, a, k - 1);
      AfterKeys(g, limit, a[..k - 1]);
      NextOf(g, order, limit, a, k - 1);
      NextOf(g, order, limit, b, k - 1);
      SameNext(g, order, limit, states, a[k - 1], b[k - 1]);
      if a[k - 1] != b[k - 1] {
        SameReport(a, b, k - 1);
      }
      assert a[..k] == a[..k - 1] + [a[k - 1]] && b[..k] == b[..k - 1] + [b[k - 1]];
    }
  }

  lemma NothingAfterEnd(g: Needs, limit: nat, log: Log, k: nat)
    requires LogOk(g, limit, log) && k < |log| && CancelSeen !in log
    ensures DoneIn(After(g.Keys, log[..k])) != g.Keys
  {
    hide LogOk, After;
    assert log[k] != CancelSeen;
    LegalAt(g, limit, log, k);
    assert log[k].name !in DoneIn(After(g.Keys, log[..k]));
  }

  /** Unless a cancellation is noticed, the order in which reports arrive determines everything the scheduler does: two complete
      logs with the same reports are the same. */
  lemma ScheduleDetermined(g: Needs, order: seq<string>, limit: nat, a: Log, b: Log)
    requires Topological(g, order) && Schedule(g, order, limit, a) && Schedule(g, order, limit, b) && Reports(a) == Reports(b)
    requires DoneIn(After(g.Keys, a)) == g.Keys && DoneIn(After(g.Keys, b)) == g.Keys
    ensures a == b
  {
    hide Topological, LogOk, InOrder, After, DoneIn, Reports;
    var k := if |a| <= |b| then |a| else |b|;
    SameUpTo(g, order, limit, a, b, k);
    assert a[..|a|] == a && b[..|b|] == b;
    if |a| <= |b| {
      CompleteIsLongest(g, limit, a, b);
    } else {
      CompleteIsLongest(g, limit, b, a);
    }
  }

  lemma CompleteIsLongest(g: Needs, limit: nat, a: Log, b: Log)
    requires LogOk(g, limit, b) && CancelSeen !in b && a <= b && DoneIn(After(g.Keys, a)) == g.Keys
    ensures a == b
  {
    hide LogOk, After, DoneIn;
    assert a == b[..|a|];
    if |a| < |b| { NothingAfterEnd(g, limit, b, |a|); }
  }

  // ----- When a cancellation is noticed -----

  ghost predicate NoneCanceledIn(states: States) {
    forall j :: j in states ==> !states[j].Canceled?
  }

  /** A job that ended canceled is the one whose report was taken last. */
  ghost predicate OnlyLastCanceled(states: States, log: Log) {
    forall j :: j in states && states[j].Canceled? ==> log != [] && log[|log| - 1] == Moved(j, Running, Canceled)
  }

  /** Past the check without having noticed anything, no job is canceled; at the head, only the last to report. */
  ghost predicate TraceOk(g: Needs, s: Loop) {
    && s.states == After(g.Keys, s.log) && (s.canceling <==> CancelSeen in s.log)
    && (s.canceling ==> s.canceled) && (!s.canceled ==> NoneCanceledIn(s.states))
    && (!s.canceling ==> if s.phase.Top? then OnlyLastCanceled(s.states, s.log) else NoneCanceledIn(s.states))
  }

  lemma AdvanceCancelsNone(g: Needs, limit: nat, a: States, b: States)
    requires AdvancesStates(g, limit, a, b) && NoneCanceledIn(a)
    ensures NoneCanceledIn(b)
  {
    var mid :| OnlyBlocked(g, a, mid) && NoneBehindFailure(g, mid) && OnlyStarted(g, mid, b);
    hide SomeFailed, AllPassed, NoneBehindFailure, NoneReady;
    forall j | j in b ensures !b[j].Canceled? {
      assert j in g && j in a && j in mid;
    }
  }

  lemma TakeKeepsTrace(g: Needs, outcome: map<string, Outcome>, s: Loop, t: Loop, name: string, to: JobState, internal: bool)
    requires TraceOk(g, s) && Takes(outcome, s, t, name, to, internal)
    ensures TraceOk(g, t)
  {
    AfterPush(g.Keys, s.log, Moved(name, Running, to));
    hide After;
  }

  lemma CheckKeepsTrace(g: Needs, s: Loop, t: Loop)
    requires TraceOk(g, s) && Checks(g, s, t)
    ensures TraceOk(g, t)
  {
    AfterPush(g.Keys, s.log, CancelSeen);
    hide After;
  }

  lemma PendingMovesSeeNothing(g: Needs, order: seq<string>, before: Log, after: Log)
    requires MovesPending(g, order, before, after)
    ensures CancelSeen in after <==> CancelSeen in before
  {
    hide After, Turn;
    forall i | |before| <= i < |after| ensures after[i].Moved? {
      assert MovedInTurn(g, order, after, i);
    }
  }

  lemma StepKeepsTrace(g: Needs, order: seq<string>, limit: nat, outcome: map<string, Outcome>, s: Loop, t: Loop)
    requires TraceOk(g, s) && LoopStep(g, order, limit, outcome, s, t)
    ensures TraceOk(g, t)
  {
    hide After, LogOk, AdvancesStates, MovesPending, Takes, MayReport, RunningIn, DoneIn;
    if Checks(g, s, t) {
      CheckKeepsTrace(g, s, t);
    } else if Advances(g, order, limit, s, t) {
      AdvanceCancelsNone(g, limit, s.states, t.states);
      PendingMovesSeeNothing(g, order, s.log, t.log);
    } else if WindsDown(g, order, s, t) {
      PendingMovesSeeNothing(g, order, s.log, t.log);
    } else if TakesSome(outcome, s, t) {
      var name, to, internal :| Takes(outcome, s, t, name, to, internal);
      TakeKeepsTrace(g, outcome, s, t, name, to, internal);
    } else if TurnsBack(s, t) {
      NoneThenLast(s.states, s.log);
    }
  }

  lemma NoneThenLast(states: States, log: Log)
    ensures NoneCanceledIn(states) ==> OnlyLastCanceled(states, log)
  {
  }

  lemma {:induction false} TraceKeeps(g: Needs, order: seq<string>, limit: nat, outcome: map<string, Outcome>, trace: seq<Loop>, i: nat)
    requires Trace(g, order, limit, outcome, trace) && i < |trace|
    ensures TraceOk(g, trace[i])
  {
    if i == 0 {
      assert TraceOk(g, Begin(g.Keys));
    } else {
      hide TraceOk, LoopStep;
      TraceKeeps(g, order, limit, outcome, trace, i - 1);
      assert LoopStep(g, order, limit, outcome, trace[i - 1], trace[i - 1 + 1]);
      StepKeepsTrace(g, order, limit, outcome, trace[i - 1], trace[i]);
    }
  }

  ghost predicate LastMoveCancels(log: Log) {
    log != [] && log[|log| - 1].Moved? && log[|log| - 1].to.Canceled?
  }

  lemma LastMoveShows(names: set<string>, log: Log)
    requires LastMoveCancels(log)
    ensures log[|log| - 1].name in After(names, log) && After(names, log)[log[|log| - 1].name].Canceled?
  {
  }

  /** However a run went, if it returns without having noticed a cancellation then a job ended canceled exactly if the last
      completion it took says so, and that job is the only one. */
  lemma UnnoticedIff(g: Needs, order: seq<string>, limit: nat, outcome: map<string, Outcome>, trace: seq<Loop>)
    requires Trace(g, order, limit, outcome, trace) && !Last(trace).canceling
    ensures
      var s := Last(trace);
      OnlyLastCanceled(s.states, s.log) && (Canceled in s.states.Values <==> LastMoveCancels(s.log))
  {
    hide Trace, After;
    TraceKeeps(g, order, limit, outcome, trace, |trace| - 1) by { LastIsStep(g, order, limit, outcome, trace); }
    var s := Last(trace);
    NoneThenLast(s.states, s.log);
    if LastMoveCancels(s.log) {
      LastMoveShows(g.Keys, s.log);
      assert s.states[s.log[|s.log| - 1].name] in s.states.Values;
    }
    if Canceled in s.states.Values {
      var j :| j in s.states && s.states[j] == Canceled;
    }
  }

  lemma LastIsStep(g: Needs, order: seq<string>, limit: nat, outcome: map<string, Outcome>, trace: seq<Loop>)
    requires Trace(g, order, limit, outcome, trace)
    ensures trace != []
  {
  }

  /** The loop looked at its context after it was canceled. */
  ghost predicate LookedAfterCancel(trace: seq<Loop>, n: nat)
    requires n <= |trace|
  {
    exists i :: 0 <= i < n - 1 && trace[i].phase.Top? && trace[i + 1].phase.Body? && trace[i].canceled
  }

  lemma CancelingStep(g: Needs, order: seq<string>, limit: nat, outcome: map<string, Outcome>, s: Loop, t: Loop)
    requires LoopStep(g, order, limit, outcome, s, t) && (s.canceling ==> s.canceled)
    ensures t.canceling <==> s.canceling || (s.phase.Top? && t.phase.Body? && s.canceled)
    ensures t.canceling ==> t.canceled
  {
    hide After, LogOk, AdvancesStates, MovesPending, MayReport, RunningIn, DoneIn;
  }

  /** Exactly when a run counts as interrupted: it looked at its context, at the head of the loop, after the cancellation. */
  lemma {:induction false} InterruptedIffLooked(g: Needs, order: seq<string>, limit: nat, outcome: map<string, Outcome>, trace: seq<Loop>, k: nat)
    requires Trace(g, order, limit, outcome, trace) && k < |trace|
    ensures trace[k].canceling <==> LookedAfterCancel(trace, k + 1)
    ensures trace[k].canceling ==> trace[k].canceled
    decreases k
  {
    if k > 0 {
      hide LoopStep;
      InterruptedIffLooked(g, order, limit, outcome, trace, k - 1);
      assert LoopStep(g, order, limit, outcome, trace[k - 1], trace[k - 1 + 1]);
      CancelingStep(g, order, limit, outcome, trace[k - 1], trace[k]);
      if LookedAfterCancel(trace, k) {
        var i :| 0 <= i < k - 1 && trace[i].phase.Top? && trace[i + 1].phase.Body? && trace[i].canceled;
        assert 0 <= i < k + 1 - 1;
      }
    }
  }

  // ----- The loop itself -----

  ghost predicate LoopOk(g: Needs, limit: nat, outcome: map<string, Outcome>, s: Loop) {
    && s.states.Keys == g.Keys
    && Tracks(g, limit, s.states, s.active, s.terminal, s.canceling, s.log) && Sound(g, outcome, s.canceled, s.states)
    && (s.canceling ==> s.canceled)
    && (!s.canceled ==> (s.internalError <==> InternalFailure(outcome, s.states)))
  }

  lemma LoopStarts(g: Needs, limit: nat, outcome: map<string, Outcome>, states: States)
    requires states == AllPending(g.Keys)
    ensures LoopOk(g, limit, outcome, Loop(Top, states, 0, 0, false, false, false, []))
  {
    hide Tracks, Sound, InternalFailure;
    Starts(g, limit, outcome);
  }

  lemma LoopCounts(g: Needs, limit: nat, outcome: map<string, Outcome>, s: Loop)
    requires LoopOk(g, limit, outcome, s)
    ensures s.states.Keys == g.Keys && s.active == |RunningIn(s.states)| && s.terminal == |DoneIn(s.states)|
    ensures s.terminal <= |g| && (s.terminal == |g| <==> DoneIn(s.states) == g.Keys) && (s.canceling ==> s.canceled)
  {
    hide LogOk, Sound, InternalFailure, After;
    AllDone(g, s.states, s.terminal);
  }

  /** The loop is at the end of `trace`. */
  ghost predicate Going(g: Needs, order: seq<string>, limit: nat, outcome: map<string, Outcome>, s: Loop, trace: seq<Loop>) {
    LoopOk(g, limit, outcome, s) && trace != [] && Trace(g, order, limit, outcome, trace) && Last(trace) == s
  }

  lemma GoOn(g: Needs, order: seq<string>, limit: nat, outcome: map<string, Outcome>, s: Loop, trace: seq<Loop>, t: Loop)
    requires Going(g, order, limit, outcome, s, trace) && LoopOk(g, limit, outcome, t) && LoopStep(g, order, limit, outcome, s, t)
    ensures Going(g, order, limit, outcome, t, trace + [t])
  {
    hide LoopOk, LoopStep, Trace;
    TracePush(g, order, limit, outcome, trace, t);
  }

  lemma CancelKeepsLoop(g: Needs, limit: nat, outcome: map<string, Outcome>, s: Loop)
    requires LoopOk(g, limit, outcome, s)
    ensures LoopOk(g, limit, outcome, s.(canceled := true))
  {
    hide Tracks, Sound;
    SoundWhenCanceled(g, outcome, s.canceled, s.states);
  }

  /** The context is canceled. */
  method CancelContext(g: Needs, ghost order: seq<string>, ghost limit: nat, ghost outcome: map<string, Outcome>, s: Loop, ghost trace0: seq<Loop>)
    returns (t: Loop, ghost trace: seq<Loop>)
    requires Going(g, order, limit, outcome, s, trace0) && !s.phase.Stopped?
    ensures Going(g, order, limit, outcome, t, trace) && t == s.(canceled := true)
  {
    hide LoopOk, Trace;
    t := s.(canceled := true);
    CancelKeepsLoop(g, limit, outcome, s);
    GoOn(g, order, limit, outcome, s, trace0, t);
    trace := trace0 + [t];
  }

  /** Looks at the context. */
  method Check(g: Needs, ghost order: seq<string>, ghost limit: nat, ghost outcome: map<string, Outcome>, s: Loop, ghost trace0: seq<Loop>)
    returns (t: Loop, ghost trace: seq<Loop>)
    requires Going(g, order, limit, outcome, s, trace0) && s.phase.Top? && s.terminal < |g|
    ensures Going(g, order, limit, outcome, t, trace) && Checks(g, s, t)
  {
    hide Tracks, Sound, Trace;
    if s.canceled && !s.canceling {
      SeenTracks(g, limit, s.states, s.active, s.terminal, s.log);
      t := s.(phase := Body, canceling := true, log := s.log + [CancelSeen]);
    } else {
      t := s.(phase := Body);
    }
    GoOn(g, order, limit, outcome, s, trace0, t);
    trace := trace0 + [t];
  }

  lemma PhaseKeepsLoop(g: Needs, limit: nat, outcome: map<string, Outcome>, s: Loop, phase: Phase)
    requires LoopOk(g, limit, outcome, s)
    ensures LoopOk(g, limit, outcome, s.(phase := phase))
  {
    hide Tracks, Sound, InternalFailure;
  }

  lemma AdvanceIsStep(g: Needs, order: seq<string>, limit: nat, outcome: map<string, Outcome>, s: Loop, mid: States, t: Loop)
    requires s.phase.Body? && !s.canceling && t == s.(phase := Select, states := t.states, active := t.active, terminal := t.terminal, log := t.log)
    requires Tracks(g, limit, t.states, t.active, t.terminal, t.canceling, t.log) && t.states.Keys == g.Keys && MovesPending(g, order, s.log, t.log)
    requires OnlyBlocked(g, s.states, mid) && NoneBehindFailure(g, mid) && OnlyStarted(g, mid, t.states) && (t.active < limit ==> NoneReady(g, t.states))
    requires NoneBehindFailure(g, t.states)
    ensures LoopStep(g, order, limit, outcome, s, t)
  {
    hide After, LogOk, OnlyBlocked, OnlyStarted, NoneBehindFailure, NoneReady, MovesPending;
    assert AdvancesStates(g, limit, s.states, t.states);
    assert Advances(g, order, limit, s, t);
  }

  /** One round of the loop while no cancellation has been noticed: block, then admit. Unless something runs
      afterwards, every job is done. */
  method Advance(g: Needs, order: seq<string>, limit: nat, ghost outcome: map<string, Outcome>, s: Loop, ghost trace0: seq<Loop>)
    returns (t: Loop, ghost trace: seq<Loop>)
    requires Topological(g, order) && Closed(g) && limit > 0 && Going(g, order, limit, outcome, s, trace0) && !s.canceled && s.phase.Body? && !s.canceling
    ensures Going(g, order, limit, outcome, t, trace) && t.phase.Select?
    ensures t.canceling == s.canceling && t.canceled == s.canceled && s.terminal <= t.terminal
    ensures t.active == 0 ==> DoneIn(t.states) == g.Keys
  {
    hide Sound, LogOk, Legal, NoneBehindFailure, NoneReady, AllPassed, InternalFailure, Topological, Closed, SameFailed, OnlyBlocked, OnlyStarted, After,
      MovesPending, LoopStep, Trace;
    var mid, terminal, blocked := BlockPass(g, order, limit, outcome, false, s.states, s.active, s.terminal, s.log);
    var states, active, log := Admit(g, order, limit, outcome, false, mid, s.active, terminal, blocked);
    SameInternalFailure(outcome, s.states, mid);
    SameInternalFailure(outcome, mid, states);
    MovesPendingJoin(g, order, s.log, blocked, log);
    if active == 0 {
      NothingLeft(g, order, outcome, states);
    }
    t := s.(phase := Select, states := states, active := active, terminal := terminal, log := log);
    AdvanceIsStep(g, order, limit, outcome, s, mid, t);
    GoOn(g, order, limit, outcome, s, trace0, t);
    trace := trace0 + [t];
  }

  /** Takes one completion off the channel. */
  method Receive(g: Needs, ghost order: seq<string>, ghost limit: nat, outcome: map<string, Outcome>, s: Loop, ghost trace0: seq<Loop>)
    returns (t: Loop, ghost trace: seq<Loop>)
    requires Going(g, order, limit, outcome, s, trace0) && s.active != 0 && g.Keys <= outcome.Keys && s.phase.Select?
    ensures Going(g, order, limit, outcome, t, trace) && t.phase.Top?
    ensures t.canceling == s.canceling && t.canceled == s.canceled && t.terminal == s.terminal + 1
  {
    hide Sound, LogOk, MayReport, InternalFailure, After, LoopStep, Trace;
    var name, to, internal := AwaitReport(s.states, outcome, s.canceled);
    ReportKeeps(g, limit, outcome, s.canceled, s.states, s.active, s.terminal, s.canceling, s.log, name, to, internal);
    t := s.(phase := Top, states := s.states[name := to], log := s.log + [Moved(name, Running, to)],
            internalError := s.internalError || internal, active := s.active - 1, terminal := s.terminal + 1);
    TakeIsStep(g, order, limit, outcome, s, t, name, to, internal);
    GoOn(g, order, limit, outcome, s, trace0, t);
    trace := trace0 + [t];
  }

  lemma TakeIsStep(g: Needs, order: seq<string>, limit: nat, outcome: map<string, Outcome>, s: Loop, t: Loop, name: string, to: JobState, internal: bool)
    requires Takes(outcome, s, t, name, to, internal)
    ensures LoopStep(g, order, limit, outcome, s, t)
  {
    assert TakesSome(outcome, s, t);
  }

  /** Cancels what never started. */
  method WindDown(g: Needs, order: seq<string>, limit: nat, ghost outcome: map<string, Outcome>, s: Loop, ghost trace0: seq<Loop>)
    returns (t: Loop, ghost trace: seq<Loop>)
    requires Topological(g, order) && Going(g, order, limit, outcome, s, trace0) && s.canceling && s.active == 0 && s.phase.Body?
    ensures Going(g, order, limit, outcome, t, trace) && t.phase.Stopped?
    ensures t.canceling == s.canceling && t.canceled == s.canceled && DoneIn(t.states) == g.Keys
  {
    hide Sound, LogOk, InternalFailure, Topological, After, LoopStep, MovesPending, Trace;
    var states, terminal, log := CancelRest(g, order, limit, outcome, s.states, s.terminal, s.log);
    t := s.(phase := Stopped, states := states, terminal := terminal, log := log);
    WindDownIsStep(g, order, limit, outcome, s, t);
    GoOn(g, order, limit, outcome, s, trace0, t);
    trace := trace0 + [t];
  }

  lemma WindDownIsStep(g: Needs, order: seq<string>, limit: nat, outcome: map<string, Outcome>, s: Loop, t: Loop)
    requires WindsDown(g, order, s, t)
    ensures LoopStep(g, order, limit, outcome, s, t)
  {
  }

  lemma OtherSteps(g: Needs, order: seq<string>, limit: nat, outcome: map<string, Outcome>, s: Loop)
    ensures s.phase.Body? && s.canceling && s.active != 0 ==> LoopStep(g, order, limit, outcome, s, s.(phase := Select))
    ensures s.phase.Select? && s.active == 0 && s.terminal == |g| ==> LoopStep(g, order, limit, outcome, s, s.(phase := Stopped))
    ensures s.phase.Select? && s.active != 0 && !s.canceling && s.canceled ==> LoopStep(g, order, limit, outcome, s, s.(phase := Top))
  {
  }

  lemma LoopEnds(g: Needs, limit: nat, outcome: map<string, Outcome>, s: Loop)
    requires LoopOk(g, limit, outcome, s) && DoneIn(s.states) == g.Keys && Closed(g) && g.Keys <= outcome.Keys
    ensures s.states == After(g.Keys, s.log) && LogOk(g, limit, s.log)
    ensures s.canceling == (CancelSeen in s.log) && (s.canceling ==> s.canceled)
    ensures !s.canceled ==> Solves(g, map j | j in outcome :: outcome[j].passed, s.states)
    ensures !s.canceled ==> (s.internalError <==> InternalFailure(outcome, s.states)) && Canceled !in s.states.Values
  {
    hide Sound, LogOk, InternalFailure, After, Solves, Closed;
    if !s.canceled {
      SoundSolves(g, outcome, s.states);
      NoneCanceled(g, outcome, s.states);
    }
  }

  /** Once around the loop. */
  method Round(g: Needs, order: seq<string>, limit: nat, outcome: map<string, Outcome>, s0: Loop, ghost trace0: seq<Loop>)
    returns (s: Loop, stopped: bool, ghost trace: seq<Loop>)
    requires Topological(g, order) && Closed(g) && g.Keys <= outcome.Keys && limit > 0
    requires Going(g, order, limit, outcome, s0, trace0) && s0.phase.Top? && s0.terminal < |g|
    ensures Going(g, order, limit, outcome, s, trace) && s.terminal <= |g|
    ensures stopped ==> s.phase.Stopped? && s.terminal == |g|
    ensures !stopped ==> s.phase.Top? && s0.terminal <= s.terminal && (s0.terminal == s.terminal ==> s.canceled && !s0.canceled)
  {
    hide Going, Topological, Closed, DoneIn, RunningIn;
    s, trace, stopped := s0, trace0, false;
    if * {
      s, trace := CancelContext(g, order, limit, outcome, s, trace);
    }
    s, trace := Check(g, order, limit, outcome, s, trace);
    GoingCounts(g, order, limit, outcome, s, trace);
    if !s.canceling {
      s, trace := Advance(g, order, limit, outcome, s, trace);
    }
    if s.active == 0 {
      if s.canceling {
        s, trace := WindDown(g, order, limit, outcome, s, trace);
      }
      GoingCounts(g, order, limit, outcome, s, trace);
      if s.terminal != |g| {
        assert false;
      }
      if !s.canceling {
        s, trace := Enter(g, order, limit, outcome, s, Stopped, trace);
      }
      return s, true, trace;
    }
    if s.canceling {
      s, trace := Enter(g, order, limit, outcome, s, Select, trace);
    } else {
      if * {
        s, trace := CancelContext(g, order, limit, outcome, s, trace);
        s, trace := Enter(g, order, limit, outcome, s, Top, trace);
        GoingCounts(g, order, limit, outcome, s, trace);
        return;
      }
    }
    if * {
      s, trace := CancelContext(g, order, limit, outcome, s, trace);
    }
    s, trace := Receive(g, order, limit, outcome, s, trace);
    GoingCounts(g, order, limit, outcome, s, trace);
  }

  /**
   `Runner.Run`. It always returns, with every job done. The log it observed is legal: a job starts only
   after all its dependencies passed, at most max(1, maxParallel) jobs run at once, nothing starts after the
   cancellation is noticed, and no job is failed without having run. It is also in order: whoever is started, blocked or
   given up is the first such job in `order`, and the loop waits for a report only when nothing else is left to do. If the context was never canceled the
   states are the ones the graph and the outcomes determine. A cancellation that the select passes over for the
   last completion is never noticed; so in a result that is not interrupted, a job ended canceled exactly if that
   completion says so. `trace` is what the loop went through.
   */
  method Run(g: Needs, order: seq<string>, maxParallel: int, outcome: map<string, Outcome>)
    returns (result: Result, log: Log, canceled: bool, ghost trace: seq<Loop>)
    requires Topological(g, order) && Closed(g) && g.Keys <= outcome.Keys
    ensures result.states == After(g.Keys, log) && DoneIn(result.states) == g.Keys == result.states.Keys
    ensures LogOk(g, if maxParallel < 1 then 1 else maxParallel, log) && InOrder(g, order, if maxParallel < 1 then 1 else maxParallel, log)
    ensures result.interrupted == (CancelSeen in log) && (result.interrupted ==> canceled)
    ensures !canceled ==> Solves(g, map j | j in outcome :: outcome[j].passed, result.states)
    ensures !canceled ==> (result.internalError <==> InternalFailure(outcome, result.states))
    ensures Canceled in result.states.Values ==> canceled
    ensures !result.interrupted ==> OnlyLastCanceled(result.states, log) && (Canceled in result.states.Values <==> LastMoveCancels(log))
    ensures Trace(g, order, if maxParallel < 1 then 1 else maxParallel, outcome, trace) && Returned(g, Last(trace))
    ensures
      var s := Last(trace);
      result == Result(s.states, s.canceling, s.internalError) && log == s.log && canceled == s.canceled
  {
    hide Going, After, LogOk, InOrder, InternalFailure, Solves, Topological, Closed, DoneIn, RunningIn, OnlyLastCanceled, Trace, LastMoveCancels;
    var limit := if maxParallel < 1 then 1 else maxParallel;
    var states: States := map j | j in g :: Pending;
    var s := Loop(Top, states, 0, 0, false, false, false, []);
    trace := [s];
    GoingStarts(g, order, limit, outcome, s);
    GoingCounts(g, order, limit, outcome, s, trace);
    var stopped := false;
    while !stopped && s.terminal < |g|
      invariant Going(g, order, limit, outcome, s, trace) && s.terminal <= |g|
      invariant if stopped then s.phase.Stopped? && s.terminal == |g| else s.phase.Top?
      decreases !stopped, |g| - s.terminal, !s.canceled
    {
      s, stopped, trace := Round(g, order, limit, outcome, s, trace);
    }
    GoingCounts(g, order, limit, outcome, s, trace);
    GoingEnds(g, order, limit, outcome, s, trace);
    result, log, canceled := Result(s.states, s.canceling, s.internalError), s.log, s.canceled;
  }

  lemma GoingStarts(g: Needs, order: seq<string>, limit: nat, outcome: map<string, Outcome>, s: Loop)
    requires s == Begin(g.Keys)
    ensures Going(g, order, limit, outcome, s, [s])
  {
    hide LoopOk;
    LoopStarts(g, limit, outcome, s.states);
  }

  lemma GoingCounts(g: Needs, order: seq<string>, limit: nat, outcome: map<string, Outcome>, s: Loop, trace: seq<Loop>)
    requires Going(g, order, limit, outcome, s, trace)
    ensures s.states.Keys == g.Keys && s.active == |RunningIn(s.states)| && s.terminal == |DoneIn(s.states)|
    ensures s.terminal <= |g| && (s.terminal == |g| <==> DoneIn(s.states) == g.Keys) && (s.canceling ==> s.canceled)
  {
    hide LoopOk, Trace;
    LoopCounts(g, limit, outcome, s);
  }

  lemma GoingEnds(g: Needs, order: seq<string>, limit: nat, outcome: map<string, Outcome>, s: Loop, trace: seq<Loop>)
    requires Going(g, order, limit, outcome, s, trace) && DoneIn(s.states) == g.Keys && Closed(g) && g.Keys <= outcome.Keys
    ensures s.states == After(g.Keys, s.log) && LogOk(g, limit, s.log)
    ensures s.canceling == (CancelSeen in s.log) && (s.canceling ==> s.canceled)
    ensures !s.canceled ==> Solves(g, map j | j in outcome :: outcome[j].passed, s.states)
    ensures !s.canceled ==> (s.internalError <==> InternalFailure(outcome, s.states)) && Canceled !in s.states.Values
    ensures !s.canceling ==> OnlyLastCanceled(s.states, s.log) && (Canceled in s.states.Values <==> LastMoveCancels(s.log))
    ensures trace != [] && Trace(g, order, limit, outcome, trace) && Last(trace) == s && InOrder(g, order, limit, s.log)
  {
    hide LoopOk, Trace, InOrder, Waiting, After, LogOk, InternalFailure, Solves, Closed, DoneIn, OnlyLastCanceled, LastMoveCancels;
    LoopEnds(g, limit, outcome, s);
    LogInOrder(g, order, limit, outcome, trace, |trace| - 1);
    if !s.canceling { UnnoticedIff(g, order, limit, outcome, trace); }
  }

  /** Moves on to the next phase without changing anything else. */
  method Enter(g: Needs, ghost order: seq<string>, ghost limit: nat, ghost outcome: map<string, Outcome>, s: Loop, phase: Phase, ghost trace0: seq<Loop>)
    returns (t: Loop, ghost trace: seq<Loop>)
    requires Going(g, order, limit, outcome, s, trace0)
    requires
      || (s.phase.Body? && s.canceling && s.active != 0 && phase.Select?)
      || (s.phase.Select? && s.active == 0 && s.terminal == |g| && phase.Stopped?)
      || (s.phase.Select? && s.active != 0 && !s.canceling && s.canceled && phase.Top?)
    ensures Going(g, order, limit, outcome, t, trace) && t == s.(phase := phase)
  {
    hide LoopOk, LoopStep, Trace;
    PhaseKeepsLoop(g, limit, outcome, s, phase);
    OtherSteps(g, order, limit, outcome, s);
    t := s.(phase := phase);
    GoOn(g, order, limit, outcome, s, trace0, t);
    trace := trace0 + [t];
  }

  // ----- A cancellation nobody notices -----

  lemma OneStarts(g: Needs, order: seq<string>, s: Loop, t: Loop)
    requires g == map["a" := []] && order == ["a"] && s == Begin(g.Keys).(phase := Body)
    requires t == s.(phase := Select, states := map["a" := Running], active := 1, log := [Moved("a", Pending, Running)])
    ensures Advances(g, order, 1, s, t)
  {
    var none: Log := [];
    assert RunningIn(s.states) == {} && RunningIn(t.states) == {"a"} && DoneIn(t.states) == {};
    assert s.states == After(g.Keys, none);
    LogOkPush(g, 1, none, "a", Pending, Running);
    AfterPush(g.Keys, none, Moved("a", Pending, Running));
    assert none + [Moved("a", Pending, Running)] == t.log;
    assert t.log[..0] == none && MovedInTurn(g, order, t.log, 0);
    assert OnlyBlocked(g, s.states, s.states) && NoneBehindFailure(g, s.states) && OnlyStarted(g, s.states, t.states);
  }

  /** The only job of a graph is running when the context is canceled; it reports CANCELED, and the select takes the report
      rather than the cancellation: the loop returns with a canceled job and no interruption. */
  lemma CancellationCanGoUnnoticed() returns (g: Needs, order: seq<string>, outcome: map<string, Outcome>, trace: seq<Loop>)
    ensures Topological(g, order) && Trace(g, order, 1, outcome, trace) && Returned(g, Last(trace)) && Last(trace).canceled
    ensures !Last(trace).canceling && Canceled in Last(trace).states.Values
  {
    hide After, LogOk, Advances, MovesPending;
    g, order, outcome := map["a" := []], ["a"], map["a" := Outcome(true, false)];
    var s0 := Begin(g.Keys);
    var s1 := s0.(phase := Body);
    var s2 := s1.(phase := Select, states := map["a" := Running], active := 1, log := [Moved("a", Pending, Running)]);
    var s3 := s2.(canceled := true);
    var s4 := s3.(phase := Top, states := s3.states["a" := Canceled], active := 0, terminal := 1,
                  log := s3.log + [Moved("a", Running, Canceled)]);
    OneStarts(g, order, s1, s2);
    assert |g| == 1;
    assert Takes(outcome, s3, s4, "a", Canceled, false);
    trace := [s0, s1, s2, s3, s4];
    assert LoopStep(g, order, 1, outcome, s0, s1) && LoopStep(g, order, 1, outcome, s1, s2) && LoopStep(g, order, 1, outcome, s2, s3);
    TakeIsStep(g, order, 1, outcome, s3, s4, "a", Canceled, false);
    assert s4.states["a"] == Canceled;
  }

  /** `Result.Succeeded` */
  method Succeeded(r: Result) returns (ok: bool)
    ensures ok <==> !r.interrupted && !r.internalError && forall j :: j in r.states ==> r.states[j].Passed?
  {
    if r.interrupted || r.internalError {
      return false;
    }
    var rest := r.states.Keys;
    while rest != {}
      invariant rest <= r.states.Keys
      invariant forall j :: j in r.states && j !in rest ==> r.states[j].Passed?
    {
      var name :| name in rest;
      if !r.states[name].Passed? {
        return false;
      }
      rest := rest - {name};
    }
    ok := true;
  }

  lemma {:induction false} PassesUpTo(g: Needs, order: seq<string>, passes: map<string, bool>, states: States, k: nat)
    requires Topological(g, order) && g.Keys <= passes.Keys && Solves(g, passes, states) && k <= |order|
    requires forall j :: j in g ==> passes[j]
    ensures forall i :: 0 <= i < k ==> states[order[i]].Passed?
  {
    if k > 0 {
      PassesUpTo(g, order, passes, states, k - 1);
      var j := order[k - 1];
      forall d | d in g[j] ensures d in states && states[d].Passed? {
        assert d in order[..k - 1];
      }
    }
  }

  /** A run that is not canceled passes throughout exactly when every job would pass on its own. */
  lemma PassesIffAllPass(g: Needs, order: seq<string>, passes: map<string, bool>, states: States)
    requires Topological(g, order) && g.Keys <= passes.Keys && Solves(g, passes, states)
    ensures (forall j :: j in states ==> states[j].Passed?) <==> (forall j :: j in g ==> passes[j])
  {
    if forall j :: j in g ==> passes[j] {
      PassesUpTo(g, order, passes, states, |order|);
      forall j | j in g ensures states[j].Passed? {
        var i := Index(order, j);
      }
    } else {
      var j :| j in g && !passes[j];
      assert !states[j].Passed?;
    }
  }
}
