/**
 Webhook deliveries, the workers that claim them, and pull request supersession. Each database statement
 or transaction is one step; workers may stall or die at any point between their steps.
 */
module Deliveries {
  import opened Tables

  datatype DeliveryStatus = DPending | DProcessing | DProcessed | DFailed | DIgnored
  datatype Claim = Claim(token: nat, expires: Time)

  /** `pull` is set for pull request events only. `retries` counts claims of a failed delivery; no operation reads it. */
  datatype Delivery = Delivery(repo: nat, pull: Option<nat>, commit: string, received: Time, status: DeliveryStatus,
                               attempts: nat, nextAttempt: Option<Time>, claim: Option<Claim>, retries: nat)
  datatype Trigger = Trigger(run: nat, repo: nat, pull: Option<nat>, commit: string)
  datatype ScmRun = ScmRun(status: RunStatus, cancelRequested: bool)

  /** A worker's own view: the delivery it claimed, the attempt count it read, and whether it knows of a run for it. */
  datatype Worker = Worker(delivery: nat, attempts: nat, ready: bool)

  datatype Config = Config(maxAttempts: nat, baseBackoff: nat, maxBackoff: nat)

  /** Workers are identified by the claim token they were given; `triggers` is keyed by delivery. */
  datatype Scm = Scm(deliveries: map<nat, Delivery>, triggers: map<nat, Trigger>, runs: map<nat, ScmRun>,
                     workers: map<nat, Worker>, now: Time, nextToken: nat, config: Config)

  datatype Action =
    | Tick(elapsed: nat)
    | Receive(id: nat, repo: nat, pull: Option<nat>, commit: string, actionable: bool, closed: bool)
    | ClaimDelivery(id: nat, lease: nat)
    | Renew(token: nat, lease: nat)
    | FindTrigger(token: nat)
    | CreateRun(token: nat, run: nat)
    | Complete(token: nat)
    | Fail(token: nat, transient: bool)
    | StartRun(run: nat)
    | FinishRun(run: nat, status: RunStatus)
    | CancelRun(run: nat)

  // ----- Statements -----

  predicate Due(at: Option<Time>, now: Time) {
    at.Some? && at.value <= now
  }

  /** The WHERE clause of the claim query. */
  predicate Claimable(d: Delivery, now: Time) {
    || (d.status.DPending? && (d.nextAttempt.None? || Due(d.nextAttempt, now)))
    || (d.status.DFailed? && Due(d.nextAttempt, now))
    || (d.status.DProcessing? && d.claim.Some? && d.claim.value.expires <= now)
  }

  function Claimed(d: Delivery, token: nat, expires: Time): Delivery {
    d.(status := DProcessing, attempts := d.attempts + 1, claim := Some(Claim(token, expires)), nextAttempt := None,
       retries := if d.status.DFailed? then d.retries + 1 else d.retries)
  }

  /** The fence of every statement a claim holder issues. */
  predicate Fenced(d: Delivery, token: nat, now: Time) {
    d.status.DProcessing? && d.claim.Some? && d.claim.value.token == token && d.claim.value.expires > now
  }

  predicate Open(s: DeliveryStatus) {
    s.DPending? || s.DProcessing? || s.DFailed?
  }

  /** SQL's IS DISTINCT FROM, with the empty string stored as NULL. */
  predicate DistinctCommit(stored: string, incoming: string) {
    stored == "" || stored != incoming
  }

  predicate Superseded(d: Delivery, repo: nat, pull: nat, commit: string, closed: bool) {
    d.repo == repo && d.pull == Some(pull) && Open(d.status) && (closed || DistinctCommit(d.commit, commit))
  }

  function IgnoreOlder(deliveries: map<nat, Delivery>, repo: nat, pull: nat, commit: string, closed: bool): map<nat, Delivery> {
    map id | id in deliveries ::
      if Superseded(deliveries[id], repo, pull, commit, closed)
      then deliveries[id].(status := DIgnored, claim := None, nextAttempt := None) else deliveries[id]
  }

  predicate RunSuperseded(triggers: map<nat, Trigger>, run: nat, repo: nat, pull: nat, commit: string, closed: bool) {
    exists d | d in triggers :: triggers[d].run == run && triggers[d].repo == repo && triggers[d].pull == Some(pull)
      && (closed || DistinctCommit(triggers[d].commit, commit))
  }

  function CancelOlder(runs: map<nat, ScmRun>, triggers: map<nat, Trigger>, repo: nat, pull: nat, commit: string, closed: bool): map<nat, ScmRun> {
    map r | r in runs ::
      if RunSuperseded(triggers, r, repo, pull, commit, closed) then
        if runs[r].status.RunQueued? then runs[r].(status := RunCanceled)
        else if runs[r].status.RunRunning? then runs[r].(cancelRequested := true)
        else runs[r]
      else runs[r]
  }

  /** `CreateSCMDelivery` for a new delivery id. */
  function Received(s: Scm, id: nat, repo: nat, pull: Option<nat>, commit: string, actionable: bool, closed: bool): Scm {
    var row := Delivery(repo, pull, commit, s.now, if actionable then DPending else DIgnored, 0, None, None, 0);
    if pull.Some? && (actionable || closed) then
      s.(deliveries := IgnoreOlder(s.deliveries, repo, pull.value, commit, closed)[id := row],
         runs := CancelOlder(s.runs, s.triggers, repo, pull.value, commit, closed))
    else s.(deliveries := s.deliveries[id := row])
  }

  // ----- Backoff -----

  function Pow2(n: nat): nat {
    if n == 0 then 1 else 2 * Pow2(n - 1)
  }

  function Min(a: nat, b: nat): nat {
    if a < b then a else b
  }

  /** The delay before attempt `attempts + 1`. */
  function Backoff(c: Config, attempts: nat): nat
    requires attempts >= 1
  {
    Min(c.baseBackoff * Pow2(attempts - 1), c.maxBackoff)
  }

  lemma PowerStep(base: nat, n: nat)
    ensures base * Pow2(n + 1) == 2 * (base * Pow2(n))
  {
  }

  lemma {:induction false} PowerGrows(base: nat, m: nat, n: nat)
    requires m <= n
    ensures base * Pow2(m) <= base * Pow2(n)
    decreases n
  {
    if m < n {
      PowerGrows(base, m, n - 1);
      PowerStep(base, n - 1);
    }
  }

  /** The delay starts at the base, doubles with each attempt, and stays at the maximum once it gets there. */
  lemma BackoffDoubles(c: Config, attempts: nat)
    requires attempts >= 1 && c.baseBackoff <= c.maxBackoff
    ensures Backoff(c, 1) == c.baseBackoff
    ensures Backoff(c, attempts + 1) == if 2 * Backoff(c, attempts) <= c.maxBackoff then 2 * Backoff(c, attempts) else c.maxBackoff
  {
    PowerStep(c.baseBackoff, attempts - 1);
    assert c.baseBackoff * Pow2(0) == c.baseBackoff;
  }

  /** The doubling loop of `fail`, with its cap and its early exit. */
  method ComputeBackoff(c: Config, attempts: nat) returns (delay: nat)
    requires attempts >= 1 && 0 < c.baseBackoff <= c.maxBackoff
    ensures delay == Backoff(c, attempts)
  {
    delay := c.baseBackoff;
    var i := 1;
    while i < attempts && delay < c.maxBackoff
      invariant 1 <= i <= attempts && delay == Min(c.baseBackoff * Pow2(i - 1), c.maxBackoff)
    {
      PowerStep(c.baseBackoff, i - 1);
      delay := delay * 2;
      if delay > c.maxBackoff {
        delay := c.maxBackoff;
      }
      i := i + 1;
    }
    PowerGrows(c.baseBackoff, i - 1, attempts - 1);
  }

  function FailedAs(d: Delivery, w: Worker, transient: bool, now: Time, c: Config): Delivery {
    d.(status := DFailed, claim := None,
       nextAttempt := if transient && 1 <= w.attempts < c.maxAttempts then Some(now + Backoff(c, w.attempts)) else None)
  }

  // ----- Steps -----

  predicate Acts(s: Scm, token: nat) {
    token in s.workers && s.workers[token].delivery in s.deliveries && Fenced(s.deliveries[s.workers[token].delivery], token, s.now)
  }

  predicate Possible(s: Scm, a: Action) {
    match a
    case Tick(_) => true
    case Receive(id, _, _, _, _, _) => id !in s.deliveries
    case ClaimDelivery(id, lease) => lease > 0 && id in s.deliveries && Claimable(s.deliveries[id], s.now)
    case Renew(token, lease) => lease > 0 && Acts(s, token)
    case FindTrigger(token) => token in s.workers && s.workers[token].delivery in s.triggers
    case CreateRun(token, run) =>
      Acts(s, token) && run !in s.runs && s.workers[token].delivery !in s.triggers
    case Complete(token) => Acts(s, token) && s.workers[token].ready
    case Fail(token, _) => Acts(s, token)
    case StartRun(run) => run in s.runs && s.runs[run].status.RunQueued?
    case FinishRun(run, status) => run in s.runs && !Terminal(s.runs[run].status) && Terminal(status)
    case CancelRun(run) => run in s.runs && s.runs[run].status.RunRunning?
  }

  function Next(s: Scm, a: Action): Scm
    requires Possible(s, a)
  {
    match a
    case Tick(elapsed) => s.(now := s.now + elapsed)
    case Receive(id, repo, pull, commit, actionable, closed) => Received(s, id, repo, pull, commit, actionable, closed)
    case ClaimDelivery(id, lease) =>
      var d := Claimed(s.deliveries[id], s.nextToken, s.now + lease);
      s.(deliveries := s.deliveries[id := d], workers := s.workers[s.nextToken := Worker(id, d.attempts, false)], nextToken := s.nextToken + 1)
    case Renew(token, lease) =>
      var id := s.workers[token].delivery;
      s.(deliveries := s.deliveries[id := s.deliveries[id].(claim := Some(Claim(token, s.now + lease)))])
    case FindTrigger(token) => s.(workers := s.workers[token := s.workers[token].(ready := true)])
    case CreateRun(token, run) =>
      var id := s.workers[token].delivery;
      var d := s.deliveries[id];
      s.(runs := s.runs[run := ScmRun(RunQueued, false)], triggers := s.triggers[id := Trigger(run, d.repo, d.pull, d.commit)],
         workers := s.workers[token := s.workers[token].(ready := true)])
    case Complete(token) =>
      var id := s.workers[token].delivery;
      s.(deliveries := s.deliveries[id := s.deliveries[id].(status := DProcessed, claim := None, nextAttempt := None)])
    case Fail(token, transient) =>
      var w := s.workers[token];
      s.(deliveries := s.deliveries[w.delivery := FailedAs(s.deliveries[w.delivery], w, transient, s.now, s.config)])
    case StartRun(run) => s.(runs := s.runs[run := s.runs[run].(status := RunRunning)])
    case FinishRun(run, status) => s.(runs := s.runs[run := s.runs[run].(status := status)])
    case CancelRun(run) => s.(runs := s.runs[run := s.runs[run].(cancelRequested := true)])
  }

  lemma ReceiveIs(s: Scm, a: Action)
    requires a.Receive?
    ensures Possible(s, a) <==> a.id !in s.deliveries
    ensures Possible(s, a) ==> Next(s, a) == Received(s, a.id, a.repo, a.pull, a.commit, a.actionable, a.closed)
  {
  }
}
