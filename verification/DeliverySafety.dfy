/** Fencing, idempotency and supersession over whole histories of the delivery tables. */
module DeliverySafety {
  import opened Tables
  import opened Deliveries

  // ----- Invariant -----

  predicate LiveRun(r: ScmRun) {
    r.status.RunQueued? || (r.status.RunRunning? && !r.cancelRequested)
  }

  /** Commit `c` of this pull request is being, or may still be, built. */
  ghost predicate Active(s: Scm, repo: nat, pull: nat, c: string) {
    || (exists id :: id in s.deliveries && DeliveryActive(s.deliveries[id], repo, pull, c))
    || (exists id :: id in s.triggers && TriggerActive(s, s.triggers[id], repo, pull, c))
  }

  ghost predicate DeliveryActive(d: Delivery, repo: nat, pull: nat, c: string) {
    d.repo == repo && d.pull == Some(pull) && Open(d.status) && d.commit == c
  }

  ghost predicate TriggerActive(s: Scm, t: Trigger, repo: nat, pull: nat, c: string) {
    t.repo == repo && t.pull == Some(pull) && t.commit == c && t.run in s.runs && LiveRun(s.runs[t.run])
  }

  ghost predicate OneCommit(s: Scm) {
    forall repo: nat, pull: nat, a, b :: Active(s, repo, pull, a) && Active(s, repo, pull, b) ==> a == b
  }

  ghost predicate DeliveryOk(s: Scm, id: nat)
    requires id in s.deliveries
  {
    var d := s.deliveries[id];
    && (d.status.DProcessing? <==> d.claim.Some?)
    && (d.status.DProcessed? ==> id in s.triggers)
    && (d.status.DFailed? || d.status.DProcessing? ==> d.attempts >= 1)
    && (d.status.DPending? ==> d.attempts == 0)
    && (d.status.DFailed? && d.nextAttempt.Some? ==> d.attempts < s.config.maxAttempts)
    && (if d.attempts == 0 then d.retries == 0 else d.retries <= d.attempts - 1)
    && (d.retries > 0 ==> d.retries <= s.config.maxAttempts - 1)
    && (d.claim.Some? ==> ClaimOk(s, id, d.claim.value.token, d.attempts))
  }

  ghost predicate ClaimOk(s: Scm, id: nat, token: nat, attempts: nat) {
    token < s.nextToken && token in s.workers && s.workers[token].delivery == id && s.workers[token].attempts == attempts
  }

  ghost predicate WorkersOk(s: Scm) {
    forall t :: t in s.workers ==> t < s.nextToken && (s.workers[t].ready ==> s.workers[t].delivery in s.triggers)
  }

  ghost predicate TriggersOk(s: Scm) {
    && (forall id :: id in s.triggers ==> id in s.deliveries && s.triggers[id].run in s.runs)
    && (forall a, b :: a in s.triggers && b in s.triggers && s.triggers[a].run == s.triggers[b].run ==> a == b)
  }

  ghost predicate ScmOk(s: Scm) {
    && OneCommit(s) && WorkersOk(s) && TriggersOk(s)
    && (forall id :: id in s.deliveries ==> DeliveryOk(s, id))
  }

  // ----- One commit per pull request -----

  lemma ActiveDelivery(s: Scm, id: nat, repo: nat, pull: nat, c: string)
    requires id in s.deliveries && DeliveryActive(s.deliveries[id], repo, pull, c)
    ensures Active(s, repo, pull, c)
  {
  }

  lemma ActiveTrigger(s: Scm, id: nat, repo: nat, pull: nat, c: string)
    requires id in s.triggers && TriggerActive(s, s.triggers[id], repo, pull, c)
    ensures Active(s, repo, pull, c)
  {
  }

  /** Statements on one delivery or run activate nothing new. */
  lemma QuietActive(s: Scm, a: Action, repo: nat, pull: nat, c: string)
    requires Possible(s, a) && !a.Receive? && !a.CreateRun? && Active(Next(s, a), repo, pull, c)
    ensures Active(s, repo, pull, c)
  {
    var n := Next(s, a);
    if id :| id in n.deliveries && DeliveryActive(n.deliveries[id], repo, pull, c) {
      assert DeliveryActive(s.deliveries[id], repo, pull, c);
    } else {
      var id :| id in n.triggers && TriggerActive(n, n.triggers[id], repo, pull, c);
      assert TriggerActive(s, s.triggers[id], repo, pull, c);
    }
  }

  /** A run is only ever created for a commit whose delivery is still open. */
  lemma CreateActive(s: Scm, token: nat, run: nat, repo: nat, pull: nat, c: string)
    requires Possible(s, CreateRun(token, run)) && TriggersOk(s) && Active(Next(s, CreateRun(token, run)), repo, pull, c)
    ensures Active(s, repo, pull, c)
  {
    var n := Next(s, CreateRun(token, run));
    var mine := s.workers[token].delivery;
    if id :| id in n.deliveries && DeliveryActive(n.deliveries[id], repo, pull, c) {
      ActiveDelivery(s, id, repo, pull, c);
    } else {
      var id :| id in n.triggers && TriggerActive(n, n.triggers[id], repo, pull, c);
      if id == mine {
        ActiveDelivery(s, mine, repo, pull, c);
      } else {
        ActiveTrigger(s, id, repo, pull, c);
      }
    }
  }

  /** After an actionable delivery for a pull request, its commit is the only active one; after a close, none is. */
  lemma ReceiveActive(s: Scm, id: nat, repo: nat, pull: nat, commit: string, actionable: bool, closed: bool, c: string)
    requires (actionable || closed) && TriggersOk(s)
    requires Active(Received(s, id, repo, Some(pull), commit, actionable, closed), repo, pull, c)
    ensures actionable && c == commit
  {
    hide Received, DeliveryActive, TriggerActive, TriggersOk;
    var n := Received(s, id, repo, Some(pull), commit, actionable, closed);
    if d :| d in n.deliveries && DeliveryActive(n.deliveries[d], repo, pull, c) {
      ReceiveActiveDelivery(s, n, id, repo, pull, commit, actionable, closed, c, d);
    } else {
      var d :| d in n.triggers && TriggerActive(n, n.triggers[d], repo, pull, c);
      ReceiveActiveRun(s, n, id, repo, pull, commit, actionable, closed, c, d);
    }
  }

  lemma ReceiveActiveDelivery(s: Scm, n: Scm, id: nat, repo: nat, pull: nat, commit: string, actionable: bool, closed: bool, c: string, d: nat)
    requires (actionable || closed) && n == Received(s, id, repo, Some(pull), commit, actionable, closed)
    requires d in n.deliveries && DeliveryActive(n.deliveries[d], repo, pull, c)
    ensures actionable && c == commit
  {
    hide CancelOlder;
    if d != id { assert d in s.deliveries; }
  }

  lemma ReceiveActiveRun(s: Scm, n: Scm, id: nat, repo: nat, pull: nat, commit: string, actionable: bool, closed: bool, c: string, d: nat)
    requires (actionable || closed) && n == Received(s, id, repo, Some(pull), commit, actionable, closed)
    requires d in n.triggers && TriggerActive(n, n.triggers[d], repo, pull, c)
    ensures actionable && c == commit
  {
    hide IgnoreOlder;
    assert RunSuperseded(s.triggers, s.triggers[d].run, repo, pull, commit, closed) || c == commit;
  }

  lemma OtherActive(s: Scm, a: Action, repo: nat, pull: nat, c: string)
    requires a.Receive? && Possible(s, a) && TriggersOk(s) && Active(Next(s, a), repo, pull, c)
    requires !(a.pull == Some(pull) && a.repo == repo && (a.actionable || a.closed))
    requires !(a.pull == Some(pull) && a.repo == repo && a.actionable)
    ensures Active(s, repo, pull, c)
  {
    hide Received, Next, Possible, DeliveryActive, TriggerActive;
    ReceiveIs(s, a);
    var n := Next(s, a);
    if d :| d in n.deliveries && DeliveryActive(n.deliveries[d], repo, pull, c) {
      OtherActiveDelivery(s, a, n, repo, pull, c, d);
    } else {
      var d :| d in n.triggers && TriggerActive(n, n.triggers[d], repo, pull, c);
      OtherActiveRun(s, a, n, repo, pull, c, d);
    }
  }

  lemma OtherActiveDelivery(s: Scm, a: Action, n: Scm, repo: nat, pull: nat, c: string, d: nat)
    requires a.Receive? && n == Received(s, a.id, a.repo, a.pull, a.commit, a.actionable, a.closed)
    requires !(a.pull == Some(pull) && a.repo == repo && (a.actionable || a.closed))
    requires d in n.deliveries && DeliveryActive(n.deliveries[d], repo, pull, c)
    ensures d in s.deliveries && DeliveryActive(s.deliveries[d], repo, pull, c)
  {
    hide CancelOlder;
  }

  lemma OtherActiveRun(s: Scm, a: Action, n: Scm, repo: nat, pull: nat, c: string, d: nat)
    requires a.Receive? && n == Received(s, a.id, a.repo, a.pull, a.commit, a.actionable, a.closed) && TriggersOk(s)
    requires d in n.triggers && TriggerActive(n, n.triggers[d], repo, pull, c)
    ensures d in s.triggers && TriggerActive(s, s.triggers[d], repo, pull, c)
  {
    hide IgnoreOlder, RunSuperseded;
  }

  lemma OneCommitKept(s: Scm, a: Action, n: Scm)
    requires Possible(s, a) && n == Next(s, a)
    requires OneCommit(s) && TriggersOk(s)
    ensures OneCommit(n)
  {
    hide Possible, Next, Active;
    forall repo: nat, pull: nat, x, y | Active(n, repo, pull, x) && Active(n, repo, pull, y) ensures x == y {
      if a.Receive? && a.pull == Some(pull) && a.repo == repo && (a.actionable || a.closed) {
        ReceiveIs(s, a);
        ReceiveActive(s, a.id, repo, pull, a.commit, a.actionable, a.closed, x);
        ReceiveActive(s, a.id, repo, pull, a.commit, a.actionable, a.closed, y);
      } else {
        ActiveBefore(s, a, repo, pull, x);
        ActiveBefore(s, a, repo, pull, y);
      }
    }
  }

  lemma ActiveBefore(s: Scm, a: Action, repo: nat, pull: nat, c: string)
    requires Possible(s, a) && TriggersOk(s) && Active(Next(s, a), repo, pull, c)
    requires !(a.Receive? && a.pull == Some(pull) && a.repo == repo && (a.actionable || a.closed))
    ensures Active(s, repo, pull, c)
  {
    hide Possible, Next, Active, TriggersOk;
    if a.Receive? {
      OtherActive(s, a, repo, pull, c);
    } else if a.CreateRun? {
      CreateActive(s, a.token, a.run, repo, pull, c);
    } else {
      QuietActive(s, a, repo, pull, c);
    }
  }

  // ----- The rest of the invariant -----

  lemma ReceiveKeepsTables(s: Scm, a: Action, n: Scm)
    requires a.Receive? && Possible(s, a) && n == Next(s, a)
    requires WorkersOk(s) && TriggersOk(s)
    ensures WorkersOk(n) && TriggersOk(n)
  {
    hide Superseded, RunSuperseded;
    ReceiveIs(s, a);
  }

  lemma OthersKeepTables(s: Scm, a: Action, n: Scm)
    requires !a.Receive? && Possible(s, a) && n == Next(s, a)
    requires WorkersOk(s) && TriggersOk(s)
    ensures WorkersOk(n) && TriggersOk(n)
  {
    hide Received, Claimable, Fenced, FailedAs, Claimed;
  }

  lemma TablesKept(s: Scm, a: Action, n: Scm)
    requires Possible(s, a) && n == Next(s, a)
    requires WorkersOk(s) && TriggersOk(s)
    ensures WorkersOk(n) && TriggersOk(n)
  {
    hide Possible, Next, WorkersOk, TriggersOk;
    if a.Receive? {
      ReceiveKeepsTables(s, a, n);
    } else {
      OthersKeepTables(s, a, n);
    }
  }

  lemma ReceiveKeepsRow(s: Scm, a: Action, n: Scm, id: nat)
    requires a.Receive? && Possible(s, a) && n == Next(s, a) && id in n.deliveries
    requires id in s.deliveries ==> DeliveryOk(s, id)
    ensures DeliveryOk(n, id)
  {
    hide CancelOlder, DistinctCommit;
    ReceiveIs(s, a);
    assert id != a.id ==> id in s.deliveries;
  }

  lemma ClaimKeepsRow(s: Scm, a: Action, n: Scm, id: nat)
    requires a.ClaimDelivery? && Possible(s, a) && n == Next(s, a) && id in s.deliveries
    requires WorkersOk(s) && DeliveryOk(s, id)
    ensures DeliveryOk(n, id)
  {
  }

  lemma HolderKeepsRow(s: Scm, a: Action, n: Scm, id: nat)
    requires a.Renew? || a.Complete? || a.Fail?
    requires Possible(s, a) && n == Next(s, a) && id in s.deliveries
    requires WorkersOk(s) && DeliveryOk(s, id)
    ensures DeliveryOk(n, id)
  {
    hide Backoff;
  }

  lemma OtherKeepsRow(s: Scm, a: Action, n: Scm, id: nat)
    requires !a.Receive? && !a.ClaimDelivery? && !a.Renew? && !a.Complete? && !a.Fail?
    requires Possible(s, a) && n == Next(s, a) && id in s.deliveries
    requires DeliveryOk(s, id)
    ensures id in n.deliveries && DeliveryOk(n, id)
  {
  }

  lemma SameDeliveries(s: Scm, a: Action)
    requires Possible(s, a) && !a.Receive?
    ensures Next(s, a).deliveries.Keys == s.deliveries.Keys
  {
  }

  lemma DeliveryKept(s: Scm, a: Action, n: Scm, id: nat)
    requires Possible(s, a) && n == Next(s, a) && id in n.deliveries
    requires WorkersOk(s) && forall i :: i in s.deliveries ==> DeliveryOk(s, i)
    ensures DeliveryOk(n, id)
  {
    hide Possible, Next, WorkersOk, DeliveryOk;
    if a.Receive? {
      ReceiveKeepsRow(s, a, n, id);
    } else {
      SameDeliveries(s, a);
      if a.ClaimDelivery? {
        ClaimKeepsRow(s, a, n, id);
      } else if a.Renew? || a.Complete? || a.Fail? {
        HolderKeepsRow(s, a, n, id);
      } else {
        OtherKeepsRow(s, a, n, id);
      }
    }
  }

  lemma StepKeeps(s: Scm, a: Action, n: Scm)
    requires Possible(s, a) && n == Next(s, a)
    requires ScmOk(s)
    ensures ScmOk(n)
  {
    hide Possible, Next, OneCommit, WorkersOk, TriggersOk, DeliveryOk;
    OneCommitKept(s, a, n);
    TablesKept(s, a, n);
    forall id | id in n.deliveries ensures DeliveryOk(n, id) {
      DeliveryKept(s, a, n, id);
    }
  }

  // ----- Whole histories -----

  datatype History = History(states: seq<Scm>, actions: seq<Action>)

  ghost predicate Happens(h: History) {
    && |h.states| == |h.actions| + 1
    && h.states[0] == Scm(map[], map[], map[], map[], 0, 0, h.states[0].config)
    && (forall i :: 0 <= i < |h.actions| ==> Occurs(h, i))
  }

  ghost predicate Occurs(h: History, i: nat)
    requires i < |h.actions| && |h.states| == |h.actions| + 1
  {
    Possible(h.states[i], h.actions[i]) && h.states[i + 1] == Next(h.states[i], h.actions[i])
  }

  lemma {:induction false} HistoryOk(h: History, k: nat)
    requires Happens(h) && k < |h.states|
    ensures ScmOk(h.states[k])
  {
    if k > 0 {
      hide ScmOk, Possible, Next;
      HistoryOk(h, k - 1);
      assert Occurs(h, k - 1);
      StepKeeps(h.states[k - 1], h.actions[k - 1], h.states[k]);
    }
  }

  /** At most one commit of a pull request is active: its open deliveries, its queued runs and its running,
      uncanceled runs all carry the same one, however workers race newer webhooks. */
  lemma OneActiveCommit(h: History, k: nat, repo: nat, pull: nat, a: string, b: string)
    requires Happens(h) && k < |h.states| && Active(h.states[k], repo, pull, a) && Active(h.states[k], repo, pull, b)
    ensures a == b
  {
    hide Occurs, Active, DeliveryOk;
    HistoryOk(h, k);
  }

  /** A processed delivery has a run, and no other delivery shares it. */
  lemma ProcessedHasRun(h: History, k: nat, id: nat)
    requires Happens(h) && k < |h.states| && id in h.states[k].deliveries && h.states[k].deliveries[id].status.DProcessed?
    ensures id in h.states[k].triggers && h.states[k].triggers[id].run in h.states[k].runs
    ensures forall other :: other in h.states[k].triggers && other != id ==>
      h.states[k].triggers[other].run != h.states[k].triggers[id].run
  {
    hide Occurs, OneCommit, WorkersOk;
    HistoryOk(h, k);
    assert DeliveryOk(h.states[k], id);
  }

  lemma TriggerStep(s: Scm, a: Action, id: nat)
    requires Possible(s, a) && id in s.triggers
    ensures id in Next(s, a).triggers && Next(s, a).triggers[id] == s.triggers[id]
  {
  }

  /** Across crashes and reclaims a delivery never gets a second run. */
  lemma {:induction false} OneRunPerDelivery(h: History, i: nat, k: nat, id: nat)
    requires Happens(h) && i <= k < |h.states| && id in h.states[i].triggers
    ensures id in h.states[k].triggers && h.states[k].triggers[id] == h.states[i].triggers[id]
    decreases k
  {
    if i < k {
      hide Possible, Next;
      OneRunPerDelivery(h, i, k - 1, id);
      assert Occurs(h, k - 1);
      TriggerStep(h.states[k - 1], h.actions[k - 1], id);
    }
  }

  /** Token `t` currently lets its holder renew, complete, fail or create a run for delivery `id`. */
  ghost predicate Empowered(s: Scm, id: nat, t: nat) {
    id in s.deliveries && Fenced(s.deliveries[id], t, s.now)
  }

  lemma NoRevival(s: Scm, a: Action, id: nat, t: nat)
    requires Possible(s, a) && t < s.nextToken && !Empowered(s, id, t)
    ensures !Empowered(Next(s, a), id, t) && s.nextToken <= Next(s, a).nextToken
  {
  }

  /** Fencing: at most one token is empowered at a time, and one that lost its power never regains it. */
  lemma {:induction false} TokensStayDead(h: History, i: nat, k: nat, id: nat, t: nat)
    requires Happens(h) && i <= k < |h.states| && t < h.states[i].nextToken && !Empowered(h.states[i], id, t)
    ensures t < h.states[k].nextToken && !Empowered(h.states[k], id, t)
    ensures forall t1: nat, t2: nat :: Empowered(h.states[k], id, t1) && Empowered(h.states[k], id, t2) ==> t1 == t2
    decreases k
  {
    if i < k {
      hide Possible, Next;
      TokensStayDead(h, i, k - 1, id, t);
      assert Occurs(h, k - 1);
      NoRevival(h.states[k - 1], h.actions[k - 1], id, t);
    }
  }

  /** A failed delivery is retried at most MaxAttempts - 1 times. */
  lemma RetriesBounded(h: History, k: nat, id: nat)
    requires Happens(h) && k < |h.states| && id in h.states[k].deliveries && h.states[k].config.maxAttempts >= 1
    ensures h.states[k].deliveries[id].retries <= h.states[k].config.maxAttempts - 1
  {
    hide Occurs, OneCommit, WorkersOk, TriggersOk;
    HistoryOk(h, k);
    assert DeliveryOk(h.states[k], id);
  }

  predicate TakesOver(s: Scm, a: Action, id: nat) {
    a.ClaimDelivery? && a.id == id && id in s.deliveries && s.deliveries[id].status.DProcessing?
  }

  /** How often, up to state `k`, the delivery was claimed away from a worker whose claim had expired. */
  ghost function Takeovers(h: History, k: nat, id: nat): nat
    requires |h.states| == |h.actions| + 1 && k < |h.states|
  {
    if k == 0 then 0 else Takeovers(h, k - 1, id) + if TakesOver(h.states[k - 1], h.actions[k - 1], id) then 1 else 0
  }

  ghost predicate Accounted(s: Scm, id: nat, takeovers: nat) {
    if id !in s.deliveries || s.deliveries[id].attempts == 0 then takeovers == 0
    else s.deliveries[id].attempts == 1 + s.deliveries[id].retries + takeovers
  }

  lemma ClaimIsAccounted(s: Scm, a: Action, id: nat, takeovers: nat)
    requires Possible(s, a) && a.ClaimDelivery? && a.id == id && DeliveryOk(s, id) && Accounted(s, id, takeovers)
    ensures Accounted(Next(s, a), id, takeovers + if TakesOver(s, a, id) then 1 else 0)
  {
  }

  lemma OthersAreAccounted(s: Scm, a: Action, id: nat, takeovers: nat)
    requires Possible(s, a) && !(a.ClaimDelivery? && a.id == id) && Accounted(s, id, takeovers)
    ensures Accounted(Next(s, a), id, takeovers)
  {
  }

  /** Every claim of a delivery is its first, a retry after a failure, or a takeover. */
  lemma {:induction false} AttemptsAccounted(h: History, k: nat, id: nat)
    requires Happens(h) && k < |h.states|
    ensures Accounted(h.states[k], id, Takeovers(h, k, id))
  {
    if k > 0 {
      var s, a := h.states[k - 1], h.actions[k - 1];
      AttemptsAccounted(h, k - 1, id);
      HistoryOk(h, k - 1);
      assert Occurs(h, k - 1);
      assert id in s.deliveries ==> DeliveryOk(s, id);
      assert a.ClaimDelivery? ==> a.id in s.deliveries;
      hide Possible, Next, DeliveryOk, Accounted, TakesOver;
      if a.ClaimDelivery? && a.id == id {
        ClaimIsAccounted(s, a, id, Takeovers(h, k - 1, id));
      } else {
        OthersAreAccounted(s, a, id, Takeovers(h, k - 1, id));
        NoTakeover(s, a, id);
      }
    }
  }

  lemma NoTakeover(s: Scm, a: Action, id: nat)
    requires !(a.ClaimDelivery? && a.id == id)
    ensures !TakesOver(s, a, id)
  {
  }

  /** Exactly when the number of claims stays within MaxAttempts: takeovers use up what failures have left. */
  lemma AttemptsWithinLimitIff(h: History, k: nat, id: nat)
    requires Happens(h) && k < |h.states| && id in h.states[k].deliveries && h.states[k].config.maxAttempts >= 1
    ensures
      var d, max, t := h.states[k].deliveries[id], h.states[k].config.maxAttempts, Takeovers(h, k, id);
      && (d.attempts <= max <==> t <= max - 1 - d.retries)
      && (t == 0 ==> d.attempts <= max)
  {
    hide Occurs, ScmOk, TakesOver;
    AttemptsAccounted(h, k, id);
    RetriesBounded(h, k, id);
    if h.states[k].deliveries[id].attempts == 0 {
      NoRetriesYet(h, k, id);
    }
  }

  lemma NoRetriesYet(h: History, k: nat, id: nat)
    requires Happens(h) && k < |h.states| && id in h.states[k].deliveries && h.states[k].deliveries[id].attempts == 0
    ensures h.states[k].deliveries[id].retries == 0
  {
    hide Occurs, OneCommit, WorkersOk, TriggersOk;
    HistoryOk(h, k);
    assert DeliveryOk(h.states[k], id);
  }

  /** A transient failure schedules the next attempt after the doubled, capped delay of the attempt that failed;
      the last permitted attempt, or a permanent failure, schedules none. */
  lemma FailureSchedules(h: History, i: nat)
    requires Happens(h) && i < |h.actions| && h.actions[i].Fail?
    ensures h.actions[i].token in h.states[i].workers
    ensures
      var s, n := h.states[i], h.states[i + 1];
      var id := s.workers[h.actions[i].token].delivery;
      && id in s.deliveries && id in n.deliveries && n.deliveries[id].status.DFailed? && s.deliveries[id].attempts >= 1
      && n.deliveries[id].nextAttempt ==
           if h.actions[i].transient && s.deliveries[id].attempts < s.config.maxAttempts
           then Some(s.now + Backoff(s.config, s.deliveries[id].attempts)) else None
  {
    HistoryOk(h, i);
    assert Occurs(h, i);
    hide OneCommit, TriggersOk, Happens, Backoff;
    var id := h.states[i].workers[h.actions[i].token].delivery;
    assert DeliveryOk(h.states[i], id);
  }

  lemma FailedRowStays(s: Scm, a: Action, id: nat)
    requires Possible(s, a) && id in s.deliveries && !(a.ClaimDelivery? && a.id == id)
    requires s.deliveries[id].status.DFailed? || s.deliveries[id].status.DIgnored?
    ensures id in Next(s, a).deliveries
    ensures Next(s, a).deliveries[id] == s.deliveries[id] || Next(s, a).deliveries[id].status.DIgnored?
  {
  }

  lemma IgnoredIsFinal(s: Scm, a: Action, id: nat)
    requires Possible(s, a) && id in s.deliveries && s.deliveries[id].status.DIgnored?
    ensures id in Next(s, a).deliveries && Next(s, a).deliveries[id].status.DIgnored?
  {
  }

  /** Until it is claimed again, a failed delivery keeps its retry time, or is ignored for good. */
  lemma {:induction false} FailedUntilClaimed(h: History, i: nat, k: nat, id: nat)
    requires Happens(h) && i <= k < |h.states| && id in h.states[i].deliveries && h.states[i].deliveries[id].status.DFailed?
    requires forall m :: i <= m < k ==> !(h.actions[m].ClaimDelivery? && h.actions[m].id == id)
    ensures id in h.states[k].deliveries
    ensures h.states[k].deliveries[id] == h.states[i].deliveries[id] || h.states[k].deliveries[id].status.DIgnored?
    decreases k
  {
    if i < k {
      hide Possible, Next;
      FailedUntilClaimed(h, i, k - 1, id);
      assert Occurs(h, k - 1);
      FailedRowStays(h.states[k - 1], h.actions[k - 1], id);
      if h.states[k - 1].deliveries[id].status.DIgnored? {
        IgnoredIsFinal(h.states[k - 1], h.actions[k - 1], id);
      }
    }
  }

  /** The next claim after a failure comes only if the failure was transient with attempts left, and no earlier than its backoff. */
  lemma RetryWaitsForBackoff(h: History, i: nat, k: nat)
    requires Happens(h) && i < k < |h.actions| && h.actions[i].Fail? && h.actions[k].ClaimDelivery?
    requires h.actions[i].token in h.states[i].workers && h.actions[k].id == h.states[i].workers[h.actions[i].token].delivery
    requires forall m :: i < m < k ==> !(h.actions[m].ClaimDelivery? && h.actions[m].id == h.actions[k].id)
    ensures
      var s, id := h.states[i], h.actions[k].id;
      && id in s.deliveries && h.actions[i].transient && 1 <= s.deliveries[id].attempts < s.config.maxAttempts
      && h.states[k].now >= s.now + Backoff(s.config, s.deliveries[id].attempts)
  {
    hide ScmOk, Backoff;
    var id := h.actions[k].id;
    FailureSchedules(h, i);
    FailedUntilClaimed(h, i + 1, k, id);
    assert Occurs(h, k);
    assert Claimable(h.states[k].deliveries[id], h.states[k].now);
  }

  // ----- What is spared -----

  /** A delivery does not touch those of other pull requests, nor, unless it closes the pull request, those for the same commit. */
  lemma OthersKeepTheirDeliveries(s: Scm, a: Action, d: nat)
    requires a.Receive? && Possible(s, a) && d in s.deliveries
    requires
      || a.pull.None? || s.deliveries[d].repo != a.repo || s.deliveries[d].pull != a.pull
      || (!a.closed && a.commit != "" && s.deliveries[d].commit == a.commit)
    ensures d in Next(s, a).deliveries && Next(s, a).deliveries[d] == s.deliveries[d]
  {
  }

  lemma OthersKeepTheirRuns(s: Scm, a: Action, d: nat)
    requires a.Receive? && Possible(s, a) && TriggersOk(s) && d in s.triggers
    requires
      || a.pull.None? || s.triggers[d].repo != a.repo || s.triggers[d].pull != a.pull
      || (!a.closed && a.commit != "" && s.triggers[d].commit == a.commit)
    ensures s.triggers[d].run in Next(s, a).runs && Next(s, a).runs[s.triggers[d].run] == s.runs[s.triggers[d].run]
  {
    hide IgnoreOlder;
    if a.pull.Some? {
      assert !RunSuperseded(s.triggers, s.triggers[d].run, a.repo, a.pull.value, a.commit, a.closed);
    }
  }

  // ----- What is not bounded -----

  ghost function Extended(h: History, a: Action): History
    requires h.states != [] && Possible(h.states[|h.states| - 1], a)
  {
    History(h.states + [Next(h.states[|h.states| - 1], a)], h.actions + [a])
  }

  lemma ExtendedHappens(h: History, a: Action)
    requires Happens(h) && Possible(h.states[|h.states| - 1], a)
    ensures Happens(Extended(h, a))
  {
    hide Possible, Next;
    var x := Extended(h, a);
    forall i | 0 <= i < |x.actions| ensures Occurs(x, i) {
      if i < |h.actions| { assert Occurs(h, i); }
    }
  }

  /** Claims that merely expire are taken over without limit: any attempt count is reachable,
      whatever MaxAttempts is. */
  lemma {:induction false} ExpiryIsUnbounded(c: Config, n: nat) returns (h: History)
    ensures Happens(h) && h.states[0].config == c
    ensures
      var last := h.states[|h.states| - 1];
      && 0 in last.deliveries && last.deliveries[0].attempts == n && last.deliveries[0].retries == 0
      && Claimable(last.deliveries[0], last.now) && !last.deliveries[0].status.DFailed?
  {
    if n == 0 {
      var s := Scm(map[], map[], map[], map[], 0, 0, c);
      h := History([s], []);
      ExtendedHappens(h, Receive(0, 0, None, "", true, false));
      h := Extended(h, Receive(0, 0, None, "", true, false));
    } else {
      var before := ExpiryIsUnbounded(c, n - 1);
      ExtendedHappens(before, ClaimDelivery(0, 1));
      var mid := Extended(before, ClaimDelivery(0, 1));
      ExtendedHappens(mid, Tick(1));
      h := Extended(mid, Tick(1));
    }
  }
}
