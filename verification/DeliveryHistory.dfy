/** What the delivery table holds, told by the webhooks and the workers' statements alone. */
module DeliveryHistory {
  import opened Tables
  import opened Deliveries
  import opened DeliverySafety

  predicate ReceivesIt(a: Action, id: nat) {
    a.Receive? && a.id == id
  }

  predicate ClaimsIt(a: Action, id: nat) {
    a.ClaimDelivery? && a.id == id
  }

  predicate ByWorkerOf(s: Scm, token: nat, id: nat) {
    token in s.workers && s.workers[token].delivery == id
  }

  predicate RenewsIt(s: Scm, a: Action, id: nat) {
    a.Renew? && ByWorkerOf(s, a.token, id)
  }

  predicate CompletesIt(s: Scm, a: Action, id: nat) {
    a.Complete? && ByWorkerOf(s, a.token, id)
  }

  predicate FailsIt(s: Scm, a: Action, id: nat) {
    a.Fail? && ByWorkerOf(s, a.token, id)
  }

  /** A webhook of the same pull request that closes it, or asks for the build of another commit. */
  predicate Replaces(a: Action, d: Delivery) {
    && a.Receive? && a.pull.Some? && a.repo == d.repo && a.pull == d.pull
    && (a.closed || (a.actionable && (d.commit == "" || d.commit != a.commit)))
  }

  predicate IgnoresIt(a: Action, d: Delivery) {
    Replaces(a, d) && !d.status.DProcessed? && !d.status.DIgnored?
  }

  /** What a step does to a delivery that is already there. */
  ghost predicate RowMoves(s: Scm, a: Action, id: nat, d: Delivery, e: Delivery) {
    if ClaimsIt(a, id) then
      e == d.(status := DProcessing, attempts := d.attempts + 1, claim := Some(Claim(s.nextToken, s.now + a.lease)), nextAttempt := None, retries := e.retries)
    else if RenewsIt(s, a, id) then e == d.(claim := Some(Claim(a.token, s.now + a.lease)))
    else if CompletesIt(s, a, id) then e == d.(status := DProcessed, claim := None, nextAttempt := None)
    else if FailsIt(s, a, id) then
      e == d.(status := DFailed, claim := None,
              nextAttempt := if a.transient && 1 <= d.attempts < s.config.maxAttempts then Some(s.now + Backoff(s.config, d.attempts)) else None)
    else if IgnoresIt(a, d) then e == d.(status := DIgnored, claim := None, nextAttempt := None)
    else e == d
  }

  lemma ReceiveMoves(s: Scm, a: Action, id: nat)
    requires Possible(s, a) && a.Receive? && id in s.deliveries
    ensures id in Next(s, a).deliveries && RowMoves(s, a, id, s.deliveries[id], Next(s, a).deliveries[id])
  {
    hide CancelOlder;
    ReceiveIs(s, a);
  }

  lemma WorkerMoves(s: Scm, a: Action, id: nat)
    requires Possible(s, a) && !a.Receive? && id in s.deliveries && DeliveryOk(s, id)
    ensures id in Next(s, a).deliveries && RowMoves(s, a, id, s.deliveries[id], Next(s, a).deliveries[id])
  {
    hide Backoff, Received;
  }

  lemma RowStep(h: History, k: nat, id: nat)
    requires Happens(h) && k < |h.actions| && id in h.states[k].deliveries
    ensures id in h.states[k + 1].deliveries
    ensures RowMoves(h.states[k], h.actions[k], id, h.states[k].deliveries[id], h.states[k + 1].deliveries[id])
    ensures !ReceivesIt(h.actions[k], id)
  {
    hide Next, RowMoves, DeliveryOk, OneCommit, WorkersOk, TriggersOk;
    assert Occurs(h, k);
    HistoryOk(h, k);
    if h.actions[k].Receive? {
      ReceiveMoves(h.states[k], h.actions[k], id);
    } else {
      WorkerMoves(h.states[k], h.actions[k], id);
    }
  }

  lemma NewRow(s: Scm, a: Action, id: nat)
    requires Possible(s, a) && id !in s.deliveries && id in Next(s, a).deliveries
    ensures ReceivesIt(a, id)
    ensures Next(s, a).deliveries[id] == Delivery(a.repo, a.pull, a.commit, s.now, if a.actionable then DPending else DIgnored, 0, None, None, 0)
  {
    hide CancelOlder;
  }

  /** A new delivery is there to be claimed at once exactly if it asks for a build, pull request or not. */
  lemma ReceivedIsClaimable(s: Scm, a: Action)
    requires a.Receive? && Possible(s, a)
    ensures a.id in Next(s, a).deliveries && (Claimable(Next(s, a).deliveries[a.id], Next(s, a).now) <==> a.actionable)
  {
    hide CancelOlder, IgnoreOlder;
    ReceiveIs(s, a);
  }

  /** After a webhook that asks for a build or closes the pull request, its commit is active exactly in the first case, and no other is. */
  lemma ActiveIff(s: Scm, a: Action, c: string)
    requires a.Receive? && a.pull.Some? && (a.actionable || a.closed) && Possible(s, a) && TriggersOk(s)
    ensures Active(Next(s, a), a.repo, a.pull.value, c) <==> a.actionable && c == a.commit
  {
    hide Possible, Active, Received, TriggersOk;
    ReceiveIs(s, a);
    var n := Next(s, a);
    if Active(n, a.repo, a.pull.value, c) {
      ReceiveActive(s, a.id, a.repo, a.pull.value, a.commit, a.actionable, a.closed, c);
    }
    if a.actionable {
      NewIsActive(s, a, n);
    }
  }

  lemma NewIsActive(s: Scm, a: Action, n: Scm)
    requires a.Receive? && a.pull.Some? && a.actionable && n == Received(s, a.id, a.repo, a.pull, a.commit, a.actionable, a.closed)
    ensures Active(n, a.repo, a.pull.value, a.commit)
  {
    hide CancelOlder, IgnoreOlder;
    assert DeliveryActive(n.deliveries[a.id], a.repo, a.pull.value, a.commit);
  }

  // ----- The history of a delivery -----

  /** Step `i` gave the delivery a new status. */
  ghost predicate ChangesAt(h: History, i: nat, id: nat)
    requires i < |h.actions| && |h.states| == |h.actions| + 1
  {
    var s, a := h.states[i], h.actions[i];
    || ReceivesIt(a, id) || ClaimsIt(a, id) || CompletesIt(s, a, id) || FailsIt(s, a, id)
    || (id in s.deliveries && IgnoresIt(a, s.deliveries[id]))
  }

  ghost predicate LastChange(h: History, i: nat, k: nat, id: nat)
    requires k <= |h.actions| && |h.states| == |h.actions| + 1
  {
    i < k && ChangesAt(h, i, id) && forall m :: i < m < k ==> !ChangesAt(h, m, id)
  }

  /** The claim was given at `i` or last renewed at `g`. */
  ghost predicate LastLease(h: History, i: nat, g: nat, k: nat, id: nat)
    requires k <= |h.actions| && |h.states| == |h.actions| + 1
  {
    && i <= g < k && (g == i || RenewsIt(h.states[g], h.actions[g], id))
    && forall m :: g < m < k ==> !RenewsIt(h.states[m], h.actions[m], id)
  }

  /** What the last change, at `i`, left in the row; `d` is the row as it was found, for changes other than its arrival. */
  ghost predicate LeftBy(h: History, i: nat, g: nat, id: nat, row: Delivery)
    requires i < |h.actions| && g < |h.actions| && |h.states| == |h.actions| + 1
  {
    var s, a := h.states[i], h.actions[i];
    if ReceivesIt(a, id) then
      row.status == (if a.actionable then DPending else DIgnored) && row.claim.None? && row.nextAttempt.None?
    else if ClaimsIt(a, id) then
      && row.status.DProcessing? && row.nextAttempt.None? && (h.actions[g].ClaimDelivery? || h.actions[g].Renew?)
      && row.claim == Some(Claim(s.nextToken, h.states[g].now + h.actions[g].lease))
    else if CompletesIt(s, a, id) then row.status.DProcessed? && row.claim.None? && row.nextAttempt.None?
    else if FailsIt(s, a, id) then
      && row.status.DFailed? && row.claim.None? && row.attempts >= 1
      && row.nextAttempt ==
           if a.transient && row.attempts < s.config.maxAttempts then Some(s.now + Backoff(s.config, row.attempts)) else None
    else row.status.DIgnored? && row.claim.None? && row.nextAttempt.None?
  }

  lemma RenewKeepsToken(s: Scm, a: Action, id: nat)
    requires Possible(s, a) && RenewsIt(s, a, id)
    ensures id in s.deliveries && s.deliveries[id].claim.Some? && s.deliveries[id].claim.value.token == a.token && s.deliveries[id].status.DProcessing?
  {
  }

  lemma ChangeLeaves(h: History, k: nat, id: nat)
    requires Happens(h) && k < |h.actions| && id in h.states[k].deliveries && ChangesAt(h, k, id)
    ensures id in h.states[k + 1].deliveries && LeftBy(h, k, k, id, h.states[k + 1].deliveries[id])
  {
    RowStep(h, k, id);
    assert Occurs(h, k);
    HistoryOk(h, k);
    hide Backoff, OneCommit, WorkersOk, TriggersOk, Next, Happens;
    assert DeliveryOk(h.states[k], id);
  }

  lemma NoChangeLeaves(h: History, i: nat, g: nat, k: nat, id: nat)
    requires Happens(h) && i <= g < k < |h.actions| && id in h.states[k].deliveries && id in h.states[k + 1].deliveries
    requires !ChangesAt(h, k, id) && LeftBy(h, i, g, id, h.states[k].deliveries[id])
    ensures
      if RenewsIt(h.states[k], h.actions[k], id) then ClaimsIt(h.actions[i], id) && LeftBy(h, i, k, id, h.states[k + 1].deliveries[id])
      else h.states[k + 1].deliveries[id] == h.states[k].deliveries[id]
  {
    RowStep(h, k, id);
    assert Occurs(h, k);
    if RenewsIt(h.states[k], h.actions[k], id) { RenewKeepsToken(h.states[k], h.actions[k], id); }
    hide Backoff, Next, Possible, Happens, ScmOk;
  }

  /** In every state, a delivery is what the last change made of it: waiting or ignored as it arrived, claimed under that claim's token
      until a lease after the claim or its last renewal, done, failed with the retry that failure earned, or ignored for a newer one. */
  lemma {:induction false} DeliveryFromHistory(h: History, k: nat, id: nat) returns (i: nat, g: nat)
    requires Happens(h) && k < |h.states| && id in h.states[k].deliveries
    ensures LastChange(h, i, k, id) && LastLease(h, i, g, k, id) && LeftBy(h, i, g, id, h.states[k].deliveries[id])
    decreases k
  {
    assert k > 0 by { assert h.states[0].deliveries == map[]; }
    assert Occurs(h, k - 1);
    if id !in h.states[k - 1].deliveries {
      NewRow(h.states[k - 1], h.actions[k - 1], id);
      i, g := k - 1, k - 1;
    } else {
      hide Occurs, LeftBy;
      if ChangesAt(h, k - 1, id) {
        ChangeLeaves(h, k - 1, id);
        i, g := k - 1, k - 1;
      } else {
        hide ChangesAt, RenewsIt;
        i, g := DeliveryFromHistory(h, k - 1, id);
        NoChangeLeaves(h, i, g, k - 1, id);
        if RenewsIt(h.states[k - 1], h.actions[k - 1], id) { g := k - 1; }
      }
    }
  }

  /** The columns a webhook fills in stay as they arrived. */
  lemma {:induction false} DeliveryOrigin(h: History, k: nat, id: nat) returns (i: nat)
    requires Happens(h) && k < |h.states| && id in h.states[k].deliveries
    ensures i < k && ReceivesIt(h.actions[i], id)
    ensures
      var d, a := h.states[k].deliveries[id], h.actions[i];
      d.repo == a.repo && d.pull == a.pull && d.commit == a.commit && d.received == h.states[i].now
    decreases k
  {
    assert k > 0 by { assert h.states[0].deliveries == map[]; }
    assert Occurs(h, k - 1);
    if id !in h.states[k - 1].deliveries {
      NewRow(h.states[k - 1], h.actions[k - 1], id);
      i := k - 1;
    } else {
      hide Occurs, Backoff;
      RowStep(h, k - 1, id);
      i := DeliveryOrigin(h, k - 1, id);
    }
  }

  ghost function Claims(h: History, k: nat, id: nat): nat
    requires k <= |h.actions|
  {
    if k == 0 then 0 else Claims(h, k - 1, id) + if ClaimsIt(h.actions[k - 1], id) then 1 else 0
  }

  lemma NoClaimYet(s: Scm, a: Action, id: nat)
    requires Possible(s, a) && id !in s.deliveries
    ensures !ClaimsIt(a, id)
  {
  }

  /** The attempt count is the number of claims. */
  lemma {:induction false} AttemptsAreClaims(h: History, k: nat, id: nat)
    requires Happens(h) && k < |h.states|
    ensures if id in h.states[k].deliveries then h.states[k].deliveries[id].attempts == Claims(h, k, id) else Claims(h, k, id) == 0
  {
    if k > 0 {
      AttemptsAreClaims(h, k - 1, id);
      hide Happens, ClaimsIt;
      AttemptsStep(h, k - 1, id);
    }
  }

  lemma AttemptsStep(h: History, k: nat, id: nat)
    requires Happens(h) && k < |h.actions|
    ensures
      var s, n, a := h.states[k], h.states[k + 1], h.actions[k];
      if id in s.deliveries then
        id in n.deliveries && n.deliveries[id].attempts == s.deliveries[id].attempts + if ClaimsIt(a, id) then 1 else 0
      else !ClaimsIt(a, id) && (id in n.deliveries ==> n.deliveries[id].attempts == 0)
  {
    if id in h.states[k].deliveries {
      hide Occurs, Backoff;
      RowStep(h, k, id);
    } else {
      assert Occurs(h, k);
      hide Possible, Next;
      NoClaimYet(h.states[k], h.actions[k], id);
      if id in h.states[k + 1].deliveries { NewRow(h.states[k], h.actions[k], id); }
    }
  }

  /** Exactly when a delivery can be claimed: it asked for a build and nothing has happened to it since; or it failed with a retry
      left, and the delay that failure earned is over; or it was claimed, and the lease has run out since it was given or renewed. */
  lemma ClaimableIff(h: History, k: nat, id: nat) returns (i: nat, g: nat)
    requires Happens(h) && k < |h.states| && id in h.states[k].deliveries
    ensures LastChange(h, i, k, id) && LastLease(h, i, g, k, id)
    ensures
      var s, a, now := h.states[i], h.actions[i], h.states[k].now;
      Claimable(h.states[k].deliveries[id], now) <==>
        || (ReceivesIt(a, id) && a.actionable)
        || (FailsIt(s, a, id) && a.transient && 1 <= Claims(h, k, id) < s.config.maxAttempts && s.now + Backoff(s.config, Claims(h, k, id)) <= now)
        || (ClaimsIt(a, id) && (h.actions[g].ClaimDelivery? || h.actions[g].Renew?) && h.states[g].now + h.actions[g].lease <= now)
  {
    hide Occurs, Backoff, ScmOk, ChangesAt, RenewsIt, LastLease, Claims;
    i, g := DeliveryFromHistory(h, k, id);
    AttemptsAreClaims(h, k, id);
    assert ReceivesIt(h.actions[i], id) ==> !ClaimsIt(h.actions[i], id) && !FailsIt(h.states[i], h.actions[i], id);
  }

  /** A run is created for the commit its delivery asked for. */
  lemma {:induction false} TriggerOrigin(h: History, k: nat, id: nat) returns (i: nat, c: nat)
    requires Happens(h) && k < |h.states| && id in h.states[k].triggers
    ensures i < c < k && ReceivesIt(h.actions[i], id) && h.actions[c].CreateRun? && ByWorkerOf(h.states[c], h.actions[c].token, id)
    ensures h.states[k].triggers[id] == Trigger(h.actions[c].run, h.actions[i].repo, h.actions[i].pull, h.actions[i].commit)
    decreases k
  {
    assert k > 0 by { assert h.states[0].triggers == map[]; }
    assert Occurs(h, k - 1);
    if id in h.states[k - 1].triggers {
      TriggerStep(h.states[k - 1], h.actions[k - 1], id);
      hide Possible, Next;
      i, c := TriggerOrigin(h, k - 1, id);
    } else {
      NewTrigger(h.states[k - 1], h.actions[k - 1], id);
      hide Possible, Next;
      c := k - 1;
      i := DeliveryOrigin(h, c, id);
    }
  }

  lemma NewTrigger(s: Scm, a: Action, id: nat)
    requires Possible(s, a) && id !in s.triggers && id in Next(s, a).triggers
    ensures a.CreateRun? && ByWorkerOf(s, a.token, id) && id in s.deliveries
    ensures Next(s, a).triggers[id] == Trigger(a.run, s.deliveries[id].repo, s.deliveries[id].pull, s.deliveries[id].commit)
  {
  }

  // ----- What a worker may do -----

  /** The worker with this token claimed the delivery at `i`. */
  ghost predicate GivenAt(h: History, i: nat, token: nat, id: nat)
    requires i < |h.actions| && |h.states| == |h.actions| + 1
  {
    ClaimsIt(h.actions[i], id) && h.states[i].nextToken == token
  }

  /** Exactly which token holds a delivery: that of its last claim, if nothing else has happened to it since, until a lease after the claim or
      its last renewal. */
  lemma FencedIff(h: History, k: nat, id: nat, token: nat) returns (i: nat, g: nat)
    requires Happens(h) && k < |h.states| && id in h.states[k].deliveries
    ensures LastChange(h, i, k, id) && LastLease(h, i, g, k, id)
    ensures Fenced(h.states[k].deliveries[id], token, h.states[k].now) <==>
      GivenAt(h, i, token, id) && (h.actions[g].ClaimDelivery? || h.actions[g].Renew?) && h.states[k].now < h.states[g].now + h.actions[g].lease
  {
    hide Occurs, Backoff, ScmOk, ChangesAt, RenewsIt, LastLease;
    i, g := DeliveryFromHistory(h, k, id);
  }

  lemma WorkerStep(s: Scm, a: Action, token: nat)
    requires Possible(s, a)
    ensures token in Next(s, a).workers ==>
      if token in s.workers && !(a.ClaimDelivery? && token == s.nextToken)
      then Next(s, a).workers[token].delivery == s.workers[token].delivery
      else a.ClaimDelivery? && token == s.nextToken && Next(s, a).workers[token].delivery == a.id
    ensures token in s.workers ==> token in Next(s, a).workers
    ensures a.ClaimDelivery? ==> s.nextToken in Next(s, a).workers && Next(s, a).workers[s.nextToken].delivery == a.id
    ensures s.nextToken <= Next(s, a).nextToken && (a.ClaimDelivery? ==> s.nextToken < Next(s, a).nextToken)
  {
    hide IgnoreOlder, CancelOlder, FailedAs, Claimed, Fenced, Claimable;
  }

  /** A worker knows the delivery that its token was given for. */
  lemma {:induction false} WorkerOrigin(h: History, k: nat, token: nat) returns (i: nat)
    requires Happens(h) && k < |h.states| && token in h.states[k].workers
    ensures i < k && GivenAt(h, i, token, h.states[k].workers[token].delivery)
    decreases k
  {
    assert k > 0 by { assert h.states[0].workers == map[]; }
    assert Occurs(h, k - 1);
    WorkerStep(h.states[k - 1], h.actions[k - 1], token);
    hide Possible, Next;
    if token in h.states[k - 1].workers && !(h.actions[k - 1].ClaimDelivery? && token == h.states[k - 1].nextToken) {
      i := WorkerOrigin(h, k - 1, token);
    } else {
      i := k - 1;
    }
  }

  lemma {:induction false} TokenFresh(h: History, i: nat, k: nat)
    requires Happens(h) && i < k < |h.states| && h.actions[i].ClaimDelivery?
    ensures h.states[i].nextToken < h.states[k].nextToken
    decreases k
  {
    assert Occurs(h, k - 1);
    WorkerStep(h.states[k - 1], h.actions[k - 1], 0);
    hide Possible, Next;
    if i < k - 1 {
      TokenFresh(h, i, k - 1);
    }
  }

  lemma {:induction false} WorkerKept(h: History, i: nat, k: nat, token: nat, id: nat)
    requires Happens(h) && i < k < |h.states| && GivenAt(h, i, token, id)
    ensures ByWorkerOf(h.states[k], token, id)
    decreases k
  {
    assert Occurs(h, k - 1);
    WorkerStep(h.states[k - 1], h.actions[k - 1], token);
    hide Possible, Next;
    if i < k - 1 {
      WorkerKept(h, i, k - 1, token, id);
      TokenFresh(h, i, k - 1);
    }
  }

  /** A token is given once. */
  lemma GivenOnce(h: History, i: nat, m: nat, token: nat, id: nat, other: nat)
    requires Happens(h) && i < |h.actions| && m < |h.actions| && GivenAt(h, i, token, id) && GivenAt(h, m, token, other)
    ensures i == m && id == other
  {
    hide Occurs;
    if i < m { TokenFresh(h, i, m); }
    if m < i { TokenFresh(h, m, i); }
  }

  /** Exactly when a worker's statements take effect: its token was given for a delivery, that claim is still the last thing that happened to
      the delivery, and the lease has not run out. */
  lemma ActsIff(h: History, k: nat, token: nat)
    requires Happens(h) && k < |h.states|
    ensures Acts(h.states[k], token) <==> exists i, g, id :: Holding(h, i, g, k, token, id)
  {
    hide Occurs, LastChange, LastLease, GivenAt;
    if Acts(h.states[k], token) {
      var id := h.states[k].workers[token].delivery;
      var i, g := FencedIff(h, k, id, token);
      LastIsBefore(h, i, g, k, id);
      assert Holding(h, i, g, k, token, id);
    }
    if i, g, id :| Holding(h, i, g, k, token, id) {
      HolderActs(h, i, g, k, token, id);
    }
  }

  ghost predicate Holding(h: History, i: nat, g: nat, k: nat, token: nat, id: nat)
    requires k <= |h.actions| && |h.states| == |h.actions| + 1
  {
    && i < k && g < k && GivenAt(h, i, token, id) && LastChange(h, i, k, id) && LastLease(h, i, g, k, id)
    && (h.actions[g].ClaimDelivery? || h.actions[g].Renew?) && h.states[k].now < h.states[g].now + h.actions[g].lease
  }

  lemma LastIsBefore(h: History, i: nat, g: nat, k: nat, id: nat)
    requires k <= |h.actions| && |h.states| == |h.actions| + 1 && LastChange(h, i, k, id) && LastLease(h, i, g, k, id)
    ensures i < k && g < k
  {
  }

  lemma OnlyLast(h: History, i: nat, g: nat, m: nat, n: nat, k: nat, id: nat)
    requires k <= |h.actions| && |h.states| == |h.actions| + 1
    requires LastChange(h, i, k, id) && LastLease(h, i, g, k, id) && LastChange(h, m, k, id) && LastLease(h, m, n, k, id)
    ensures i == m && g == n
  {
  }

  lemma HolderActs(h: History, i: nat, g: nat, k: nat, token: nat, id: nat)
    requires Happens(h) && k < |h.states| && Holding(h, i, g, k, token, id)
    ensures Acts(h.states[k], token)
  {
    hide Occurs, LastChange, LastLease, Fenced;
    WorkerKept(h, i, k, token, id);
    ClaimedIsThere(h, i, k, id);
    var m, n := FencedIff(h, k, id, token);
    OnlyLast(h, i, g, m, n, k, id);
  }

  lemma {:induction false} ClaimedIsThere(h: History, i: nat, k: nat, id: nat)
    requires Happens(h) && i < k < |h.states| && ClaimsIt(h.actions[i], id)
    ensures id in h.states[k].deliveries
    decreases k
  {
    assert Occurs(h, k - 1);
    if i == k - 1 {
      hide CancelOlder, IgnoreOlder;
    } else {
      hide Occurs, Possible, Next, RowMoves;
      ClaimedIsThere(h, i, k - 1, id);
      RowStep(h, k - 1, id);
    }
  }

  /** Exactly when a worker may create a run: it acts on its delivery, no worker has created one for that delivery before, and the id is new. */
  lemma CreateRunIff(h: History, k: nat, token: nat, run: nat)
    requires Happens(h) && k < |h.states| && Acts(h.states[k], token)
    ensures Possible(h.states[k], CreateRun(token, run)) <==>
      run !in h.states[k].runs && forall c :: 0 <= c < k ==> !CreatesFor(h, c, h.states[k].workers[token].delivery)
  {
    hide Occurs, Fenced;
    var id := h.states[k].workers[token].delivery;
    if id in h.states[k].triggers {
      var i, c := TriggerOrigin(h, k, id);
      assert CreatesFor(h, c, id);
    }
    forall c | 0 <= c < k && CreatesFor(h, c, id) ensures id in h.states[k].triggers {
      CreatedStays(h, c, k, id);
    }
  }

  ghost predicate CreatesFor(h: History, c: nat, id: nat)
    requires c < |h.actions| && |h.states| == |h.actions| + 1
  {
    h.actions[c].CreateRun? && ByWorkerOf(h.states[c], h.actions[c].token, id)
  }

  lemma CreatedStays(h: History, c: nat, k: nat, id: nat)
    requires Happens(h) && c < k < |h.states| && CreatesFor(h, c, id)
    ensures id in h.states[k].triggers
  {
    assert Occurs(h, c);
    OneRunPerDelivery(h, c + 1, k, id);
  }
}
