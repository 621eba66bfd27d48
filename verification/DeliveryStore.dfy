/** The delivery tables as an object: each method is one statement or transaction, and one step of the delivery protocol. */
module DeliveryStore {
  import opened Tables
  import opened Deliveries

  datatype ClaimResult = BadClaim | NothingDue | ClaimedDelivery(id: nat, token: nat, attempts: nat)
  datatype CreateResult = Created | Replayed | PayloadConflict

  /** ORDER BY received_at, id. */
  predicate NotAfter(deliveries: map<nat, Delivery>, a: nat, b: nat)
    requires a in deliveries && b in deliveries
  {
    deliveries[a].received < deliveries[b].received || (deliveries[a].received == deliveries[b].received && a <= b)
  }

  ghost predicate OldestDue(deliveries: map<nat, Delivery>, id: nat, now: Time) {
    && id in deliveries && Claimable(deliveries[id], now)
    && forall other :: other in deliveries && Claimable(deliveries[other], now) ==> NotAfter(deliveries, id, other)
  }

  /** The subquery of the claim statement. */
  method SelectOldest(deliveries: map<nat, Delivery>, now: Time) returns (best: Option<nat>)
    ensures best.Some? ==> OldestDue(deliveries, best.value, now)
    ensures best.Some? ==> forall other :: other in deliveries && Claimable(deliveries[other], now) ==>
      && deliveries[best.value].received <= deliveries[other].received
      && (deliveries[best.value].received == deliveries[other].received ==> best.value <= other)
    ensures best.None? ==> forall id :: id in deliveries ==> !Claimable(deliveries[id], now)
  {
    best := None;
    var rest := deliveries.Keys;
    while rest != {}
      invariant rest <= deliveries.Keys
      invariant best.Some? ==> best.value in deliveries && Claimable(deliveries[best.value], now)
      invariant forall id :: id in deliveries && id !in rest && Claimable(deliveries[id], now) ==>
        best.Some? && NotAfter(deliveries, best.value, id)
    {
      var id :| id in rest;
      if Claimable(deliveries[id], now) && (best.None? || NotAfter(deliveries, id, best.value)) {
        best := Some(id);
      }
      rest := rest - {id};
    }
  }

  lemma IgnoreKeepsIds(deliveries: map<nat, Delivery>, repo: nat, pull: nat, commit: string, closed: bool)
    ensures IgnoreOlder(deliveries, repo, pull, commit, closed).Keys == deliveries.Keys
  {
  }

  class Store {
    var deliveries: map<nat, Delivery>
    var payloads: map<nat, string>
    var triggers: map<nat, Trigger>
    var runs: map<nat, ScmRun>
    var nextToken: nat

    ghost predicate Valid()
      reads this
    {
      payloads.Keys == deliveries.Keys
    }

    /** The tables are those of protocol state `s`. */
    ghost predicate Shows(s: Scm)
      reads this
    {
      deliveries == s.deliveries && triggers == s.triggers && runs == s.runs && nextToken == s.nextToken
    }

    constructor ()
      ensures Valid() && deliveries == map[] && triggers == map[] && runs == map[] && nextToken == 0
    {
      deliveries, payloads, triggers, runs, nextToken := map[], map[], map[], map[], 0;
    }

    /** A repeated delivery id changes nothing; it is the same delivery only if it carries the same payload. */
    method CreateDelivery(id: nat, payload: string, repo: nat, pull: Option<nat>, commit: string, actionable: bool, closed: bool,
                          now: Time, ghost s: Scm) returns (r: CreateResult)
      requires Valid() && Shows(s) && now == s.now
      modifies this
      ensures Valid()
      ensures r.Created? <==> Possible(s, Receive(id, repo, pull, commit, actionable, closed))
      ensures r.Created? ==> Shows(Next(s, Receive(id, repo, pull, commit, actionable, closed))) && payloads == old(payloads)[id := payload]
      ensures !r.Created? ==> Shows(s) && payloads == old(payloads) && (r.Replayed? <==> payloads[id] == payload)
    {
      hide IgnoreOlder, CancelOlder, Possible, Next;
      ReceiveIs(s, Receive(id, repo, pull, commit, actionable, closed));
      if id in deliveries {
        return if payloads[id] == payload then Replayed else PayloadConflict;
      }
      if pull.Some? && (actionable || closed) {
        IgnoreKeepsIds(deliveries, repo, pull.value, commit, closed);
        deliveries := IgnoreOlder(deliveries, repo, pull.value, commit, closed);
        runs := CancelOlder(runs, triggers, repo, pull.value, commit, closed);
      }
      deliveries := deliveries[id := Delivery(repo, pull, commit, now, if actionable then DPending else DIgnored, 0, None, None, 0)];
      payloads := payloads[id := payload];
      r := Created;
    }

    /** Claims the oldest delivery that is due, under a token no other claim ever had. */
    method ClaimDelivery(worker: string, lease: int, now: Time, ghost s: Scm) returns (r: ClaimResult)
      requires Valid() && Shows(s) && now == s.now
      modifies `deliveries, `nextToken
      ensures Valid()
      ensures r.BadClaim? <==> worker == "" || |worker| > 256 || lease <= 0
      ensures r.NothingDue? ==> forall id :: id in s.deliveries ==> !Claimable(s.deliveries[id], s.now)
      ensures !r.ClaimedDelivery? ==> Shows(s)
      ensures r.ClaimedDelivery? ==>
        && OldestDue(s.deliveries, r.id, s.now) && lease > 0 && Possible(s, Deliveries.ClaimDelivery(r.id, lease))
        && Shows(Next(s, Deliveries.ClaimDelivery(r.id, lease)))
        && r.token == s.nextToken && r.attempts == s.deliveries[r.id].attempts + 1
        && (forall other :: other in s.deliveries && Claimable(s.deliveries[other], s.now) ==>
              && s.deliveries[r.id].received <= s.deliveries[other].received
              && (s.deliveries[r.id].received == s.deliveries[other].received ==> r.id <= other))
    {
      if worker == "" || |worker| > 256 || lease <= 0 {
        return BadClaim;
      }
      var best := SelectOldest(deliveries, now);
      if best.None? {
        return NothingDue;
      }
      var id := best.value;
      deliveries := deliveries[id := Claimed(deliveries[id], nextToken, now + lease)];
      r := ClaimedDelivery(id, nextToken, deliveries[id].attempts);
      nextToken := nextToken + 1;
    }

    /** A statement fenced on the claim applies exactly when the token still holds the delivery. */
    method RenewClaim(id: nat, token: nat, lease: int, now: Time, ghost s: Scm) returns (ok: bool)
      requires Valid() && Shows(s) && now == s.now
      modifies `deliveries
      ensures Valid()
      ensures ok <==> lease > 0 && id in s.deliveries && Fenced(s.deliveries[id], token, now)
      ensures deliveries == if ok then s.deliveries[id := s.deliveries[id].(claim := Some(Claim(token, now + lease)))] else s.deliveries
      ensures Holder(s, id, token) ==>
        (ok <==> lease > 0 && Possible(s, Renew(token, lease))) && Shows(if ok then Next(s, Renew(token, lease)) else s)
    {
      ok := lease > 0 && id in deliveries && Fenced(deliveries[id], token, now);
      if ok {
        deliveries := deliveries[id := deliveries[id].(claim := Some(Claim(token, now + lease)))];
      }
    }

    /** For a worker that has seen or made the delivery's trigger this is the completion step. */
    method CompleteDelivery(id: nat, token: nat, status: DeliveryStatus, now: Time, ghost s: Scm) returns (ok: bool)
      requires Valid() && Shows(s) && now == s.now
      modifies `deliveries
      ensures Valid()
      ensures ok <==> (status.DProcessed? || status.DIgnored?) && id in s.deliveries && Fenced(s.deliveries[id], token, now)
      ensures deliveries == if ok then s.deliveries[id := s.deliveries[id].(status := status, claim := None, nextAttempt := None)] else s.deliveries
      ensures status.DProcessed? && Holder(s, id, token) && s.workers[token].ready ==>
        (ok <==> Possible(s, Complete(token))) && Shows(if ok then Next(s, Complete(token)) else s)
    {
      ok := (status.DProcessed? || status.DIgnored?) && id in deliveries && Fenced(deliveries[id], token, now);
      if ok {
        deliveries := deliveries[id := deliveries[id].(status := status, claim := None, nextAttempt := None)];
      }
    }

    method FailDelivery(id: nat, token: nat, retryAt: Option<Time>, now: Time) returns (ok: bool)
      requires Valid()
      modifies `deliveries
      ensures Valid()
      ensures ok <==> id in old(deliveries) && Fenced(old(deliveries)[id], token, now)
      ensures ok ==> deliveries == old(deliveries)[id := old(deliveries)[id].(status := DFailed, claim := None, nextAttempt := retryAt)]
      ensures !ok ==> deliveries == old(deliveries)
    {
      ok := id in deliveries && Fenced(deliveries[id], token, now);
      if ok {
        deliveries := deliveries[id := deliveries[id].(status := DFailed, claim := None, nextAttempt := retryAt)];
      }
    }

    /** The run and its trigger appear together or not at all; a delivery that already has a trigger never gets a second. */
    method CreateScmRun(id: nat, token: nat, run: nat, now: Time, ghost s: Scm) returns (ok: bool)
      requires Valid() && Shows(s) && now == s.now
      modifies `runs, `triggers
      ensures Valid()
      ensures ok <==> id in s.deliveries && Fenced(s.deliveries[id], token, now) && run !in s.runs && id !in s.triggers
      ensures !ok ==> Shows(s)
      ensures ok ==>
        && runs == s.runs[run := ScmRun(RunQueued, false)]
        && triggers == s.triggers[id := Trigger(run, s.deliveries[id].repo, s.deliveries[id].pull, s.deliveries[id].commit)]
      ensures Holder(s, id, token) ==> (ok <==> Possible(s, CreateRun(token, run))) && Shows(if ok then Next(s, CreateRun(token, run)) else s)
    {
      ok := id in deliveries && Fenced(deliveries[id], token, now) && run !in runs && id !in triggers;
      if ok {
        var d := deliveries[id];
        runs := runs[run := ScmRun(RunQueued, false)];
        triggers := triggers[id := Trigger(run, d.repo, d.pull, d.commit)];
      }
    }
  }

  /** The worker that `token` was given to is the one acting on delivery `id`. */
  ghost predicate Holder(s: Scm, id: nat, token: nat) {
    token in s.workers && s.workers[token].delivery == id
  }

  /** The worker's failure path: transient errors are retried after the backoff while attempts remain. */
  method FailAttempt(db: Store, c: Config, id: nat, token: nat, attempts: nat, transient: bool, now: Time, ghost s: Scm) returns (ok: bool)
    requires db.Valid() && db.Shows(s) && now == s.now && c == s.config && 0 < c.baseBackoff <= c.maxBackoff
    requires Holder(s, id, token) && attempts == s.workers[token].attempts && attempts >= 1
    modifies db`deliveries
    ensures db.Valid()
    ensures ok <==> Possible(s, Fail(token, transient))
    ensures db.Shows(if ok then Next(s, Fail(token, transient)) else s)
  {
    var retryAt: Option<Time> := None;
    if transient && attempts < c.maxAttempts {
      var delay := ComputeBackoff(c, attempts);
      retryAt := Some(now + delay);
    }
    ok := db.FailDelivery(id, token, retryAt, now);
  }
}
