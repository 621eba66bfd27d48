/** Where artifacts come from and how long they are kept, over whole executions. */
module ArtifactLife {
  import opened Tables
  import opened Blocking
  import opened Runs
  import opened RunInvariant
  import opened RunOrder
  import opened Protocol
  import opened Executions

  ghost predicate CommitsArtifact(e: Event, r: nat, p: string, n: string) {
    e.CommitArtifacts? && e.owner.run == r && e.owner.job == p && n in e.items
  }

  /** What a transaction does to one artifact row. */
  ghost predicate ArtifactMoves(s: State, e: Event, a: RunRow, b: RunRow, key: (string, string)) {
    && key in a.artifacts && key in b.artifacts
    && var before, after := a.artifacts[key], b.artifacts[key];
      && after.meta == before.meta
      && after.expires == (if !Terminal(a.status) && Terminal(b.status) then Some(s.now + s.retention) else before.expires)
      && (after.deleted <==> before.deleted || (e.ExpireArtifacts? && before.expires.Some? && before.expires.value <= s.now))
  }

  ghost predicate ArtifactsMove(s: State, e: Event, r: nat, a: RunRow, b: RunRow) {
    && (forall key :: key in a.artifacts ==> ArtifactMoves(s, e, a, b, key))
    && (forall p, n :: (p, n) in b.artifacts && (p, n) !in a.artifacts ==>
          CommitsArtifact(e, r, p, n) && b.artifacts[(p, n)] == ArtifactRow(e.items[n], None, false))
  }

  lemma FinalizeDates(s: State, e: Event, r: nat, a: RunRow, b: RunRow)
    requires ArtifactsLive(a) && !e.ExpireArtifacts? && b.status == a.status && b.artifacts == a.artifacts
    ensures ArtifactsMove(s, e, r, a, Finalize(b, Expiry(s)))
  {
    hide AllFinished, Any;
  }

  lemma UntouchedArtifacts(s: State, e: Event, r: nat, a: RunRow, b: RunRow)
    requires !e.ExpireArtifacts? && b.artifacts == a.artifacts && (Terminal(b.status) && !Terminal(a.status) ==> a.artifacts == map[])
    ensures ArtifactsMove(s, e, r, a, b)
  {
  }

  lemma QueuedHasNone(run: RunRow)
    requires RunOk(run) && run.status.RunQueued?
    ensures run.artifacts == map[]
  {
    hide Settled, NeedsPassed, BlockedHasCause, CanceledByRequest, Shape, ArtifactsPresent, ArtifactsLive;
    assert ArtifactsOwned(run) && AllPending(run.jobs);
  }

  lemma ArtifactFacts(s: State, r: nat)
    requires Inv(s) && r in s.runs
    ensures ArtifactsLive(s.runs[r]) && (s.runs[r].status.RunQueued? ==> s.runs[r].artifacts == map[])
  {
    hide LeasesIssued, Settled, JobsOk, Shape, ArtifactsPresent, ArtifactsOwned;
    assert RunOk(s.runs[r]);
    if s.runs[r].status.RunQueued? { QueuedHasNone(s.runs[r]); }
  }

  lemma SettlingArtifacts(s: State, e: Event, r: nat)
    requires Inv(s) && Enabled(s, e) && r in s.runs && (e.Complete? || e.Expire? || e.Recover? || e.RequestCancel?)
    ensures r in Apply(s, e).runs && ArtifactsMove(s, e, r, s.runs[r], Apply(s, e).runs[r])
  {
    hide Inv, ArtifactsCommitted, BlockAll, Finalize, AbortIn, CancelPending, ArtifactsMove, ArtifactsLive;
    ArtifactFacts(s, r);
    var run := s.runs[r];
    UntouchedArtifacts(s, e, r, run, run);
    match e
    case Complete(o, st) =>
      if o.run == r {
        var jobs := run.jobs[o.job := run.jobs[o.job].(status := st, lease := None)];
        FinalizeDates(s, e, r, run, run.(jobs := if st.JobPassed? then jobs else BlockAll(run.decl, jobs)));
      }
    case Expire => FinalizeDates(s, e, r, run, run.(jobs := BlockAll(run.decl, AbortIn(run.jobs, ExpiredIn(run.jobs, s.now)))));
    case Recover => FinalizeDates(s, e, r, run, run.(jobs := BlockAll(run.decl, AbortIn(run.jobs, RunningIn(run.jobs)))));
    case RequestCancel(q) => FinalizeDates(s, e, r, run, run.(cancelRequested := true, jobs := CancelPending(run.jobs)));
  }

  lemma InsertedArtifacts(s: State, e: Event, r: nat)
    requires Enabled(s, e) && r in s.runs && (e.CommitArtifacts? || e.ExpireArtifacts?)
    ensures r in Apply(s, e).runs && ArtifactsMove(s, e, r, s.runs[r], Apply(s, e).runs[r])
  {
  }

  ghost predicate TouchesNoArtifact(e: Event) {
    e.Tick? || e.Register? || e.Submit? || e.Seen? || e.Lease? || e.Renew? || e.CancelQueued? || e.Supersede?
  }

  lemma OtherArtifacts(s: State, e: Event, r: nat)
    requires Enabled(s, e) && r in s.runs && TouchesNoArtifact(e)
    ensures r in Apply(s, e).runs && Apply(s, e).runs[r].artifacts == s.runs[r].artifacts
    ensures Terminal(Apply(s, e).runs[r].status) && !Terminal(s.runs[r].status) ==> s.runs[r].status.RunQueued?
  {
    hide ValidPipeline, Leasable, CancelPending;
  }

  lemma ArtifactsStep(s: State, e: Event, r: nat)
    requires Inv(s) && Enabled(s, e) && r in s.runs
    ensures r in Apply(s, e).runs && ArtifactsMove(s, e, r, s.runs[r], Apply(s, e).runs[r])
  {
    hide Inv, Enabled, Apply, ArtifactsMove, ArtifactsLive;
    if e.Complete? || e.Expire? || e.Recover? || e.RequestCancel? {
      SettlingArtifacts(s, e, r);
    } else if e.CommitArtifacts? || e.ExpireArtifacts? {
      InsertedArtifacts(s, e, r);
    } else {
      ArtifactFacts(s, r);
      OtherArtifacts(s, e, r);
      UntouchedArtifacts(s, e, r, s.runs[r], Apply(s, e).runs[r]);
    }
  }

  lemma ArtifactsStepAt(x: Execution, k: nat, r: nat)
    requires Valid(x) && k < |x.events| && r in x.states[k].runs
    ensures r in x.states[k + 1].runs && ArtifactsMove(x.states[k], x.events[k], r, x.states[k].runs[r], x.states[k + 1].runs[r])
  {
    hide Inv, Enabled, Apply, ArtifactsMove;
    assert Step(x, k);
    ReachableInv(x, k);
    ArtifactsStep(x.states[k], x.events[k], r);
  }

  /** Every artifact was committed by its producer's leaseholder, and carries the metadata of that commit. */
  lemma {:induction false} ArtifactOrigin(x: Execution, k: nat, r: nat, p: string, n: string) returns (i: nat)
    requires Valid(x) && k < |x.states| && r in x.states[k].runs && (p, n) in x.states[k].runs[r].artifacts
    ensures i < k && CommitsArtifact(x.events[i], r, p, n) && Owns(x.states[i], x.events[i].owner)
    ensures x.states[k].runs[r].artifacts[(p, n)].meta == x.events[i].items[n]
    decreases k
  {
    assert k > 0 by { assert x.states[0].runs == map[]; }
    assert Step(x, k - 1);
    if r !in x.states[k - 1].runs {
      OnlySubmitCreates(x.states[k - 1], x.events[k - 1], r);
      assert false;
    }
    ArtifactsStepAt(x, k - 1, r);
    if (p, n) in x.states[k - 1].runs[r].artifacts {
      hide Enabled, Apply;
      i := ArtifactOrigin(x, k - 1, r, p, n);
      assert ArtifactMoves(x.states[k - 1], x.events[k - 1], x.states[k - 1].runs[r], x.states[k].runs[r], (p, n));
    } else {
      i := k - 1;
    }
  }

  /** And every commit is still there, with its metadata. */
  lemma ArtifactKept(x: Execution, i: nat, k: nat, p: string, n: string)
    requires Valid(x) && i < k < |x.states| && x.events[i].CommitArtifacts? && CommitsArtifact(x.events[i], x.events[i].owner.run, p, n)
    ensures x.events[i].owner.run in x.states[k].runs && (p, n) in x.states[k].runs[x.events[i].owner.run].artifacts
    ensures x.states[k].runs[x.events[i].owner.run].artifacts[(p, n)].meta == x.events[i].items[n]
  {
    assert Step(x, i);
    ReachableLater(x, i + 1, k);
    hide Valid, JobsLater;
  }

  /** The transaction with which a run ended. */
  ghost predicate EndsRun(x: Execution, i: nat, r: nat)
    requires i < |x.events| && |x.states| == |x.events| + 1
  {
    && r in x.states[i].runs && !Terminal(x.states[i].runs[r].status)
    && r in x.states[i + 1].runs && Terminal(x.states[i + 1].runs[r].status)
  }

  ghost predicate SweptBetween(x: Execution, i: nat, k: nat, due: Time)
    requires k <= |x.events| && |x.states| == |x.events| + 1
  {
    exists m :: i < m < k && x.events[m].ExpireArtifacts? && due <= x.states[m].now
  }

  /** How long artifacts live: as long as the run has not ended they have no expiry and are there; from then on they are due one
      retention period after the end, and gone exactly if a sweep has come by since they were due. */
  lemma {:induction false} ArtifactLifetime(x: Execution, k: nat, r: nat, key: (string, string)) returns (i: nat)
    requires Valid(x) && k < |x.states| && r in x.states[k].runs && key in x.states[k].runs[r].artifacts
    ensures
      var run := x.states[k].runs[r];
      var row := run.artifacts[key];
      if !Terminal(run.status) then row.expires.None? && !row.deleted
      else
        && i < k && EndsRun(x, i, r) && row.expires == Some(x.states[i].now + x.states[0].retention)
        && (row.deleted <==> SweptBetween(x, i, k, row.expires.value))
    decreases k
  {
    hide Step, Inv, StateLater, ArtifactsLive, EndsRun;
    ReachableInv(x, k);
    ArtifactFacts(x.states[k], r);
    if !Terminal(x.states[k].runs[r].status) {
      LiveArtifact(x.states[k].runs[r], key);
      return 0;
    }
    EndedBefore(x, k, r);
    SameRetention(x, k - 1);
    ArtifactsStepAt(x, k - 1, r);
    if !Terminal(x.states[k - 1].runs[r].status) {
      i := k - 1;
      ReachableInv(x, i);
      ArtifactFacts(x.states[i], r);
      NoneAdded(x, i, r, key);
      EndsHere(x, i, r, key);
    } else {
      NoneAdded(x, k - 1, r, key);
      i := ArtifactLifetime(x, k - 1, r, key);
      LifetimeStep(x, i, k - 1, r, key);
    }
  }

  lemma LiveArtifact(run: RunRow, key: (string, string))
    requires ArtifactsLive(run) && !Terminal(run.status) && key in run.artifacts
    ensures run.artifacts[key].expires.None? && !run.artifacts[key].deleted
  {
  }

  lemma EndedBefore(x: Execution, k: nat, r: nat)
    requires Valid(x) && k < |x.states| && r in x.states[k].runs && Terminal(x.states[k].runs[r].status)
    ensures k > 0 && r in x.states[k - 1].runs
  {
    assert k > 0 by { assert x.states[0].runs == map[]; }
    assert Step(x, k - 1);
    if r !in x.states[k - 1].runs {
      OnlySubmitCreates(x.states[k - 1], x.events[k - 1], r);
    }
  }

  lemma SameRetention(x: Execution, k: nat)
    requires Valid(x) && k < |x.states|
    ensures x.states[k].retention == x.states[0].retention
  {
    hide Step;
    ReachableLater(x, 0, k);
  }

  lemma EndsHere(x: Execution, i: nat, r: nat, key: (string, string))
    requires |x.states| == |x.events| + 1 && i < |x.events| && r in x.states[i].runs && r in x.states[i + 1].runs
    requires ArtifactsMove(x.states[i], x.events[i], r, x.states[i].runs[r], x.states[i + 1].runs[r])
    requires !Terminal(x.states[i].runs[r].status) && Terminal(x.states[i + 1].runs[r].status) && ArtifactsLive(x.states[i].runs[r])
    requires x.states[i].retention == x.states[0].retention && key in x.states[i + 1].runs[r].artifacts && key in x.states[i].runs[r].artifacts
    ensures EndsRun(x, i, r)
    ensures x.states[i + 1].runs[r].artifacts[key].expires == Some(x.states[i].now + x.states[0].retention)
    ensures !x.states[i + 1].runs[r].artifacts[key].deleted && !SweptBetween(x, i, i + 1, x.states[i].now + x.states[0].retention)
  {
    assert ArtifactMoves(x.states[i], x.events[i], x.states[i].runs[r], x.states[i + 1].runs[r], key);
  }

  lemma LifetimeStep(x: Execution, i: nat, k: nat, r: nat, key: (string, string))
    requires |x.states| == |x.events| + 1 && i < k < |x.events| && r in x.states[k].runs && r in x.states[k + 1].runs
    requires ArtifactMoves(x.states[k], x.events[k], x.states[k].runs[r], x.states[k + 1].runs[r], key) && Terminal(x.states[k].runs[r].status)
    requires x.states[k].runs[r].artifacts[key].expires.Some?
    requires x.states[k].runs[r].artifacts[key].deleted <==> SweptBetween(x, i, k, x.states[k].runs[r].artifacts[key].expires.value)
    ensures x.states[k + 1].runs[r].artifacts[key].expires == x.states[k].runs[r].artifacts[key].expires
    ensures x.states[k + 1].runs[r].artifacts[key].deleted <==> SweptBetween(x, i, k + 1, x.states[k].runs[r].artifacts[key].expires.value)
  {
    var due := x.states[k].runs[r].artifacts[key].expires.value;
    assert SweptBetween(x, i, k + 1, due) <==> SweptBetween(x, i, k, due) || (x.events[k].ExpireArtifacts? && due <= x.states[k].now);
  }

  /** Ending a run, or anything after it, adds no artifact. */
  lemma NoneAdded(x: Execution, k: nat, r: nat, key: (string, string))
    requires Valid(x) && k < |x.events| && r in x.states[k].runs && r in x.states[k + 1].runs && key in x.states[k + 1].runs[r].artifacts
    requires ArtifactsMove(x.states[k], x.events[k], r, x.states[k].runs[r], x.states[k + 1].runs[r])
    requires Terminal(x.states[k + 1].runs[r].status)
    ensures key in x.states[k].runs[r].artifacts
    ensures ArtifactMoves(x.states[k], x.events[k], x.states[k].runs[r], x.states[k + 1].runs[r], key)
  {
    assert Step(x, k);
    hide ArtifactMoves, ArtifactsMove, Valid;
    if key !in x.states[k].runs[r].artifacts {
      NewMeansCommit(x.states[k], x.events[k], r, x.states[k].runs[r], x.states[k + 1].runs[r], key);
      assert false;
    }
    KeptMoves(x.states[k], x.events[k], r, x.states[k].runs[r], x.states[k + 1].runs[r], key);
  }

  lemma NewMeansCommit(s: State, e: Event, r: nat, a: RunRow, b: RunRow, key: (string, string))
    requires ArtifactsMove(s, e, r, a, b) && key in b.artifacts && key !in a.artifacts
    ensures e.CommitArtifacts? && e.owner.run == r
  {
    assert (key.0, key.1) == key;
  }

  lemma KeptMoves(s: State, e: Event, r: nat, a: RunRow, b: RunRow, key: (string, string))
    requires ArtifactsMove(s, e, r, a, b) && key in a.artifacts
    ensures ArtifactMoves(s, e, a, b, key)
  {
  }
}
