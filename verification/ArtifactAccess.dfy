/** A leaseholder's view of the artifacts its declaration downloads. */
module ArtifactAccess {
  import opened Dag
  import opened Tables
  import opened Blocking
  import opened Runs
  import opened RunInvariant
  import opened RunOrder
  import opened Protocol
  import opened Executions
  import opened Provenance
  import opened ArtifactLife
  import opened LeaseRights

  /** `GetArtifactForLease`: the artifact of a passed direct dependency, for a live leaseholder of a running run. */
  function GetArtifactForLease(s: State, o: Owner, producer: string, name: string): Option<Meta> {
    if && Owns(s, o) && s.runs[o.run].status.RunRunning?
       && (producer, name) in s.runs[o.run].artifacts && !s.runs[o.run].artifacts[(producer, name)].deleted
       && producer in s.runs[o.run].jobs && s.runs[o.run].jobs[producer].status.JobPassed?
       && o.job in s.runs[o.run].decl && producer in s.runs[o.run].decl[o.job].needs
    then Some(s.runs[o.run].artifacts[(producer, name)].meta)
    else None
  }

  lemma LeaseholderIsServed(s: State, o: Owner, d: Download)
    requires Inv(s) && Owns(s, o) && o.job in s.runs[o.run].decl && d in s.runs[o.run].decl[o.job].downloads
    ensures GetArtifactForLease(s, o, d.from, d.name).Some?
  {
    hide LeasesIssued, Settled, BlockedHasCause, CanceledByRequest;
    var run := s.runs[o.run];
    assert RunOk(run);
    RunningRun(run, o.job);
    assert run.jobs[o.job].generation > 0;
    assert d.from in run.decl[o.job].needs && Declares(run.decl[d.from], d.name);
    assert run.jobs[d.from].status.JobPassed?;
    assert (d.from, d.name) in run.artifacts;
  }

  /** While a job holds a live lease, every download its declaration lists can be fetched, and each
      fetch during the lease returns the same metadata. */
  lemma DownloadsAvailable(x: Execution, i: nat, k: nat, o: Owner, d: Download)
    requires Valid(x) && i <= k < |x.states| && Owns(x.states[i], o) && Owns(x.states[k], o)
    requires o.job in x.states[i].runs[o.run].decl && d in x.states[i].runs[o.run].decl[o.job].downloads
    ensures GetArtifactForLease(x.states[i], o, d.from, d.name).Some?
    ensures GetArtifactForLease(x.states[k], o, d.from, d.name) == GetArtifactForLease(x.states[i], o, d.from, d.name)
  {
    hide Inv, Step, StateLater, Owns, GetArtifactForLease;
    ReachableInv(x, i);
    ReachableInv(x, k);
    ReachableLater(x, i, k);
    LeaseholderIsServed(x.states[i], o, d);
    SameDownload(x.states[i], x.states[k], o, d);
    LeaseholderIsServed(x.states[k], o, d);
  }

  /** Declarations never change, and a served artifact keeps its metadata. */
  lemma SameDownload(s: State, t: State, o: Owner, d: Download)
    requires StateLater(s, t) && Owns(s, o) && Owns(t, o) && GetArtifactForLease(s, o, d.from, d.name).Some?
    ensures t.runs[o.run].decl == s.runs[o.run].decl
    ensures GetArtifactForLease(t, o, d.from, d.name).Some? ==>
      GetArtifactForLease(t, o, d.from, d.name) == GetArtifactForLease(s, o, d.from, d.name)
  {
    hide Holds, JobsLater;
  }

  /** Who is served what: exactly the live leaseholder of a job, and exactly the declared artifacts of the jobs it needs directly. All the
      other conditions of the lookup hold by then. */
  lemma ServedIff(s: State, o: Owner, producer: string, name: string)
    requires Inv(s)
    ensures GetArtifactForLease(s, o, producer, name).Some? <==>
      && Owns(s, o) && o.job in s.runs[o.run].decl && producer in s.runs[o.run].decl[o.job].needs
      && producer in s.runs[o.run].decl && Declares(s.runs[o.run].decl[producer], name)
  {
    hide Inv, Declares, Holds;
    if o.run in s.runs {
      if Owns(s, o) && o.job in s.runs[o.run].decl && producer in s.runs[o.run].decl[o.job].needs
         && producer in s.runs[o.run].decl && Declares(s.runs[o.run].decl[producer], name) {
        NeededIsServed(s, o, producer, name);
      }
      if (producer, name) in s.runs[o.run].artifacts {
        StoredIsDeclared(s, o.run, producer, name);
      }
    }
  }

  lemma StoredIsDeclared(s: State, r: nat, p: string, n: string)
    requires Inv(s) && r in s.runs && (p, n) in s.runs[r].artifacts
    ensures p in s.runs[r].decl && Declares(s.runs[r].decl[p], n)
  {
    hide LeasesIssued, Settled, JobsOk, Shape, StatusOk, ArtifactsPresent, ArtifactsLive, Declares;
    assert ArtifactsOwned(s.runs[r]);
  }

  lemma NeededIsServed(s: State, o: Owner, p: string, n: string)
    requires Inv(s) && Owns(s, o) && o.job in s.runs[o.run].decl && p in s.runs[o.run].decl[o.job].needs
    requires p in s.runs[o.run].decl && Declares(s.runs[o.run].decl[p], n)
    ensures GetArtifactForLease(s, o, p, n).Some?
  {
    hide LeasesIssued, Settled, BlockedHasCause, CanceledByRequest;
    var run := s.runs[o.run];
    assert RunOk(run);
    RunningRun(run, o.job);
    assert run.jobs[o.job].generation > 0;
    assert run.jobs[p].status.JobPassed?;
    assert (p, n) in run.artifacts;
  }

  /** Nobody else is served. Whoever gets an artifact was given the lease it names, which has been neither lost nor reported and has not
      run out since it was last given or renewed; the submission lists the producer among the job's needs; the producer reported PASSED;
      and what is served is what the producer's own leaseholder committed under that name. */
  lemma ServedOnlyToLeaseholder(x: Execution, k: nat, o: Owner, producer: string, name: string)
    returns (h: nat, i: nat, g: nat, l: nat, c: nat)
    requires Valid(x) && k < |x.states| && GetArtifactForLease(x.states[k], o, producer, name).Some?
    ensures h < k && x.events[h].Submit? && x.events[h].run == o.run && o.job in x.events[h].decl && producer in x.events[h].decl[o.job].needs
    ensures i < k && x.events[i] == Lease(o.runner, o.run, o.job) && o.lease == x.states[i].nextLease && o.generation == 1
    ensures LastGrant(x, g, k, o.run, o.job) && x.states[k].now < x.states[g].now + JOB_LEASE_TTL
    ensures !WasLost(x, k, o.run, o.job) && forall st :: Reportable(st) ==> !WasReported(x, k, o.run, o.job, st)
    ensures WasReported(x, k, o.run, producer, JobPassed)
    ensures l < c < k && CommitsArtifact(x.events[c], o.run, producer, name)
    ensures x.events[l] == Lease(x.events[c].owner.runner, o.run, producer) && x.events[c].owner.lease == x.states[l].nextLease
    ensures GetArtifactForLease(x.states[k], o, producer, name) == Some(x.events[c].items[name])
  {
    hide Step, MadeFrom, Told, LastGrant, WasLost, WasReported;
    h := RunOrigin(x, k, o.run);
    DeclFrom(x.states[k].runs[o.run], x.events[h].decl, x.events[h].maxParallel, x.states[h].now);
    i := OwnerOrigin(x, k, o);
    g := LeaseFromHistory(x, k, o.run, o.job);
    StillRunning(x, k, o.run, o.job);
    PassedIffReported(x, k, o.run, producer);
    c := ArtifactOrigin(x, k, o.run, producer, name);
    l := OwnerOrigin(x, c, x.events[c].owner);
  }
}
