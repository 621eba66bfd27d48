/**
 Runner and server agree on when a lease is dead. Lease and heartbeat replies carry the expiry
 the server stored; each may be lost, duplicated, reordered or arbitrarily delayed.
 */
module LeaseDeath {
  import opened Tables
  import opened Blocking
  import opened Runs
  import opened RunInvariant
  import opened RunOrder
  import opened Protocol
  import opened Executions

  /** A reply telling a runner that its lease lasts until `expires`. */
  datatype Grant = Grant(lease: nat, expires: Time)

  /**
   The tables, every reply ever sent, and the expiry each runner last adopted for a lease.
   `issued` records which job each lease id was made for, `swept` which ids the sweep ended.
   */
  datatype World = World(s: State, sent: set<Grant>, local: map<nat, Time>, issued: map<nat, (nat, string)>, swept: set<nat>)

  datatype Action = Transact(event: Event) | Receive(grant: Grant)

  ghost predicate Possible(w: World, a: Action) {
    match a
    case Transact(e) => Enabled(w.s, e)
    case Receive(g) => g in w.sent
  }

  ghost function SweptNow(s: State): set<nat> {
    set r, j | r in s.runs && j in ExpiredIn(s.runs[r].jobs, s.now) && j in s.runs[r].jobs && s.runs[r].jobs[j].lease.Some?
      :: s.runs[r].jobs[j].lease.value.id
  }

  ghost function Next(w: World, a: Action): World
    requires Possible(w, a)
  {
    match a
    case Receive(g) => w.(local := w.local[g.lease := g.expires])
    case Transact(e) =>
      var v := w.(s := Apply(w.s, e));
      match e
      case Lease(_, r, j) =>
        v.(sent := w.sent + {Grant(w.s.nextLease, w.s.now + JOB_LEASE_TTL)}, issued := w.issued[w.s.nextLease := (r, j)])
      case Renew(o) => v.(sent := w.sent + {Grant(o.lease, w.s.now + JOB_LEASE_TTL)})
      case Expire => v.(swept := w.swept + SweptNow(w.s))
      case _ => v
  }

  ghost predicate HoldsLease(s: State, r: nat, j: string, lease: nat) {
    JobAt(s, r, j) && Row(s, r, j).status.JobRunning? && Row(s, r, j).lease.Some? && Row(s, r, j).lease.value.id == lease
  }

  ghost predicate Issued(w: World) {
    && (forall l :: l in w.issued ==> l < w.s.nextLease && JobAt(w.s, w.issued[l].0, w.issued[l].1))
    && (forall r: nat, j, l: nat :: HoldsLease(w.s, r, j, l) ==> l in w.issued && w.issued[l] == (r, j))
  }

  /** No reply promises more than the server still grants. */
  ghost predicate GrantOk(w: World, g: Grant) {
    && g.lease in w.issued
    && (forall r: nat, j :: HoldsLease(w.s, r, j, g.lease) ==> g.expires <= Row(w.s, r, j).lease.value.expires)
    && (g.lease in w.swept ==> g.expires <= w.s.now)
  }

  ghost predicate SweptDead(w: World, l: nat) {
    l in w.issued && JobAt(w.s, w.issued[l].0, w.issued[l].1) && !Unfinished(Row(w.s, w.issued[l].0, w.issued[l].1).status)
  }

  ghost predicate WorldOk(w: World) {
    && Inv(w.s) && Issued(w)
    && (forall g :: g in w.sent ==> GrantOk(w, g))
    && (forall l :: l in w.swept ==> SweptDead(w, l))
    && (forall l :: l in w.local ==> Grant(l, w.local[l]) in w.sent)
  }

  // ----- Each action keeps it -----

  /** A lease held after any other transaction was held before it, until no later than now. */
  lemma HeldBefore(s: State, e: Event, r: nat, j: string, l: nat)
    requires Inv(s) && Enabled(s, e) && HoldsLease(Apply(s, e), r, j, l) && !(e.Lease? && e.run == r && e.job == j)
    ensures HoldsLease(s, r, j, l)
    ensures Row(s, r, j).lease.value.expires <= Row(Apply(s, e), r, j).lease.value.expires
  {
    OnlyLeaseStarts(s, e, r, j);
    StepKeeps(s, e);
    hide Inv, Enabled, Apply;
  }

  lemma RowForward(s: State, e: Event, r: nat, j: string)
    requires Inv(s) && Enabled(s, e) && JobAt(s, r, j)
    ensures JobAt(Apply(s, e), r, j)
    ensures !Unfinished(Row(s, r, j).status) ==> Row(Apply(s, e), r, j) == Row(s, r, j)
    ensures s.now <= Apply(s, e).now && s.nextLease <= Apply(s, e).nextLease
  {
    StepKeeps(s, e);
    hide Inv, Enabled, Apply;
  }

  lemma IssuedForward(w: World, e: Event)
    requires Inv(w.s) && Issued(w) && Enabled(w.s, e) && !e.Lease?
    ensures Issued(w.(s := Apply(w.s, e)))
  {
    hide Inv, Enabled, Apply;
    var v := w.(s := Apply(w.s, e));
    forall r: nat, j, l: nat | HoldsLease(v.s, r, j, l) ensures l in w.issued && w.issued[l] == (r, j) {
      HeldBefore(w.s, e, r, j, l);
    }
    forall l | l in w.issued ensures l < v.s.nextLease && JobAt(v.s, w.issued[l].0, w.issued[l].1) {
      RowForward(w.s, e, w.issued[l].0, w.issued[l].1);
    }
  }

  lemma GrantForward(w: World, e: Event, g: Grant)
    requires Inv(w.s) && Issued(w) && Enabled(w.s, e) && !e.Lease? && GrantOk(w, g)
    ensures GrantOk(w.(s := Apply(w.s, e)), g)
  {
    hide Inv, Enabled, Apply;
    var v := w.(s := Apply(w.s, e));
    forall r: nat, j | HoldsLease(v.s, r, j, g.lease) ensures g.expires <= Row(v.s, r, j).lease.value.expires {
      HeldBefore(w.s, e, r, j, g.lease);
    }
    RowForward(w.s, e, w.issued[g.lease].0, w.issued[g.lease].1);
  }

  /** A transaction that grants no lease leaves every reply sent so far honest. */
  lemma QuietKeeps(w: World, e: Event)
    requires WorldOk(w) && Enabled(w.s, e) && !e.Lease?
    ensures WorldOk(w.(s := Apply(w.s, e)))
  {
    hide Inv, Enabled, Apply, Issued, GrantOk;
    var v := w.(s := Apply(w.s, e));
    StepKeeps(w.s, e);
    IssuedForward(w, e);
    forall g | g in w.sent ensures GrantOk(v, g) {
      GrantForward(w, e, g);
    }
    forall l | l in w.swept ensures SweptDead(v, l) {
      assert SweptDead(w, l);
      RowForward(w.s, e, w.issued[l].0, w.issued[l].1);
    }
  }

  /** What a renewal leaves in the row it renews. */
  lemma RenewEffect(s: State, o: Owner)
    requires Owns(s, o)
    ensures HoldsLease(s, o.run, o.job, o.lease)
    ensures HoldsLease(Apply(s, Renew(o)), o.run, o.job, o.lease)
    ensures Row(Apply(s, Renew(o)), o.run, o.job).lease.value.expires == s.now + JOB_LEASE_TTL
  {
    hide Inv;
  }

  /** Sending a reply that promises no more than the row it describes. */
  lemma HonestReplyKeeps(w: World, g: Grant, r: nat, j: string)
    requires WorldOk(w) && HoldsLease(w.s, r, j, g.lease) && g.expires <= Row(w.s, r, j).lease.value.expires
    ensures WorldOk(w.(sent := w.sent + {g}))
  {
    hide Inv;
    var v := w.(sent := w.sent + {g});
    assert w.issued[g.lease] == (r, j);
    assert SweptDead(w, g.lease) ==> g.lease !in w.swept;
    assert GrantOk(v, g);
    forall h | h in v.sent ensures GrantOk(v, h) {
      if h != g { assert GrantOk(w, h); }
    }
  }

  lemma RenewKeepsWorld(w: World, o: Owner, v: World)
    requires Owns(w.s, o) && v == Next(w, Transact(Renew(o)))
    requires WorldOk(w)
    ensures WorldOk(v)
  {
    hide WorldOk, Apply, Inv;
    var mid := w.(s := Apply(w.s, Renew(o)));
    QuietKeeps(w, Renew(o));
    InvOf(w);
    RenewEffect(w.s, o);
    HonestReplyKeeps(mid, Grant(o.lease, w.s.now + JOB_LEASE_TTL), o.run, o.job);
  }

  lemma InvOf(w: World)
    requires WorldOk(w)
    ensures Inv(w.s)
  {
    hide Inv;
  }

  /** What the sweep does to a lease it ends. */
  lemma SweepEffect(s: State, r: nat, j: string)
    requires JobAt(s, r, j) && j in ExpiredIn(s.runs[r].jobs, s.now)
    ensures JobAt(Apply(s, Expire), r, j) && Row(Apply(s, Expire), r, j).status.JobAborted?
  {
    hide Aborted, ExpiredIn;
    AbortedRows(s.runs[r], ExpiredIn(s.runs[r].jobs, s.now), Expiry(s), j);
  }

  /** By the time the sweep ends a lease, every reply about it has run out. */
  lemma SweptHasRunOut(w: World, l: nat, after: State)
    requires Enabled(w.s, Expire) && after == Apply(w.s, Expire)
    requires WorldOk(w) && l in SweptNow(w.s)
    ensures SweptDead(w.(s := after), l)
    ensures forall g :: g in w.sent && g.lease == l ==> g.expires <= w.s.now
  {
    hide Inv, Apply;
    var r, j :| JobAt(w.s, r, j) && j in ExpiredIn(w.s.runs[r].jobs, w.s.now) && Row(w.s, r, j).lease == w.s.runs[r].jobs[j].lease
      && Row(w.s, r, j).lease.Some? && Row(w.s, r, j).lease.value.id == l;
    assert HoldsLease(w.s, r, j, l);
    SweepEffect(w.s, r, j);
    forall g | g in w.sent && g.lease == l ensures g.expires <= w.s.now {
      assert GrantOk(w, g);
    }
  }

  lemma MoreSweptKeeps(w: World, extra: set<nat>)
    requires WorldOk(w)
    requires forall l :: l in extra ==> SweptDead(w, l)
    requires forall g :: g in w.sent && g.lease in extra ==> g.expires <= w.s.now
    ensures WorldOk(w.(swept := w.swept + extra))
  {
    hide Inv;
    var v := w.(swept := w.swept + extra);
    forall g | g in v.sent ensures GrantOk(v, g) {
      assert GrantOk(w, g);
    }
    forall l | l in v.swept ensures SweptDead(v, l) {
      assert SweptDead(w, l);
    }
  }

  lemma SweepKeepsWorld(w: World, v: World)
    requires v == Next(w, Transact(Expire))
    requires WorldOk(w)
    ensures WorldOk(v)
  {
    hide WorldOk, Apply, SweptDead, SweptNow;
    var mid := w.(s := Apply(w.s, Expire));
    QuietKeeps(w, Expire);
    assert mid.s.now == w.s.now by { SweepTakesNoTime(w.s); }
    forall l | l in SweptNow(w.s)
      ensures SweptDead(mid, l) && forall g :: g in w.sent && g.lease == l ==> g.expires <= w.s.now
    {
      SweptHasRunOut(w, l, mid.s);
    }
    MoreSweptKeeps(mid, SweptNow(w.s));
  }

  lemma SweepTakesNoTime(s: State)
    ensures Apply(s, Expire).now == s.now
  {
  }

  /** What a lease transaction leaves behind. */
  lemma LeaseGranted(s: State, runner: nat, r: nat, j: string)
    requires Admits(s, runner, r, j)
    ensures
      var t := Apply(s, Lease(runner, r, j));
      && HoldsLease(t, r, j, s.nextLease) && Row(t, r, j).lease.value.expires == s.now + JOB_LEASE_TTL
      && t.nextLease == s.nextLease + 1 && t.now == s.now
      && JobAt(s, r, j) && Row(s, r, j).status.JobPending?
  {
    hide Inv;
  }

  /** A lease held before was issued earlier, so a fresh id is held by nobody. */
  lemma LeaseKeepsIssued(w: World, runner: nat, r: nat, j: string)
    requires Inv(w.s) && Issued(w) && Admits(w.s, runner, r, j)
    ensures Issued(w.(s := Apply(w.s, Lease(runner, r, j)), issued := w.issued[w.s.nextLease := (r, j)]))
  {
    hide Inv, Apply, Admits;
    var e := Lease(runner, r, j);
    var v := w.(s := Apply(w.s, e), issued := w.issued[w.s.nextLease := (r, j)]);
    LeaseGranted(w.s, runner, r, j);
    forall r': nat, j', l: nat | HoldsLease(v.s, r', j', l) ensures l in v.issued && v.issued[l] == (r', j') {
      if (r', j') != (r, j) {
        HeldBefore(w.s, e, r', j', l);
        assert l in w.issued;
      }
    }
    forall l | l in v.issued ensures l < v.s.nextLease && JobAt(v.s, v.issued[l].0, v.issued[l].1) {
      if l in w.issued { RowForward(w.s, e, w.issued[l].0, w.issued[l].1); }
    }
  }

  lemma LeaseKeepsGrant(w: World, runner: nat, r: nat, j: string, g: Grant, v: World)
    requires Admits(w.s, runner, r, j) && v == w.(s := Apply(w.s, Lease(runner, r, j)), issued := w.issued[w.s.nextLease := (r, j)])
    requires Inv(w.s) && Issued(w) && GrantOk(w, g)
    ensures GrantOk(v, g)
  {
    hide Inv, Apply, Admits;
    var e := Lease(runner, r, j);
    LeaseGranted(w.s, runner, r, j);
    forall r': nat, j' | HoldsLease(v.s, r', j', g.lease) ensures g.expires <= Row(v.s, r', j').lease.value.expires {
      if (r', j') != (r, j) { HeldBefore(w.s, e, r', j', g.lease); }
    }
  }

  lemma LeaseKeepsSwept(w: World, runner: nat, r: nat, j: string, l: nat, v: World)
    requires Admits(w.s, runner, r, j) && v == w.(s := Apply(w.s, Lease(runner, r, j)), issued := w.issued[w.s.nextLease := (r, j)])
    requires Inv(w.s) && Issued(w) && SweptDead(w, l)
    ensures SweptDead(v, l)
  {
    hide Inv, Apply, Admits;
    RowForward(w.s, Lease(runner, r, j), w.issued[l].0, w.issued[l].1);
  }

  lemma LeaseKeepsWorld(w: World, runner: nat, r: nat, j: string, v: World)
    requires Admits(w.s, runner, r, j) && v == Next(w, Transact(Lease(runner, r, j)))
    requires WorldOk(w)
    ensures WorldOk(v)
  {
    hide Inv, Apply, Admits, Issued, GrantOk, SweptDead;
    var e := Lease(runner, r, j);
    var mid := w.(s := Apply(w.s, e), issued := w.issued[w.s.nextLease := (r, j)]);
    StepKeeps(w.s, e);
    LeaseKeepsIssued(w, runner, r, j);
    forall g | g in w.sent ensures GrantOk(mid, g) { LeaseKeepsGrant(w, runner, r, j, g, mid); }
    forall l | l in w.swept ensures SweptDead(mid, l) { LeaseKeepsSwept(w, runner, r, j, l, mid); }
    LeaseGranted(w.s, runner, r, j);
    HonestReplyKeeps(mid, Grant(w.s.nextLease, w.s.now + JOB_LEASE_TTL), r, j);
  }

  lemma ReceiveKeeps(w: World, g: Grant, v: World)
    requires g in w.sent && v == Next(w, Receive(g))
    requires WorldOk(w)
    ensures WorldOk(v)
  {
    hide Inv;
    forall h | h in v.sent ensures GrantOk(v, h) {
      assert GrantOk(w, h);
    }
    forall l | l in v.swept ensures SweptDead(v, l) {
      assert SweptDead(w, l);
    }
  }

  lemma ActionKeeps(w: World, a: Action)
    requires Possible(w, a)
    requires WorldOk(w)
    ensures WorldOk(Next(w, a)) && w.swept <= Next(w, a).swept && w.s.now <= Next(w, a).s.now
  {
    hide WorldOk, Apply;
    match a
    case Receive(g) => ReceiveKeeps(w, g, Next(w, a));
    case Transact(e) =>
      TimePasses(w.s, e);
      if e.Lease? { LeaseKeepsWorld(w, e.runner, e.run, e.job, Next(w, a)); }
      else if e.Renew? { RenewKeepsWorld(w, e.owner, Next(w, a)); }
      else if e.Expire? { SweepKeepsWorld(w, Next(w, a)); }
      else { QuietKeeps(w, e); }
  }

  lemma TimePasses(s: State, e: Event)
    requires Enabled(s, e)
    ensures s.now <= Apply(s, e).now
  {
  }

  // ----- Whole histories -----

  datatype History = History(worlds: seq<World>, actions: seq<Action>)

  ghost predicate Happens(h: History) {
    && |h.worlds| == |h.actions| + 1
    && h.worlds[0] == World(Initial(h.worlds[0].s.retention), {}, map[], map[], {})
    && (forall i :: 0 <= i < |h.actions| ==> Occurs(h, i))
  }

  ghost predicate Occurs(h: History, i: nat)
    requires i < |h.actions| && |h.worlds| == |h.actions| + 1
  {
    Possible(h.worlds[i], h.actions[i]) && h.worlds[i + 1] == Next(h.worlds[i], h.actions[i])
  }

  lemma StartOk(h: History)
    requires Happens(h)
    ensures WorldOk(h.worlds[0])
  {
  }

  lemma StepOk(h: History, k: nat)
    requires Happens(h) && k < |h.actions| && WorldOk(h.worlds[k])
    ensures WorldOk(h.worlds[k + 1]) && h.worlds[k].swept <= h.worlds[k + 1].swept
  {
    hide WorldOk, Possible, Next;
    assert Occurs(h, k);
    ActionKeeps(h.worlds[k], h.actions[k]);
  }

  lemma {:induction false} HistoryOk(h: History, k: nat)
    requires Happens(h) && k < |h.worlds|
    ensures WorldOk(h.worlds[k])
  {
    hide WorldOk, Occurs;
    if k == 0 {
      StartOk(h);
    } else {
      HistoryOk(h, k - 1);
      StepOk(h, k - 1);
    }
  }

  lemma {:induction false} SweptForever(h: History, i: nat, k: nat)
    requires Happens(h) && i <= k < |h.worlds|
    ensures h.worlds[i].swept <= h.worlds[k].swept
    decreases k
  {
    hide WorldOk, Occurs;
    if i < k {
      SweptForever(h, i, k - 1);
      HistoryOk(h, k - 1);
      StepOk(h, k - 1);
    }
  }

  lemma LocalIsGranted(w: World, l: nat)
    requires WorldOk(w) && l in w.local
    ensures GrantOk(w, Grant(l, w.local[l]))
  {
    hide Inv, Issued, GrantOk, SweptDead;
  }

  lemma HeldOutlastsLocal(w: World, r: nat, j: string, l: nat)
    requires WorldOk(w) && l in w.local && HoldsLease(w.s, r, j, l)
    ensures w.local[l] <= Row(w.s, r, j).lease.value.expires
  {
    LocalIsGranted(w, l);
    hide WorldOk, HoldsLease;
  }

  lemma SweptIsPast(w: World, l: nat)
    requires WorldOk(w) && l in w.swept && l in w.local
    ensures w.local[l] <= w.s.now
  {
    hide WorldOk, HoldsLease;
    LocalIsGranted(w, l);
  }

  /** A runner never believes in a lease for longer than the server does. */
  lemma RunnerNeverOutlivesLease(h: History, k: nat, r: nat, j: string, l: nat)
    requires Happens(h) && k < |h.worlds| && l in h.worlds[k].local && HoldsLease(h.worlds[k].s, r, j, l)
    ensures h.worlds[k].local[l] <= Row(h.worlds[k].s, r, j).lease.value.expires
  {
    hide WorldOk, Occurs;
    HistoryOk(h, k);
    HeldOutlastsLocal(h.worlds[k], r, j, l);
  }

  /** The sweep records the lease it ends, which was held until now at the latest. */
  lemma SweepRecords(w: World, r: nat, j: string, v: World)
    requires Possible(w, Transact(Expire)) && v == Next(w, Transact(Expire))
    requires JobAt(w.s, r, j) && j in ExpiredIn(w.s.runs[r].jobs, w.s.now)
    ensures
      var h := Row(w.s, r, j).lease;
      h.Some? && HoldsLease(w.s, r, j, h.value.id) && h.value.expires <= w.s.now && h.value.id in v.swept
  {
    hide Apply;
    assert Row(w.s, r, j).lease.value.id in SweptNow(w.s);
  }

  /** Whenever the sweep aborts a job, its runner's own deadline has passed, and no late reply revives it. */
  lemma SweepFindsRunnerExpired(h: History, i: nat, k: nat, r: nat, j: string)
    requires Happens(h) && i < k < |h.worlds| && h.actions[i] == Transact(Expire)
    requires JobAt(h.worlds[i].s, r, j) && j in ExpiredIn(h.worlds[i].s.runs[r].jobs, h.worlds[i].s.now)
    ensures
      var l := Row(h.worlds[i].s, r, j).lease.value.id;
      && (l in h.worlds[i].local ==> h.worlds[i].local[l] <= h.worlds[i].s.now)
      && (l in h.worlds[k].local ==> h.worlds[k].local[l] <= h.worlds[k].s.now)
  {
    hide WorldOk, Possible, Next, HoldsLease, ExpiredIn;
    var w, v := h.worlds[i], h.worlds[k];
    assert Occurs(h, i);
    SweepRecords(w, r, j, h.worlds[i + 1]);
    var l := Row(w.s, r, j).lease.value.id;
    SweptForever(h, i + 1, k);
    HistoryOk(h, i);
    HistoryOk(h, k);
    if l in w.local { HeldOutlastsLocal(w, r, j, l); }
    if l in v.local { SweptIsPast(v, l); }
  }

  /** The transactions that answer a runner with an expiry, and the job it is for. */
  ghost predicate Answers(e: Event, r: nat, j: string) {
    (e.Lease? && e.run == r && e.job == j) || (e.Renew? && e.owner.run == r && e.owner.job == j)
  }

  /** The reply to a lease or a renewal says exactly what is stored. */
  lemma ReplyTellsStored(w: World, e: Event, r: nat, j: string) returns (g: Grant)
    requires Possible(w, Transact(e)) && Answers(e, r, j)
    ensures
      var v := Next(w, Transact(e));
      v.sent == w.sent + {g} && HoldsLease(v.s, r, j, g.lease) && g.expires == Row(v.s, r, j).lease.value.expires == w.s.now + JOB_LEASE_TTL
  {
    hide Free, RunningIn;
    g := Grant(if e.Lease? then w.s.nextLease else e.owner.lease, w.s.now + JOB_LEASE_TTL);
    if e.Renew? { RenewEffect(w.s, e.owner); }
  }

  /** A runner that gets its reply before anything else happens and the server hold the same deadline. */
  lemma PromptRunnerAgrees(h: History, i: nat, r: nat, j: string) returns (g: Grant)
    requires Happens(h) && i + 1 < |h.actions| && h.actions[i].Transact? && Answers(h.actions[i].event, r, j)
    ensures h.worlds[i + 1].sent == h.worlds[i].sent + {g}
    ensures h.actions[i + 1] == Receive(g) ==>
      var v := h.worlds[i + 2];
      g.lease in v.local && HoldsLease(v.s, r, j, g.lease) && v.local[g.lease] == Row(v.s, r, j).lease.value.expires
  {
    assert Occurs(h, i) && Occurs(h, i + 1);
    hide Possible, HoldsLease, Answers, Apply;
    g := ReplyTellsStored(h.worlds[i], h.actions[i].event, r, j);
  }
}
