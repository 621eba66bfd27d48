/**
 Kahn's algorithm with a sorted ready list, as the pipeline compiler runs it.
 Ranging over a Go map is modelled by taking the remaining keys in arbitrary order,
 so every contract below holds whatever that order is.
 */
module Compiler {
  import opened Ordering
  import opened Dag

  datatype Graph = Graph(needs: Needs, dependents: map<string, seq<string>>, order: seq<string>)
  datatype Result = Compiled(graph: Graph) | CycleError(jobs: seq<string>)

  /** Lexicographic order on lists of names. */
  ghost predicate ListLeq(a: seq<string>, b: seq<string>) {
    || a <= b
    || (exists k :: 0 <= k < |a| && k < |b| && a[..k] == b[..k] && a[k] != b[k] && Leq(a[k], b[k]))
  }

  /** Each entry is the least job available when it was listed. */
  ghost predicate Greedy(g: Needs, order: seq<string>) {
    forall k, j :: 0 <= k < |order| && Available(g, order[..k], j) ==> Leq(order[k], j)
  }

  ghost function Divergence(a: seq<string>, b: seq<string>): (k: nat)
    ensures k <= |a| && k <= |b| && a[..k] == b[..k]
    ensures k < |a| && k < |b| ==> a[k] != b[k]
  {
    if a == [] || b == [] || a[0] != b[0] then 0
    else
      var k := 1 + Divergence(a[1..], b[1..]);
      assert a[..k] == [a[0]] + a[1..][..k - 1] && b[..k] == [b[0]] + b[1..][..k - 1];
      k
  }

  /** A greedy order is below every other topological order of the same graph. */
  lemma GreedyIsLeast(g: Needs, order: seq<string>, other: seq<string>)
    requires Topological(g, order) && Greedy(g, order) && Topological(g, other)
    ensures ListLeq(order, other)
  {
    var k := Divergence(order, other);
    if k == |order| {
      assert order == other[..k];
    } else if k == |other| {
      assert false;
    } else {
      assert Available(g, order[..k], other[k]);
    }
  }

  /** How many entries of `ns` are not yet in `done`: the in-degree Kahn's algorithm counts down. */
  ghost function Missing(ns: seq<string>, done: seq<string>): nat {
    if ns == [] then 0 else (if ns[0] in done then 0 else 1) + Missing(ns[1..], done)
  }

  lemma {:induction false} MissingZero(ns: seq<string>, done: seq<string>)
    ensures Missing(ns, done) == 0 <==> forall d :: d in ns ==> d in done
    ensures Missing(ns, done) <= |ns| && (done == [] ==> Missing(ns, done) == |ns|)
  {
    if ns != [] {
      MissingZero(ns[1..], done);
      assert ns == [ns[0]] + ns[1..];
    }
  }

  function Occurrences(s: seq<string>, x: string): nat {
    if s == [] then 0 else (if s[|s| - 1] == x then 1 else 0) + Occurrences(s[..|s| - 1], x)
  }

  lemma {:induction false} OccursWhenMember(s: seq<string>, x: string)
    ensures Occurrences(s, x) > 0 <==> x in s
  {
    if s != [] {
      OccursWhenMember(s[..|s| - 1], x);
      assert s == s[..|s| - 1] + [s[|s| - 1]];
    }
  }

  lemma {:induction false} OccurrencesAsMultiset(s: seq<string>, x: string)
    ensures Occurrences(s, x) == multiset(s)[x]
  {
    if s != [] {
      OccurrencesAsMultiset(s[..|s| - 1], x);
      assert s == s[..|s| - 1] + [s[|s| - 1]];
    }
  }

  lemma OccurrencesPush(s: seq<string>, x: string, y: string)
    ensures Occurrences(s + [y], x) == Occurrences(s, x) + if x == y then 1 else 0
  {
    assert (s + [y])[..|s|] == s;
  }

  lemma {:induction false} MissingPush(ns: seq<string>, n: string, done: seq<string>)
    ensures Missing(ns + [n], done) == Missing(ns, done) + if n in done then 0 else 1
  {
    if ns != [] {
      MissingPush(ns[1..], n, done);
      assert (ns + [n])[1..] == ns[1..] + [n];
    }
  }

  lemma {:induction false} MissingStep(ns: seq<string>, done: seq<string>, x: string)
    requires x !in done
    ensures Missing(ns, done + [x]) == Missing(ns, done) - Occurrences(ns, x)
  {
    if ns != [] {
      var front, n := ns[..|ns| - 1], ns[|ns| - 1];
      MissingStep(front, done, x);
      assert ns == front + [n];
      MissingPush(front, n, done);
      MissingPush(front, n, done + [x]);
    }
  }

  /** `dependents` holds, for each job, one entry for each time another job needs it. */
  ghost predicate Inverse(needs: Needs, dependents: map<string, seq<string>>) {
    && dependents.Keys == needs.Keys
    && (forall d, j :: d in needs && j in needs ==> Occurrences(dependents[d], j) == Occurrences(needs[j], d))
    && (forall d, j :: d in needs && j !in needs ==> Occurrences(dependents[d], j) == 0)
  }

  ghost predicate Linked(needs: Needs, dependents: map<string, seq<string>>) {
    Inverse(needs, dependents) && forall d :: d in needs ==> Sorted(dependents[d])
  }

  /** The jobs `done` have been entered under everything they need, and no other job has. */
  ghost predicate Entered(needs: Needs, dependents: map<string, seq<string>>, done: set<string>) {
    && dependents.Keys == needs.Keys
    && (forall d, j :: d in needs ==>
          Occurrences(dependents[d], j) == if j in done && j in needs then Occurrences(needs[j], d) else 0)
  }

  lemma EnterCounts(m: map<string, seq<string>>, d: string, name: string)
    requires d in m
    ensures forall e, j :: e in m ==>
      Occurrences(m[d := m[d] + [name]][e], j) == Occurrences(m[e], j) + if e == d && j == name then 1 else 0
  {
    forall j ensures Occurrences(m[d] + [name], j) == Occurrences(m[d], j) + if j == name then 1 else 0 {
      OccurrencesPush(m[d], j, name);
    }
  }

  lemma PrefixCounts(ns: seq<string>, i: nat)
    requires i < |ns|
    ensures forall d :: Occurrences(ns[..i + 1], d) == Occurrences(ns[..i], d) + if ns[i] == d then 1 else 0
  {
    assert ns[..i + 1] == ns[..i] + [ns[i]];
    forall d ensures Occurrences(ns[..i + 1], d) == Occurrences(ns[..i], d) + if ns[i] == d then 1 else 0 {
      OccurrencesPush(ns[..i], d, ns[i]);
    }
  }

  lemma NoneInEmpty(s: seq<string>)
    requires s == []
    ensures forall x :: Occurrences(s, x) == 0
  {
  }

  method AddDependent(needs: Needs, before: map<string, seq<string>>, ghost done: set<string>, name: string)
    returns (after: map<string, seq<string>>)
    requires Closed(needs) && name in needs && name !in done && Entered(needs, before, done)
    ensures Entered(needs, after, done + {name})
  {
    hide Occurrences;
    after := before;
    var ns := needs[name];
    NoneInEmpty(ns[..0]);
    for i := 0 to |ns|
      invariant after.Keys == needs.Keys
      invariant forall d, j :: d in needs ==>
        Occurrences(after[d], j) == Occurrences(before[d], j) + if j == name then Occurrences(ns[..i], d) else 0
    {
      PrefixCounts(ns, i);
      EnterCounts(after, ns[i], name);
      after := after[ns[i] := after[ns[i]] + [name]];
    }
    assert ns[..|ns|] == ns;
  }

  lemma SortingKeepsInverse(needs: Needs, listed: map<string, seq<string>>, sorted: map<string, seq<string>>)
    requires Entered(needs, listed, needs.Keys) && sorted.Keys == listed.Keys
    requires forall d :: d in listed ==> multiset(sorted[d]) == multiset(listed[d])
    ensures Inverse(needs, sorted)
  {
    hide Occurrences;
    forall d, j | d in needs ensures Occurrences(sorted[d], j) == Occurrences(listed[d], j) {
      OccurrencesAsMultiset(sorted[d], j);
      OccurrencesAsMultiset(listed[d], j);
    }
  }

  method BuildDependents(needs: Needs) returns (dependents: map<string, seq<string>>)
    requires Closed(needs)
    ensures Linked(needs, dependents)
  {
    hide Occurrences, Closed, Inverse;
    var listed: map<string, seq<string>> := map j | j in needs :: [];
    NoneInEmpty([]);
    var todo := needs.Keys;
    while todo != {}
      invariant todo <= needs.Keys && Entered(needs, listed, needs.Keys - todo)
    {
      var name :| name in todo;
      listed := AddDependent(needs, listed, needs.Keys - todo, name);
      assert needs.Keys - (todo - {name}) == needs.Keys - todo + {name};
      todo := todo - {name};
    }
    assert needs.Keys - todo == needs.Keys;
    dependents := map d | d in listed :: Sort(listed[d]);
    SortingKeepsInverse(needs, listed, dependents);
  }

  /** The in-degrees once `order` has been listed. */
  ghost predicate Counted(jobs: Needs, order: seq<string>, indegree: map<string, int>) {
    indegree.Keys == jobs.Keys && forall j :: j in jobs ==> indegree[j] == Missing(jobs[j], order)
  }

  /** The ready list once `order` has been listed. */
  ghost predicate Ready(jobs: Needs, order: seq<string>, ready: seq<string>) {
    Sorted(ready) && Distinct(ready) && forall j :: j in ready <==> Available(jobs, order, j)
  }

  lemma {:induction false} OccurrencesOfPrefix(s: seq<string>, i: nat, x: string)
    requires i <= |s|
    ensures Occurrences(s[..i], x) <= Occurrences(s, x)
  {
    if i < |s| {
      assert s[..|s| - 1][..i] == s[..i];
      OccurrencesOfPrefix(s[..|s| - 1], i, x);
    } else {
      assert s[..i] == s;
    }
  }

  /** While `name`'s dependents are being counted down, the next one is not on the ready list
      and still has an uncounted need. */
  lemma NextDependent(jobs: Needs, order: seq<string>, name: string, deps: seq<string>, i: nat)
    requires Available(jobs, order, name) && i < |deps|
    requires forall j :: j in jobs ==> Occurrences(deps, j) == Occurrences(jobs[j], name)
    requires deps[i] in jobs
    ensures !Available(jobs, order, deps[i])
    ensures Missing(jobs[deps[i]], order) >= Occurrences(deps[..i], deps[i]) + 1
  {
    var d := deps[i];
    PrefixCounts(deps, i);
    OccurrencesOfPrefix(deps, i + 1, d);
    OccursWhenMember(jobs[d], name);
    MissingStep(jobs[d], order, name);
  }

  /** In-degrees and ready list after `name` was taken and the first `i` of its dependents counted down. */
  ghost predicate Midway(jobs: Needs, order: seq<string>, name: string, deps: seq<string>, i: nat,
                         indegree: map<string, int>, ready: seq<string>)
    requires i <= |deps|
  {
    && indegree.Keys == jobs.Keys
    && (forall j :: j in jobs ==> indegree[j] == Missing(jobs[j], order) - Occurrences(deps[..i], j))
    && Sorted(ready) && Distinct(ready)
    && (forall j :: j in ready <==>
          (Available(jobs, order, j) && j != name) || (j in deps[..i] && j in jobs && indegree[j] == 0))
  }

  lemma ReadyPush(ready: seq<string>, d: string)
    requires Distinct(ready) && d !in ready
    ensures Sorted(Sort(ready + [d])) && Distinct(Sort(ready + [d]))
    ensures forall x :: x in Sort(ready + [d]) <==> x in ready || x == d
  {
    SortDistinct(ready + [d]);
    assert forall x :: x in ready + [d] <==> x in ready || x == d;
  }

  lemma CountDown(jobs: Needs, order: seq<string>, name: string, deps: seq<string>, i: nat,
                  indegree: map<string, int>, ready: seq<string>)
    requires Available(jobs, order, name) && i < |deps| && deps[i] in jobs
    requires forall j :: j in jobs ==> Occurrences(deps, j) == Occurrences(jobs[j], name)
    requires Midway(jobs, order, name, deps, i, indegree, ready)
    ensures
      var d := deps[i];
      var n := indegree[d] - 1;
      Midway(jobs, order, name, deps, i + 1, indegree[d := n], if n == 0 then Sort(ready + [d]) else ready)
  {
    hide Occurrences, Missing, Sorted, Distinct, Available, Sort;
    var d := deps[i];
    var n := indegree[d] - 1;
    NextDependent(jobs, order, name, deps, i);
    assert d !in ready;
    PrefixCounts(deps, i);
    assert deps[..i + 1] == deps[..i] + [d];
    if n == 0 {
      ReadyPush(ready, d);
    }
  }

  method Release(jobs: Needs, ghost order: seq<string>, ghost name: string, deps: seq<string>,
                 indegree0: map<string, int>, ready0: seq<string>)
    returns (indegree: map<string, int>, ready: seq<string>)
    requires Available(jobs, order, name)
    requires forall j :: j in jobs ==> Occurrences(deps, j) == Occurrences(jobs[j], name)
    requires forall j :: j in deps ==> j in jobs
    requires Midway(jobs, order, name, deps, 0, indegree0, ready0)
    ensures Midway(jobs, order, name, deps, |deps|, indegree, ready)
  {
    hide Occurrences, Missing, Sorted, Distinct, Available;
    indegree, ready := indegree0, ready0;
    for i := 0 to |deps|
      invariant Midway(jobs, order, name, deps, i, indegree, ready)
    {
      var d := deps[i];
      CountDown(jobs, order, name, deps, i, indegree, ready);
      indegree := indegree[d := indegree[d] - 1];
      if indegree[d] == 0 {
        ready := Sort(ready + [d]);
      }
    }
  }

  /** Counting down `name`'s dependents brings in-degrees and ready list up to date. */
  lemma Released(jobs: Needs, order: seq<string>, name: string, deps: seq<string>, indegree: map<string, int>, ready: seq<string>)
    requires Ordered(jobs, order) && Available(jobs, order, name)
    requires forall j :: j in jobs ==> Occurrences(deps, j) == Occurrences(jobs[j], name)
    requires Midway(jobs, order, name, deps, |deps|, indegree, ready)
    ensures Counted(jobs, order + [name], indegree) && Ready(jobs, order + [name], ready)
  {
    hide Occurrences, Missing, Sorted, Distinct;
    assert deps[..|deps|] == deps;
    forall j | j in jobs ensures indegree[j] == Missing(jobs[j], order + [name]) {
      MissingStep(jobs[j], order, name);
    }
    forall j ensures j in ready <==> Available(jobs, order + [name], j) {
      if j in jobs {
        MissingZero(jobs[j], order + [name]);
        OccursWhenMember(deps, j);
        OccursWhenMember(jobs[j], name);
      }
    }
  }

  lemma OrderedExtends(jobs: Needs, order: seq<string>, name: string)
    requires Ordered(jobs, order) && Greedy(jobs, order) && Available(jobs, order, name)
    requires forall j :: Available(jobs, order, j) ==> Leq(name, j)
    ensures Ordered(jobs, order + [name]) && Greedy(jobs, order + [name])
  {
    var longer := order + [name];
    forall k | 0 <= k < |longer|
      ensures longer[..k] == order[..k]
    {
    }
  }

  /** Taking the head of the ready list leaves the starting point for counting down. */
  lemma TakeFirst(jobs: Needs, order: seq<string>, deps: seq<string>, indegree: map<string, int>, ready: seq<string>)
    requires ready != [] && Counted(jobs, order, indegree) && Ready(jobs, order, ready)
    ensures Available(jobs, order, ready[0])
    ensures forall j :: Available(jobs, order, j) ==> Leq(ready[0], j)
    ensures Midway(jobs, order, ready[0], deps, 0, indegree, ready[1..])
  {
    var name := ready[0];
    assert name in ready;
    assert ready == [name] + ready[1..];
    forall j | Available(jobs, order, j) ensures Leq(name, j) {
      assert j in ready;
      LeqReflexive(name);
    }
  }

  lemma InverseAt(jobs: Needs, dependents: map<string, seq<string>>, name: string)
    requires Inverse(jobs, dependents) && name in jobs
    ensures forall j :: j in jobs ==> Occurrences(dependents[name], j) == Occurrences(jobs[j], name)
    ensures forall j :: j in dependents[name] ==> j in jobs
  {
    forall j | j in dependents[name] ensures j in jobs {
      OccursWhenMember(dependents[name], j);
    }
  }

  method List(jobs: Needs, dependents: map<string, seq<string>>)
    returns (order: seq<string>, indegree: map<string, int>)
    requires Linked(jobs, dependents)
    ensures Ordered(jobs, order) && Greedy(jobs, order) && Counted(jobs, order, indegree)
    ensures indegree.Keys == jobs.Keys && forall j :: !Available(jobs, order, j)
  {
    hide Occurrences, Missing, Sorted, Distinct, Leq;
    order := [];
    var ready;
    indegree, ready := Initial(jobs);
    while ready != []
      invariant Ordered(jobs, order) && Greedy(jobs, order)
      invariant Counted(jobs, order, indegree) && Ready(jobs, order, ready)
      invariant |order| <= |jobs|
      decreases |jobs| - |order|
    {
      var name := ready[0];
      assert name in ready;
      TakeFirst(jobs, order, dependents[name], indegree, ready);
      InverseAt(jobs, dependents, name);
      indegree, ready := Release(jobs, order, name, dependents[name], indegree, ready[1..]);
      Released(jobs, order, name, dependents[name], indegree, ready);
      OrderedExtends(jobs, order, name);
      order := order + [name];
      ListedAll(jobs, order);
    }
  }

  method Initial(jobs: Needs) returns (indegree: map<string, int>, ready: seq<string>)
    ensures Counted(jobs, [], indegree) && Ready(jobs, [], ready)
  {
    indegree, ready := map[], [];
    var todo := jobs.Keys;
    while todo != {}
      invariant todo <= jobs.Keys && indegree.Keys == jobs.Keys - todo
      invariant forall j :: j in indegree ==> indegree[j] == Missing(jobs[j], [])
      invariant Distinct(ready)
      invariant forall j :: j in ready <==> j in indegree && Available(jobs, [], j)
    {
      var name :| name in todo;
      MissingZero(jobs[name], []);
      indegree := indegree[name := |jobs[name]|];
      if |jobs[name]| == 0 {
        ready := ready + [name];
      }
      todo := todo - {name};
    }
    SortDistinct(ready);
    ready := Sort(ready);
  }

  lemma {:induction false} DistinctSize(s: seq<string>)
    requires Distinct(s)
    ensures |set x | x in s| == |s|
  {
    if s != [] {
      var front, last := s[..|s| - 1], s[|s| - 1];
      DistinctSize(front);
      assert s == front + [last];
      assert (set x | x in s) == (set x | x in front) + {last};
    }
  }

  /** The length test the compiler makes tells whether every job was listed. */
  lemma ListedAll(jobs: Needs, order: seq<string>)
    requires Ordered(jobs, order)
    ensures |order| <= |jobs| && (|order| == |jobs| <==> Topological(jobs, order))
  {
    assert Distinct(order) by {
      forall i, j | 0 <= i < j < |order| ensures order[i] != order[j] {
        assert order[i] in order[..j];
      }
    }
    DistinctSize(order);
    var listed := set x | x in order;
    assert listed <= jobs.Keys;
    SubsetSize(listed, jobs.Keys);
    assert Topological(jobs, order) <==> listed == jobs.Keys;
  }

  method Unlisted(jobs: Needs, indegree: map<string, int>) returns (cyclic: seq<string>)
    requires indegree.Keys == jobs.Keys
    ensures Sorted(cyclic) && Distinct(cyclic)
    ensures forall j :: j in cyclic <==> j in jobs && indegree[j] > 0
  {
    cyclic := [];
    var todo := indegree.Keys;
    while todo != {}
      invariant todo <= indegree.Keys && Distinct(cyclic)
      invariant forall j :: j in cyclic <==> j in indegree.Keys - todo && indegree[j] > 0
    {
      var name :| name in todo;
      if indegree[name] > 0 {
        cyclic := cyclic + [name];
      }
      todo := todo - {name};
    }
    SortDistinct(cyclic);
    cyclic := Sort(cyclic);
  }

  lemma UnlistedByDegree(jobs: Needs, order: seq<string>, indegree: map<string, int>)
    requires Ordered(jobs, order) && Counted(jobs, order, indegree)
    requires forall j :: !Available(jobs, order, j)
    ensures forall j :: j in jobs ==> (indegree[j] > 0 <==> j !in order)
  {
    forall j | j in jobs ensures indegree[j] > 0 <==> j !in order {
      MissingZero(jobs[j], order);
      if j in order {
        var k :| 0 <= k < |order| && order[k] == j;
        assert forall d :: d in jobs[j] ==> d in order[..k];
      } else {
        assert !Available(jobs, order, j);
      }
    }
  }

  /** Lexicographically least among the topological orders of `g`. */
  ghost predicate Least(g: Needs, order: seq<string>) {
    && Topological(g, order)
    && (forall other :: Topological(g, other) ==> ListLeq(order, other))
  }

  /** What the finished listing says about the graph, whichever way the length test goes. */
  lemma ListingDecides(jobs: Needs, order: seq<string>, indegree: map<string, int>)
    requires Closed(jobs) && Ordered(jobs, order) && Greedy(jobs, order) && Counted(jobs, order, indegree)
    requires forall j :: !Available(jobs, order, j)
    ensures |order| == |jobs| <==> Acyclic(jobs)
    ensures |order| == |jobs| ==> Least(jobs, order)
    ensures forall j :: j in jobs ==> (indegree[j] > 0 <==> BehindCycle(jobs, j))
  {
    ListedAll(jobs, order);
    UnlistedIffBehindCycle(jobs, order);
    BehindCycleIffCyclic(jobs);
    UnlistedByDegree(jobs, order, indegree);
    if |order| == |jobs| {
      forall other | Topological(jobs, other) ensures ListLeq(order, other) {
        GreedyIsLeast(jobs, order, other);
      }
    }
  }

  /**
   Compile succeeds exactly on acyclic graphs. The order it then returns is the
   lexicographically least of all topological orders; otherwise it reports, sorted
   and once each, exactly the jobs on or behind a dependency cycle.
   */
  method Compile(jobs: Needs) returns (r: Result)
    requires Closed(jobs)
    ensures r.Compiled? <==> Acyclic(jobs)
    ensures r.Compiled? ==>
      && r.graph.needs == (map j | j in jobs :: Sort(jobs[j]))
      && Linked(jobs, r.graph.dependents)
      && Least(jobs, r.graph.order)
    ensures r.CycleError? ==>
      && Sorted(r.jobs) && Distinct(r.jobs)
      && (forall j :: j in r.jobs <==> j in jobs && BehindCycle(jobs, j))
  {
    hide *;
    var dependents := BuildDependents(jobs);
    var order, indegree := List(jobs, dependents);
    ListingDecides(jobs, order, indegree);
    if |order| != |jobs| {
      var cyclic := Unlisted(jobs, indegree);
      return CycleError(cyclic);
    }
    r := Compiled(Graph(map j | j in jobs :: Sort(jobs[j]), dependents, order));
  }
}
