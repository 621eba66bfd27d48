/** Dependency graphs: a job name mapped to the names it needs. */
module Dag {

  type Needs = map<string, seq<string>>

  /** Every need names a job of the graph. */
  ghost predicate Closed(g: Needs) {
    forall j, d :: j in g && d in g[j] ==> d in g
  }

  lemma SubsetSize<T>(a: set<T>, b: set<T>)
    requires a <= b
    ensures |a| <= |b| && (|a| == |b| ==> a == b)
  {
    assert b == a + (b - a);
  }

  /** `p` follows needs from its first job to its last. */
  ghost predicate Chain(g: Needs, p: seq<string>) {
    && p != []
    && (forall i :: 0 <= i < |p| ==> p[i] in g)
    && (forall i :: 0 <= i < |p| - 1 ==> p[i + 1] in g[p[i]])
  }

  ghost predicate DependsOn(g: Needs, j: string, d: string) {
    exists p :: Chain(g, p) && |p| >= 2 && p[0] == j && p[|p| - 1] == d
  }

  ghost predicate OnCycle(g: Needs, j: string) {
    DependsOn(g, j, j)
  }

  ghost predicate Acyclic(g: Needs) {
    forall j :: j in g ==> !OnCycle(g, j)
  }

  /** `j` is on a cycle or depends, directly or not, on a job that is. */
  ghost predicate BehindCycle(g: Needs, j: string) {
    exists c :: (c == j || DependsOn(g, j, c)) && OnCycle(g, c)
  }

  /** Distinct jobs, each listed after everything it needs. */
  ghost predicate Ordered(g: Needs, order: seq<string>) {
    forall k :: 0 <= k < |order| ==>
      && order[k] in g
      && order[k] !in order[..k]
      && (forall d :: d in g[order[k]] ==> d in order[..k])
  }

  ghost predicate Topological(g: Needs, order: seq<string>) {
    && Ordered(g, order)
    && (forall j :: j in g ==> j in order)
  }

  ghost function Index(order: seq<string>, j: string): (k: nat)
    requires j in order
    ensures k < |order| && order[k] == j
  {
    var k :| 0 <= k < |order| && order[k] == j;
    k
  }

  lemma Listed(g: Needs, order: seq<string>, j: string) returns (k: nat)
    requires Topological(g, order) && j in g
    ensures k < |order| && order[k] == j
  {
    hide Ordered;
    k := Index(order, j);
  }

  lemma IndexUnique(g: Needs, order: seq<string>, a: nat, b: nat)
    requires Ordered(g, order) && a < |order| && b < |order| && order[a] == order[b]
    ensures a == b
  {
  }

  /** A need sits strictly earlier. */
  lemma NeedEarlier(g: Needs, order: seq<string>, j: string, d: string)
    requires Ordered(g, order) && j in order && j in g && d in g[j]
    ensures d in order && Index(order, d) < Index(order, j)
  {
    var k := Index(order, j);
    assert d in order[..k];
    var m :| 0 <= m < k && order[..k][m] == d;
    IndexUnique(g, order, Index(order, d), m);
  }

  /** Following needs out of an ordered list stays in it and moves strictly backwards. */
  lemma {:induction false} ChainDescends(g: Needs, order: seq<string>, p: seq<string>)
    requires Ordered(g, order) && Chain(g, p) && p[0] in order
    ensures p[|p| - 1] in order
    ensures |p| >= 2 ==> Index(order, p[|p| - 1]) < Index(order, p[0])
  {
    if |p| >= 2 {
      NeedEarlier(g, order, p[0], p[1]);
      assert Chain(g, p[1..]);
      ChainDescends(g, order, p[1..]);
    }
  }

  lemma OrderedAvoidsCycles(g: Needs, order: seq<string>, j: string)
    requires Ordered(g, order) && j in order
    ensures !BehindCycle(g, j)
  {
    if BehindCycle(g, j) {
      var c :| (c == j || DependsOn(g, j, c)) && OnCycle(g, c);
      if c != j {
        var p :| Chain(g, p) && |p| >= 2 && p[0] == j && p[|p| - 1] == c;
        ChainDescends(g, order, p);
      }
      var q :| Chain(g, q) && |q| >= 2 && q[0] == c && q[|q| - 1] == c;
      ChainDescends(g, order, q);
    }
  }

  ghost predicate NeedsMemberOf(g: Needs, s: set<string>, j: string) {
    j in g && exists d :: d in g[j] && d in s
  }

  /** Every member of `s` needs a member of `s`. */
  ghost predicate Stuck(g: Needs, s: set<string>) {
    forall j {:trigger NeedsMemberOf(g, s, j)} :: j in s ==> NeedsMemberOf(g, s, j)
  }

  ghost function Walk(g: Needs, s: set<string>, j: string, n: nat): (p: seq<string>)
    requires Stuck(g, s) && j in s
    ensures Chain(g, p) && p[0] == j && |p| == n + 1
    ensures forall i :: 0 <= i < |p| ==> p[i] in s
    decreases n
  {
    assert NeedsMemberOf(g, s, j);
    if n == 0 then [j]
    else
      var d :| d in g[j] && d in s;
      [j] + Walk(g, s, d, n - 1)
  }

  /** Pigeonhole: a list longer than the set it draws from repeats an entry. */
  lemma {:induction false} Repeats(p: seq<string>, s: set<string>) returns (a: nat, b: nat)
    requires |p| > |s|
    requires forall i :: 0 <= i < |p| ==> p[i] in s
    ensures a < b < |p| && p[a] == p[b]
    decreases |p|
  {
    var last := p[|p| - 1];
    if last in p[..|p| - 1] {
      a := Index(p[..|p| - 1], last);
      b := |p| - 1;
    } else {
      a, b := Repeats(p[..|p| - 1], s - {last});
    }
  }

  lemma StuckIsBehindCycle(g: Needs, s: set<string>, j: string)
    requires Stuck(g, s) && j in s
    ensures BehindCycle(g, j)
  {
    var p := Walk(g, s, j, |s|);
    var a, b := Repeats(p, s);
    var loop := p[a..b + 1];
    assert Chain(g, loop) && loop[0] == loop[|loop| - 1] == p[a];
    assert OnCycle(g, p[a]);
    if a > 0 {
      var lead := p[..a + 1];
      assert Chain(g, lead) && lead[0] == j && lead[|lead| - 1] == p[a];
    }
  }

  /** The jobs an ordered list can take next: unlisted, with every need listed. */
  ghost predicate Available(g: Needs, done: seq<string>, j: string) {
    j in g && j !in done && forall d :: d in g[j] ==> d in done
  }

  /** When nothing is available, the unlisted jobs are exactly those on or behind a cycle. */
  lemma UnlistedIffBehindCycle(g: Needs, order: seq<string>)
    requires Closed(g) && Ordered(g, order)
    requires forall j :: !Available(g, order, j)
    ensures forall j :: j in g ==> (j !in order <==> BehindCycle(g, j))
  {
    var s := set j | j in g && j !in order;
    forall j | j in s ensures NeedsMemberOf(g, s, j) {
      assert !Available(g, order, j);
    }
    forall j | j in g ensures j !in order <==> BehindCycle(g, j) {
      if j in order {
        OrderedAvoidsCycles(g, order, j);
      } else {
        StuckIsBehindCycle(g, s, j);
      }
    }
  }

  lemma BehindCycleIffCyclic(g: Needs)
    ensures Acyclic(g) <==> forall j :: j in g ==> !BehindCycle(g, j)
  {
    if j :| j in g && BehindCycle(g, j) {
      var c :| (c == j || DependsOn(g, j, c)) && OnCycle(g, c);
      assert c in g;
    }
    if j :| j in g && OnCycle(g, j) {
      assert BehindCycle(g, j);
    }
  }

  /** A graph with a topological order has no cycle. */
  lemma TopologicalIsAcyclic(g: Needs, order: seq<string>)
    requires Topological(g, order)
    ensures Acyclic(g)
  {
    forall j | j in g ensures !OnCycle(g, j) {
      OrderedAvoidsCycles(g, order, j);
    }
  }

  /** In an acyclic graph every nonempty set of jobs has a member needing no other member. */
  lemma AcyclicHasMinimal(g: Needs, s: set<string>) returns (j: string)
    requires Acyclic(g) && s != {} && forall x :: x in s ==> x in g
    ensures j in s && forall d :: d in g[j] ==> d !in s
  {
    BehindCycleIffCyclic(g);
    if Stuck(g, s) {
      var x :| x in s;
      StuckIsBehindCycle(g, s, x);
      assert false;
    }
    j :| j in s && !NeedsMemberOf(g, s, j);
  }
}
