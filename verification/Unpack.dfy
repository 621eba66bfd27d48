/**
 Building the tree of a snapshot: files and directories first, links last. Extraction succeeds exactly on archives whose
 entries are acceptable and do not get in each other's way, and what it leaves is exactly what the entries describe.
 */
module Unpack {
  import opened Paths
  import opened Extraction

  datatype Placement = Placement(path: seq<string>, node: Node)

  /** `a` occupies a path at or above `b` without being a directory. */
  predicate Obstructs(a: Placement, b: Placement) {
    a.path <= b.path && !a.node.Directory?
  }

  ghost predicate Free(done: seq<Placement>, n: Placement) {
    forall k :: 0 <= k < |done| ==> !Obstructs(done[k], n) && !Obstructs(n, done[k])
  }

  ghost predicate NoneObstructed(done: seq<Placement>) {
    forall a, b :: 0 <= a < |done| && 0 <= b < |done| && a != b ==> !Obstructs(done[a], done[b])
  }

  ghost predicate Covered(done: seq<Placement>, p: seq<string>) {
    p == [] || exists k :: 0 <= k < |done| && p <= done[k].path
  }

  /** The tree holds the placements, the directories above them, and nothing else. */
  ghost predicate Shows(fs: Tree, done: seq<Placement>) {
    && [] in fs && fs[[]].Directory?
    && (forall p :: p in fs <==> Covered(done, p))
    && (forall k :: 0 <= k < |done| ==> done[k].path in fs && fs[done[k].path] == done[k].node)
    && (forall p :: p in fs && !fs[p].Directory? ==> exists k :: 0 <= k < |done| && done[k] == Placement(p, fs[p]))
  }

  // ----- One placement -----

  lemma CoveredPush(done: seq<Placement>, n: Placement, p: seq<string>)
    ensures Covered(done + [n], p) <==> Covered(done, p) || p <= n.path
  {
    if p <= n.path {
      assert (done + [n])[|done|] == n;
    }
    if k :| 0 <= k < |done| && p <= done[k].path {
      assert (done + [n])[k] == done[k];
    }
  }

  /** Growing the last placement by one component. */
  lemma Grown(fs: Tree, done: seq<Placement>, up: seq<string>, n: Placement, after: Tree)
    requires n.path != [] && up == n.path[..|n.path| - 1] && Shows(fs, done + [Placement(up, Directory)])
    requires if n.path in fs then n.node.Directory? && fs[n.path].Directory? && after == fs else after == fs[n.path := n.node]
    ensures Shows(after, done + [n])
  {
    var before := done + [Placement(up, Directory)];
    forall p ensures p in after <==> Covered(done + [n], p) {
      CoveredPush(done, n, p);
      CoveredPush(done, Placement(up, Directory), p);
      assert p <= n.path <==> p <= up || p == n.path;
    }
    forall k | 0 <= k < |done| ensures done[k].path in after && after[done[k].path] == done[k].node {
      assert before[k] == done[k];
    }
    forall p | p in after && !after[p].Directory?
      ensures exists k :: 0 <= k < |done + [n]| && (done + [n])[k] == Placement(p, after[p])
    {
      if p == n.path && p !in fs {
        assert (done + [n])[|done|] == n;
      } else {
        var k :| 0 <= k < |before| && before[k] == Placement(p, fs[p]);
        assert (done + [n])[k] == done[k];
      }
    }
  }

  lemma RootIsFree(fs: Tree, done: seq<Placement>)
    requires Shows(fs, done)
    ensures Shows(fs, done + [Placement([], Directory)]) && Free(done, Placement([], Directory))
  {
    var n := Placement([], Directory);
    forall p ensures p in fs <==> Covered(done + [n], p) {
      CoveredPush(done, n, p);
    }
    forall p | p in fs && !fs[p].Directory? ensures exists k :: 0 <= k < |done + [n]| && (done + [n])[k] == Placement(p, fs[p]) {
      var k :| 0 <= k < |done| && done[k] == Placement(p, fs[p]);
      assert (done + [n])[k] == done[k];
    }
  }

  lemma OccupiedPath(fs: Tree, done: seq<Placement>, up: seq<string>, n: Placement)
    requires |up| < |n.path| && Shows(fs, done + [Placement(up, Directory)])
    requires n.path in fs && !(n.node.Directory? && fs[n.path].Directory?)
    ensures !Free(done, n)
  {
    var before := done + [Placement(up, Directory)];
    if !fs[n.path].Directory? {
      var k :| 0 <= k < |before| && before[k] == Placement(n.path, fs[n.path]);
      assert Obstructs(done[k], n);
    } else {
      CoveredPush(done, Placement(up, Directory), n.path);
      var k :| 0 <= k < |done| && n.path <= done[k].path;
      assert Obstructs(n, done[k]);
    }
  }

  lemma FreePath(fs: Tree, done: seq<Placement>, up: seq<string>, n: Placement, k: nat)
    requires n.path != [] && up == n.path[..|n.path| - 1] && k < |done|
    requires Shows(fs, done + [Placement(up, Directory)]) && !Obstructs(done[k], Placement(up, Directory))
    requires n.path in fs ==> n.node.Directory? && fs[n.path].Directory?
    ensures !Obstructs(done[k], n) && !Obstructs(n, done[k])
  {
    var before := done + [Placement(up, Directory)];
    assert before[k] == done[k];
    assert done[k].path <= n.path ==> done[k].path <= up || done[k].path == n.path;
    if n.path <= done[k].path {
      CoveredPush(done, Placement(up, Directory), n.path);
      assert Covered(done, n.path);
    }
  }

  /** Once the parent is a directory, a placement is free exactly if its own path is. */
  lemma FreeAtPath(fs: Tree, done: seq<Placement>, up: seq<string>, n: Placement)
    requires n.path != [] && up == n.path[..|n.path| - 1]
    requires Shows(fs, done + [Placement(up, Directory)]) && Free(done, Placement(up, Directory))
    ensures Free(done, n) <==> (n.path in fs ==> n.node.Directory? && fs[n.path].Directory?)
  {
    hide Shows, Obstructs;
    if n.path in fs && !(n.node.Directory? && fs[n.path].Directory?) {
      OccupiedPath(fs, done, up, n);
    } else {
      forall k | 0 <= k < |done| ensures !Obstructs(done[k], n) && !Obstructs(n, done[k]) {
        FreePath(fs, done, up, n, k);
      }
    }
  }

  lemma ObstructedBelow(done: seq<Placement>, up: seq<string>, n: Placement)
    requires up <= n.path && !Free(done, Placement(up, Directory))
    ensures !Free(done, n)
  {
    var k :| 0 <= k < |done| && Obstructs(done[k], Placement(up, Directory));
    assert Obstructs(done[k], n);
  }

  /** `safeParents`: creates missing directories, and refuses a parent that is not a real directory. */
  method SafeParents(fs0: Tree, dir: seq<string>, ghost done: seq<Placement>) returns (ok: bool, fs: Tree)
    requires Shows(fs0, done)
    ensures ok <==> Free(done, Placement(dir, Directory))
    ensures ok ==> Shows(fs, done + [Placement(dir, Directory)])
  {
    hide Shows, Free;
    fs := fs0;
    RootIsFree(fs, done);
    for i := 0 to |dir|
      invariant Shows(fs, done + [Placement(dir[..i], Directory)]) && Free(done, Placement(dir[..i], Directory))
    {
      var current := dir[..i + 1];
      ghost var n := Placement(current, Directory);
      assert current[..i] == dir[..i];
      FreeAtPath(fs, done, dir[..i], n);
      if current !in fs {
        Grown(fs, done, dir[..i], n, fs[current := Directory]);
        fs := fs[current := Directory];
      } else if !fs[current].Directory? {
        ObstructedBelow(done, current, Placement(dir, Directory));
        return false, fs;
      } else {
        Grown(fs, done, dir[..i], n, fs);
      }
    }
    assert dir[..|dir|] == dir;
    return true, fs;
  }

  /** Creates one directory, file or link below its parents. */
  method Place(fs0: Tree, n: Placement, ghost done: seq<Placement>) returns (ok: bool, fs: Tree)
    requires Shows(fs0, done) && n.path != []
    ensures ok <==> Free(done, n)
    ensures ok ==> Shows(fs, done + [n])
  {
    hide Shows, Free;
    var up := n.path[..|n.path| - 1];
    ok, fs := SafeParents(fs0, up, done);
    if !ok {
      ObstructedBelow(done, up, n);
      return;
    }
    FreeAtPath(fs, done, up, n);
    if n.path !in fs {
      Grown(fs, done, up, n, fs[n.path := n.node]);
      fs := fs[n.path := n.node];
    } else if !n.node.Directory? || !fs[n.path].Directory? {
      ok := false;
    } else {
      Grown(fs, done, up, n, fs);
    }
  }

  // ----- The archive -----

  function NodeOf(k: Kind): Node {
    match k
    case FileEntry => Regular
    case LinkEntry(target) => Symlink(target)
    case _ => Directory
  }

  function Final(e: ArchiveEntry): Placement {
    Placement(Split(e.name), NodeOf(e.kind))
  }

  /** What the first pass does for an entry: only the parents of a link. */
  function Early(e: ArchiveEntry): Placement {
    var path := Split(e.name);
    if e.kind.LinkEntry? then Placement(path[..|path| - 1], Directory) else Final(e)
  }

  ghost function EarlyAll(entries: seq<ArchiveEntry>): seq<Placement> {
    seq(|entries|, i requires 0 <= i < |entries| => Early(entries[i]))
  }

  ghost function FinalAll(links: seq<ArchiveEntry>): seq<Placement> {
    seq(|links|, i requires 0 <= i < |links| => Final(links[i]))
  }

  ghost predicate AllAcceptable(entries: seq<ArchiveEntry>) {
    forall i :: 0 <= i < |entries| ==> Acceptable(entries[i])
  }

  /** No entry lies at or below the path of another entry that is not a directory. */
  ghost predicate Compatible(entries: seq<ArchiveEntry>) {
    forall i, k :: 0 <= i < |entries| && 0 <= k < |entries| && i != k && Split(entries[i].name) <= Split(entries[k].name) ==>
      entries[i].kind.DirectoryEntry?
  }

  /** `links` are the link entries in order; `at` says where each stood. */
  ghost predicate LinksOf(entries: seq<ArchiveEntry>, links: seq<ArchiveEntry>, at: seq<nat>) {
    && |at| == |links|
    && (forall m :: 0 <= m < |at| ==> at[m] < |entries| && entries[at[m]] == links[m] && links[m].kind.LinkEntry?)
    && (forall m, n :: 0 <= m < n < |at| ==> at[m] < at[n])
    && (forall i :: 0 <= i < |entries| && entries[i].kind.LinkEntry? ==> i in at)
  }

  lemma NonePush(done: seq<Placement>, n: Placement)
    ensures NoneObstructed(done + [n]) <==> NoneObstructed(done) && Free(done, n)
  {
    var after := done + [n];
    if NoneObstructed(after) {
      forall a, b | 0 <= a < |done| && 0 <= b < |done| && a != b ensures !Obstructs(done[a], done[b]) {
        assert !Obstructs(after[a], after[b]);
      }
      forall k | 0 <= k < |done| ensures !Obstructs(done[k], n) && !Obstructs(n, done[k]) {
        assert !Obstructs(after[k], after[|done|]) && !Obstructs(after[|done|], after[k]);
      }
    }
  }

  lemma NonePrefix(done: seq<Placement>, rest: seq<Placement>)
    requires NoneObstructed(done + rest)
    ensures NoneObstructed(done)
  {
    forall a, b | 0 <= a < |done| && 0 <= b < |done| && a != b ensures !Obstructs(done[a], done[b]) {
      assert !Obstructs((done + rest)[a], (done + rest)[b]);
    }
  }

  lemma EarlyPush(entries: seq<ArchiveEntry>, i: nat)
    requires i < |entries|
    ensures EarlyAll(entries[..i + 1]) == EarlyAll(entries[..i]) + [Early(entries[i])]
    ensures EarlyAll(entries) == EarlyAll(entries[..i + 1]) + EarlyAll(entries[i + 1..])
  {
  }

  lemma FinalPush(done: seq<Placement>, links: seq<ArchiveEntry>, i: nat)
    requires i < |links|
    ensures done + FinalAll(links[..i + 1]) == done + FinalAll(links[..i]) + [Final(links[i])]
    ensures done + FinalAll(links) == done + FinalAll(links[..i + 1]) + FinalAll(links[i + 1..])
  {
  }

  lemma EmptyDestination()
    ensures Shows(map[[] := Directory], []) && NoneObstructed([])
  {
  }

  lemma LinksPush(entries: seq<ArchiveEntry>, i: nat, links: seq<ArchiveEntry>, at: seq<nat>)
    requires i < |entries| && LinksOf(entries[..i], links, at)
    ensures
      if entries[i].kind.LinkEntry? then LinksOf(entries[..i + 1], links + [entries[i]], at + [i])
      else LinksOf(entries[..i + 1], links, at)
  {
    if entries[i].kind.LinkEntry? {
      var longer := at + [i];
      forall k | 0 <= k < i + 1 && entries[k].kind.LinkEntry? ensures k in longer {
        if k < i { assert entries[..i][k] == entries[k] && k in at; } else { assert longer[|at|] == k; }
      }
    } else {
      forall k | 0 <= k < i + 1 && entries[k].kind.LinkEntry? ensures k in at {
        assert entries[..i][k] == entries[k];
      }
    }
  }

  /** The first pass over the archive. */
  method PlaceEntries(entries: seq<ArchiveEntry>) returns (ok: bool, fs: Tree, links: seq<ArchiveEntry>, ghost at: seq<nat>)
    ensures ok <==> AllAcceptable(entries) && NoneObstructed(EarlyAll(entries))
    ensures ok ==> Shows(fs, EarlyAll(entries)) && LinksOf(entries, links, at)
  {
    hide Acceptable, Shows, NoneObstructed, Free, LinksOf, Split;
    fs, links, at := map[[] := Directory], [], [];
    EmptyDestination();
    assert LinksOf(entries[..0], links, at) by { NoLinksYet(entries); }
    assert EarlyAll(entries[..0]) == [];
    for i := 0 to |entries|
      invariant Shows(fs, EarlyAll(entries[..i])) && NoneObstructed(EarlyAll(entries[..i]))
      invariant AllAcceptable(entries[..i]) && LinksOf(entries[..i], links, at)
    {
      var e := entries[i];
      if !Acceptable(e) {
        return false, fs, links, at;
      }
      ghost var done := EarlyAll(entries[..i]);
      EarlyPush(entries, i);
      NonePush(done, Early(e));
      if e.kind.LinkEntry? {
        ok, fs := SafeParents(fs, Early(e).path, done);
      } else {
        ok, fs := Place(fs, Early(e), done);
      }
      if !ok {
        if NoneObstructed(EarlyAll(entries)) {
          NonePrefix(EarlyAll(entries[..i + 1]), EarlyAll(entries[i + 1..]));
        }
        return;
      }
      LinksPush(entries, i, links, at);
      if e.kind.LinkEntry? {
        links, at := links + [e], at + [i];
      }
    }
    assert entries[..|entries|] == entries;
    ok := true;
  }

  lemma NoLinksYet(entries: seq<ArchiveEntry>)
    ensures LinksOf(entries[..0], [], [])
  {
  }

  /** The second pass: the links, in archive order. */
  method PlaceLinks(fs0: Tree, links: seq<ArchiveEntry>, ghost done: seq<Placement>) returns (ok: bool, fs: Tree)
    requires Shows(fs0, done) && NoneObstructed(done) && forall m :: 0 <= m < |links| ==> links[m].kind.LinkEntry?
    ensures ok <==> NoneObstructed(done + FinalAll(links))
    ensures ok ==> Shows(fs, done + FinalAll(links))
  {
    hide Shows, NoneObstructed, Free, Split;
    fs := fs0;
    assert done + FinalAll(links[..0]) == done;
    for i := 0 to |links|
      invariant Shows(fs, done + FinalAll(links[..i])) && NoneObstructed(done + FinalAll(links[..i]))
    {
      FinalPush(done, links, i);
      NonePush(done + FinalAll(links[..i]), Final(links[i]));
      ok, fs := Place(fs, Final(links[i]), done + FinalAll(links[..i]));
      if !ok {
        if NoneObstructed(done + FinalAll(links)) {
          NonePrefix(done + FinalAll(links[..i + 1]), FinalAll(links[i + 1..]));
        }
        return;
      }
    }
    assert links[..|links|] == links;
    ok := true;
  }

  // ----- What the archive must look like -----

  /** Where the final placement of entry `i` stands among all placements. */
  ghost function Position(entries: seq<ArchiveEntry>, links: seq<ArchiveEntry>, at: seq<nat>, i: nat): (k: nat)
    requires LinksOf(entries, links, at) && i < |entries|
    ensures k < |entries| + |links| && (EarlyAll(entries) + FinalAll(links))[k] == Final(entries[i])
    ensures if k < |entries| then k == i else at[k - |entries|] == i
  {
    if entries[i].kind.LinkEntry? then
      var m :| 0 <= m < |at| && at[m] == i;
      |entries| + m
    else i
  }

  /** The entry a placement was made for. */
  ghost function Owner(entries: seq<ArchiveEntry>, links: seq<ArchiveEntry>, at: seq<nat>, k: nat): (i: nat)
    requires LinksOf(entries, links, at) && k < |entries| + |links|
    ensures i < |entries|
  {
    if k < |entries| then k else at[k - |entries|]
  }

  lemma OwnerPath(entries: seq<ArchiveEntry>, links: seq<ArchiveEntry>, at: seq<nat>, k: nat)
    requires LinksOf(entries, links, at) && k < |entries| + |links|
    ensures
      var e, n := entries[Owner(entries, links, at, k)], (EarlyAll(entries) + FinalAll(links))[k];
      n.path <= Final(e).path && (!n.node.Directory? ==> n.path == Final(e).path && !e.kind.DirectoryEntry?)
  {
  }

  /** Two placements for one entry are its parents and then itself, which do not obstruct each other. */
  lemma SameOwner(entries: seq<ArchiveEntry>, links: seq<ArchiveEntry>, at: seq<nat>, a: nat, b: nat)
    requires LinksOf(entries, links, at) && a < |entries| + |links| && b < |entries| + |links| && a != b
    requires Owner(entries, links, at, a) == Owner(entries, links, at, b)
    ensures !Obstructs((EarlyAll(entries) + FinalAll(links))[a], (EarlyAll(entries) + FinalAll(links))[b])
  {
  }

  lemma {:induction false} ObstructionIsIncompatible(entries: seq<ArchiveEntry>, links: seq<ArchiveEntry>, at: seq<nat>, a: nat, b: nat)
    requires LinksOf(entries, links, at) && a < |entries| + |links| && b < |entries| + |links| && a != b
    requires Obstructs((EarlyAll(entries) + FinalAll(links))[a], (EarlyAll(entries) + FinalAll(links))[b])
    ensures !Compatible(entries)
  {
    hide LinksOf, Split, EarlyAll, FinalAll;
    OwnerPath(entries, links, at, a);
    OwnerPath(entries, links, at, b);
    var i, k := Owner(entries, links, at, a), Owner(entries, links, at, b);
    if i == k {
      SameOwner(entries, links, at, a, b);
    }
    assert Split(entries[i].name) <= Split(entries[k].name);
  }

  lemma IncompatibleIsObstructed(entries: seq<ArchiveEntry>, links: seq<ArchiveEntry>, at: seq<nat>, i: nat, k: nat)
    requires LinksOf(entries, links, at) && AllAcceptable(entries) && i < |entries| && k < |entries| && i != k
    requires Split(entries[i].name) <= Split(entries[k].name) && !entries[i].kind.DirectoryEntry?
    ensures !NoneObstructed(EarlyAll(entries) + FinalAll(links))
  {
    hide LinksOf, Split, EarlyAll, FinalAll;
    AllLength(entries, links);
    var a, b := Position(entries, links, at, i), Position(entries, links, at, k);
    assert Acceptable(entries[i]);
    assert Obstructs((EarlyAll(entries) + FinalAll(links))[a], (EarlyAll(entries) + FinalAll(links))[b]);
  }

  lemma CompatibleIffNoneObstructed(entries: seq<ArchiveEntry>, links: seq<ArchiveEntry>, at: seq<nat>)
    requires LinksOf(entries, links, at) && AllAcceptable(entries)
    ensures NoneObstructed(EarlyAll(entries) + FinalAll(links)) <==> Compatible(entries)
  {
    hide LinksOf, Split, AllAcceptable, Obstructs;
    var all := EarlyAll(entries) + FinalAll(links);
    if Compatible(entries) {
      forall a, b | 0 <= a < |all| && 0 <= b < |all| && a != b ensures !Obstructs(all[a], all[b]) {
        if Obstructs(all[a], all[b]) {
          ObstructionIsIncompatible(entries, links, at, a, b);
        }
      }
    } else {
      var i, k :| 0 <= i < |entries| && 0 <= k < |entries| && i != k
        && Split(entries[i].name) <= Split(entries[k].name) && !entries[i].kind.DirectoryEntry?;
      IncompatibleIsObstructed(entries, links, at, i, k);
    }
  }

  lemma EarlyObstructionIsIncompatible(entries: seq<ArchiveEntry>)
    requires !NoneObstructed(EarlyAll(entries))
    ensures !Compatible(entries)
  {
    var done := EarlyAll(entries);
    var a, b :| 0 <= a < |done| && 0 <= b < |done| && a != b && Obstructs(done[a], done[b]);
    assert Split(entries[a].name) <= Split(entries[b].name);
  }

  /** The tree an archive describes: each entry at its path, directories above them, nothing else. */
  ghost predicate Unpacked(fs: Tree, entries: seq<ArchiveEntry>) {
    PathsAsListed(fs, entries) && EntriesPlaced(fs, entries) && LeavesListed(fs, entries)
  }

  ghost predicate PathsAsListed(fs: Tree, entries: seq<ArchiveEntry>) {
    forall p :: p in fs <==> p == [] || exists i :: 0 <= i < |entries| && p <= Split(entries[i].name)
  }

  ghost predicate EntriesPlaced(fs: Tree, entries: seq<ArchiveEntry>) {
    forall i :: 0 <= i < |entries| ==> Split(entries[i].name) in fs && fs[Split(entries[i].name)] == NodeOf(entries[i].kind)
  }

  ghost predicate LeavesListed(fs: Tree, entries: seq<ArchiveEntry>) {
    forall p :: p in fs && !fs[p].Directory? ==> exists i :: 0 <= i < |entries| && Final(entries[i]) == Placement(p, fs[p])
  }

  lemma CoveredByEntries(entries: seq<ArchiveEntry>, links: seq<ArchiveEntry>, at: seq<nat>, p: seq<string>)
    requires LinksOf(entries, links, at)
    ensures Covered(EarlyAll(entries) + FinalAll(links), p) <==> p == [] || exists i :: 0 <= i < |entries| && p <= Split(entries[i].name)
  {
    hide LinksOf, Split, EarlyAll, FinalAll;
    var all := EarlyAll(entries) + FinalAll(links);
    AllLength(entries, links);
    if i :| 0 <= i < |entries| && p <= Split(entries[i].name) {
      assert p <= all[Position(entries, links, at, i)].path;
    }
    if k :| 0 <= k < |all| && p <= all[k].path {
      OwnerPath(entries, links, at, k);
      assert p <= Split(entries[Owner(entries, links, at, k)].name);
    }
  }

  lemma AllLength(entries: seq<ArchiveEntry>, links: seq<ArchiveEntry>)
    ensures |EarlyAll(entries) + FinalAll(links)| == |entries| + |links|
  {
  }

  lemma ShownIsUnpacked(fs: Tree, entries: seq<ArchiveEntry>, links: seq<ArchiveEntry>, at: seq<nat>)
    requires LinksOf(entries, links, at) && Shows(fs, EarlyAll(entries) + FinalAll(links))
    ensures Unpacked(fs, entries)
  {
    hide LinksOf, Split, EarlyAll, FinalAll, Covered;
    var all := EarlyAll(entries) + FinalAll(links);
    AllLength(entries, links);
    forall p ensures p in fs <==> p == [] || exists i :: 0 <= i < |entries| && p <= Split(entries[i].name) {
      CoveredByEntries(entries, links, at, p);
    }
    forall i | 0 <= i < |entries| ensures Split(entries[i].name) in fs && fs[Split(entries[i].name)] == NodeOf(entries[i].kind) {
      assert all[Position(entries, links, at, i)] == Final(entries[i]);
    }
    forall p | p in fs && !fs[p].Directory? ensures exists i :: 0 <= i < |entries| && Final(entries[i]) == Placement(p, fs[p]) {
      var k :| 0 <= k < |all| && all[k] == Placement(p, fs[p]);
      FinalOwner(entries, links, at, k);
    }
  }

  lemma FinalOwner(entries: seq<ArchiveEntry>, links: seq<ArchiveEntry>, at: seq<nat>, k: nat)
    requires LinksOf(entries, links, at) && k < |entries| + |links| && !(EarlyAll(entries) + FinalAll(links))[k].node.Directory?
    ensures Final(entries[Owner(entries, links, at, k)]) == (EarlyAll(entries) + FinalAll(links))[k]
  {
  }

  /**
   `Extract`, into an empty destination. It succeeds exactly if every entry passes the lexical checks and none lies at
   or below another that is not a directory, and then leaves exactly the tree the archive describes.
   */
  method Extract(entries: seq<ArchiveEntry>) returns (ok: bool, fs: Tree)
    ensures ok <==> AllAcceptable(entries) && Compatible(entries)
    ensures ok ==> Unpacked(fs, entries)
  {
    hide AllAcceptable, Compatible, Shows, LinksOf, NoneObstructed, EarlyAll, FinalAll, Unpacked;
    var links;
    ghost var at;
    ok, fs, links, at := PlaceEntries(entries);
    if !ok {
      if !NoneObstructed(EarlyAll(entries)) {
        EarlyObstructionIsIncompatible(entries);
      }
      return;
    }
    OnlyLinks(entries, links, at);
    ok, fs := PlaceLinks(fs, links, EarlyAll(entries));
    CompatibleIffNoneObstructed(entries, links, at);
    if ok {
      ShownIsUnpacked(fs, entries, links, at);
    }
  }

  lemma OnlyLinks(entries: seq<ArchiveEntry>, links: seq<ArchiveEntry>, at: seq<nat>)
    requires LinksOf(entries, links, at)
    ensures forall m :: 0 <= m < |links| ==> links[m].kind.LinkEntry?
  {
  }

  /** In an extracted tree every link obeys the rule that makes walks safe. */
  lemma UnpackedLinksOk(fs: Tree, entries: seq<ArchiveEntry>)
    requires AllAcceptable(entries) && Unpacked(fs, entries)
    ensures LinksOk(fs)
  {
    hide Split, Acceptable, LinkOk, PathsAsListed, EntriesPlaced;
    forall p | p in fs && fs[p].Symlink? ensures LinkOk(p, fs[p].target) {
      var i :| 0 <= i < |entries| && Final(entries[i]) == Placement(p, fs[p]);
      AcceptableLink(entries[i]);
    }
  }

  lemma AcceptableLink(e: ArchiveEntry)
    requires Acceptable(e) && e.kind.LinkEntry?
    ensures LinkOk(Split(e.name), e.kind.target)
  {
    CheckedLink(e.name, e.kind.target);
  }

  /** After a successful extraction, following the path of any entry for any number of steps never leaves the destination. */
  lemma EntriesStayInside(fs: Tree, entries: seq<ArchiveEntry>, i: nat, n: nat)
    requires AllAcceptable(entries) && Unpacked(fs, entries) && i < |entries|
    ensures !Steps(fs, At([], Split(entries[i].name)), n).Outside?
  {
    hide LinksOk, Steps, Unpacked, Split, UnsafePath, UnsafeLink, Climbs, Resolved;
    UnpackedLinksOk(fs, entries);
    assert Acceptable(entries[i]);
    SafeName(entries[i].name);
    NeverOutside(fs, [], Split(entries[i].name), n);
  }

  // ----- What is found again -----

  lemma ListedAbove(fs: Tree, entries: seq<ArchiveEntry>, i: nat, p: seq<string>)
    requires PathsAsListed(fs, entries) && i < |entries| && p <= Split(entries[i].name)
    ensures p in fs
  {
    hide Split;
  }

  lemma AboveIsDirectory(entries: seq<ArchiveEntry>, i: nat, m: nat)
    requires Compatible(entries) && i < |entries| && m < |entries| && Split(entries[m].name) < Split(entries[i].name)
    ensures NodeOf(entries[m].kind).Directory?
  {
    hide Split;
    assert i != m;
  }

  lemma ParentIsDirectory(fs: Tree, entries: seq<ArchiveEntry>, i: nat, p: seq<string>)
    requires Compatible(entries) && Unpacked(fs, entries) && i < |entries| && p < Split(entries[i].name)
    ensures p in fs && fs[p].Directory?
  {
    hide Split, NodeOf, Compatible, PathsAsListed, EntriesPlaced;
    ListedAbove(fs, entries, i, p);
    forall m | 0 <= m < |entries| && Split(entries[m].name) == p ensures NodeOf(entries[m].kind).Directory? {
      AboveIsDirectory(entries, i, m);
    }
  }

  /** After a successful extraction each entry is found at its own path: a file as a file, a directory as a directory, and a link leads
      on to its target from the directory it lies in. */
  lemma FoundWhereListed(fs: Tree, entries: seq<ArchiveEntry>, i: nat)
    requires AllAcceptable(entries) && Compatible(entries) && Unpacked(fs, entries) && i < |entries|
    ensures
      var p := Split(entries[i].name);
      var w := Steps(fs, At([], p), |p|);
      match entries[i].kind
      case FileEntry => w == Arrived(p)
      case LinkEntry(target) => w == At(p[..|p| - 1], Split(target))
      case _ => w == At(p, [])
  {
    hide Split, UnsafePath, UnsafeLink, Climbs, Resolved, Compatible, PathsAsListed, LeavesListed;
    var p := Split(entries[i].name);
    assert Acceptable(entries[i]);
    SafeName(entries[i].name);
    forall k | 0 < k < |p| ensures p[..k] in fs && fs[p[..k]].Directory? {
      ParentIsDirectory(fs, entries, i, p[..k]);
    }
    EntersDirectories(fs, p, |p| - 1);
    assert Normal(p[|p| - 1]) && p[|p| - 1..] == [p[|p| - 1]] && p[..|p| - 1] + [p[|p| - 1]] == p && [p[|p| - 1]][1..] == [];
    match entries[i].kind
    case LinkEntry(target) =>
      CheckedLink(entries[i].name, target);
      assert Split(target) + [] == Split(target);
    case _ =>
  }
}
