/**
 Extracting a snapshot archive, and why no symbolic link in it can lead outside. The archive is checked lexically;
 the theorem is about walking the created tree physically, component by component.
 */
module Extraction {
  import opened Paths

  datatype Kind = DirectoryEntry | FileEntry | LinkEntry(target: string) | OtherEntry
  datatype ArchiveEntry = ArchiveEntry(name: string, kind: Kind)

  datatype Node = Directory | Regular | Symlink(target: string)

  /** The tree under the destination; the empty path is the destination itself. */
  type Tree = map<seq<string>, Node>

  predicate Control(c: char) {
    c < ' ' || '\U{7f}' <= c <= '\U{9f}'
  }

  predicate HasControl(s: string) {
    exists i | 0 <= i < |s| :: Control(s[i])
  }

  predicate Climbs(clean: string) {
    clean == ".." || (|clean| >= 3 && clean[..3] == "../")
  }

  /** `path.IsAbs` */
  predicate Absolute(s: string) {
    s != "" && s[0] == '/'
  }

  /** `unsafePath` */
  predicate UnsafePath(name: string) {
    || name == "" || HasControl(name) || Absolute(name)
    || Clean(name) == "." || Climbs(Clean(name)) || Clean(name) != name
  }

  /** `unsafeLink` */
  predicate UnsafeLink(target: string) {
    target == "" || Absolute(target) || HasControl(target) || Clean(target) != target
  }

  /** `path.Dir` */
  function Dir(name: string): string {
    var cs := Split(name);
    Clean(if |cs| == 1 then "" else Join(cs[..|cs| - 1]) + "/")
  }

  /** `path.Clean(path.Join(path.Dir(name), target))` for a non-empty directory and target */
  function Resolved(name: string, target: string): string {
    Clean(Dir(name) + "/" + target)
  }

  ghost predicate AllNormal(p: seq<string>) {
    forall i :: 0 <= i < |p| ==> Normal(p[i])
  }

  lemma UpClimbs(parts: seq<string>)
    requires parts != [] && parts[0] == ".."
    ensures Climbs(Join(parts))
  {
    if |parts| > 1 {
      var rest := Join(parts[1..]);
      assert Join(parts) == ".." + "/" + rest;
      assert (".." + "/" + rest)[..3] == "../";
    }
  }

  /** A safe entry name is a list of ordinary components. */
  lemma SafeName(name: string)
    requires !UnsafePath(name)
    ensures AllNormal(Split(name))
  {
    CleanFixedPoint(name);
    if Split(name)[0] == ".." {
      UpClimbs(Split(name));
    }
    assert Ups(Split(name)) == 0;
  }

  lemma DirOfSafeName(name: string)
    requires !UnsafePath(name)
    ensures CleanParts(Split(Dir(name))) == Split(name)[..|Split(name)| - 1]
  {
    SafeName(name);
    var cs := Split(name);
    var front := cs[..|cs| - 1];
    NormalIsClean(front);
    if |cs| == 1 {
      assert CleanParts([""]) == [];
      assert Clean("") == ".";
      SplitName(".");
      assert CleanParts(["."]) == [];
    } else {
      SplitConcat(Join(front), "");
      SplitJoin(front);
      var padded := front + [""];
      assert Split(Join(front) + "/") == padded by { assert Join(front) + "/" + "" == Join(front) + "/"; }
      assert padded[..|padded| - 1] == front;
      assert CleanParts(padded) == front;
      assert Dir(name) == Join(front);
    }
  }

  /** A link target that passes both checks is relative and climbs at most to the destination, and only at its start. */
  ghost predicate LinkOk(path: seq<string>, target: string) {
    var t := Split(target);
    path != [] && !Absolute(target) && Ups(t) <= |path| - 1 && forall i :: Ups(t) <= i < |t| ==> t[i] != ".."
  }

  lemma CheckedLink(name: string, target: string)
    requires !UnsafePath(name) && !UnsafeLink(target) && !Climbs(Resolved(name, target))
    ensures LinkOk(Split(name), target)
  {
    var t, dir := Split(target), Split(name)[..|Split(name)| - 1];
    SafeName(name);
    CleanClimbsFirst(target);
    if Ups(t) > |dir| {
      ResolvedClimbs(name, target);
    }
  }

  lemma ResolvedClimbs(name: string, target: string)
    requires !UnsafePath(name) && Ups(Split(target)) > |Split(name)| - 1
    ensures Climbs(Resolved(name, target))
  {
    hide Split, CleanParts, Join, Ups, Normal, UnsafePath, Climbs, Dir;
    var t, d := Split(target), Split(Dir(name));
    var dir := Split(name)[..|Split(name)| - 1];
    SafeName(name);
    DirOfSafeName(name);
    EscapeIsVisible(dir, t);
    SplitConcat(Dir(name), target);
    NormalIsClean(dir);
    CleanAfter(d, dir, t);
    UpClimbs(CleanParts(d + t));
  }

  /** Cleaning depends on a prefix only through its cleaned form. */
  lemma {:induction false} CleanAfter(a: seq<string>, b: seq<string>, t: seq<string>)
    requires CleanParts(a) == b && CleanParts(b) == b
    ensures CleanParts(a + t) == CleanParts(b + t)
  {
    if t == [] {
      assert a + t == a && b + t == b;
    } else {
      var front := t[..|t| - 1];
      CleanAfter(a, b, front);
      assert (a + t)[..|a + t| - 1] == a + front && (b + t)[..|b + t| - 1] == b + front;
    }
  }

  // ----- Walking the tree -----

  /** Where a lookup stands: in a real directory with components to go, arrived, at a dead end, or outside. */
  datatype Walk = At(cwd: seq<string>, rest: seq<string>) | Arrived(path: seq<string>) | DeadEnd | Outside

  function Step(fs: Tree, w: Walk): Walk {
    match w
    case At(cwd, rest) =>
      if rest == [] then Arrived(cwd)
      else if rest[0] == "" || rest[0] == "." then At(cwd, rest[1..])
      else if rest[0] == ".." then
        if cwd == [] then Outside else At(cwd[..|cwd| - 1], rest[1..])
      else
        var p := cwd + [rest[0]];
        if p !in fs then DeadEnd
        else
          (match fs[p]
           case Directory => At(p, rest[1..])
           case Regular => if rest[1..] == [] then Arrived(p) else DeadEnd
           case Symlink(target) => if Absolute(target) then Outside else At(cwd, Split(target) + rest[1..]))
    case _ => w
  }

  function Steps(fs: Tree, w: Walk, n: nat): Walk {
    if n == 0 then w else Step(fs, Steps(fs, w, n - 1))
  }

  ghost predicate LinksOk(fs: Tree) {
    forall p :: p in fs && fs[p].Symlink? ==> LinkOk(p, fs[p].target)
  }

  /** The components still to come climb only at once, and no higher than the current directory is deep. */
  ghost predicate Inside(w: Walk) {
    match w
    case At(cwd, rest) => Ups(rest) <= |cwd| && forall i :: Ups(rest) <= i < |rest| ==> rest[i] != ".."
    case Outside => false
    case _ => true
  }

  lemma StepStaysInside(fs: Tree, w: Walk)
    requires LinksOk(fs) && Inside(w)
    ensures Inside(Step(fs, w))
  {
    if w.At? && w.rest != [] {
      var tail := w.rest[1..];
      if w.rest[0] == ".." {
        UpsIs(tail, Ups(w.rest) - 1);
      } else {
        assert forall i :: 0 <= i < |tail| ==> tail[i] != "..";
        UpsIs(tail, 0);
        var p := w.cwd + [w.rest[0]];
        if p in fs && fs[p].Symlink? && w.rest[0] != "" && w.rest[0] != "." {
          FollowStaysInside(w.cwd, p, fs[p].target, tail);
        }
      }
    }
  }

  lemma FollowStaysInside(cwd: seq<string>, p: seq<string>, target: string, tail: seq<string>)
    requires LinkOk(p, target) && |p| == |cwd| + 1 && forall i :: 0 <= i < |tail| ==> tail[i] != ".."
    ensures Inside(At(cwd, Split(target) + tail))
  {
    var t := Split(target);
    UpsIs(t + tail, Ups(t));
  }

  /** Lexical containment implies physical containment: from any directory of the tree, any path without ".." can be
      followed through any chain of links, for any number of steps, and the walk never leaves the destination. */
  lemma {:induction false} NeverOutside(fs: Tree, cwd: seq<string>, path: seq<string>, n: nat)
    requires LinksOk(fs) && forall i :: 0 <= i < |path| ==> path[i] != ".."
    ensures Inside(Steps(fs, At(cwd, path), n)) && !Steps(fs, At(cwd, path), n).Outside?
  {
    if n == 0 {
      UpsIs(path, 0);
    } else {
      NeverOutside(fs, cwd, path, n - 1);
      StepStaysInside(fs, Steps(fs, At(cwd, path), n - 1));
    }
  }

  // ----- Links that do lead outside -----

  lemma {:induction false} StepsCompose(fs: Tree, w: Walk, a: nat, b: nat)
    ensures Steps(fs, w, a + b) == Steps(fs, Steps(fs, w, a), b)
  {
    if b > 0 { StepsCompose(fs, w, a, b - 1); }
  }

  ghost predicate ParentsAreDirectories(fs: Tree, p: seq<string>) {
    AllNormal(p) && forall k :: 0 < k < |p| ==> p[..k] in fs && fs[p[..k]].Directory?
  }

  lemma {:induction false} EntersDirectories(fs: Tree, p: seq<string>, k: nat)
    requires ParentsAreDirectories(fs, p) && k < |p|
    ensures Steps(fs, At([], p), k) == At(p[..k], p[k..])
  {
    if k > 0 {
      EntersDirectories(fs, p, k - 1);
      assert Normal(p[k - 1]);
      assert p[..k - 1] + [p[k - 1]] == p[..k] && p[k - 1..][1..] == p[k..];
    } else {
      assert p[..0] == [] && p[0..] == p;
    }
  }

  lemma {:induction false} ClimbsOut(fs: Tree, cwd: seq<string>, rest: seq<string>)
    requires Ups(rest) > |cwd|
    ensures Steps(fs, At(cwd, rest), |cwd| + 1).Outside?
  {
    var w := At(cwd, rest);
    assert Steps(fs, w, 1) == Step(fs, Steps(fs, w, 0));
    if cwd != [] {
      UpsIs(rest[1..], Ups(rest) - 1);
      ClimbsOut(fs, cwd[..|cwd| - 1], rest[1..]);
      StepsCompose(fs, w, 1, |cwd|);
    }
  }

  /** A link that is absolute, or climbs higher than its directory is deep, takes the lookup of its own path outside. */
  lemma EscapingLinkLeaves(fs: Tree, p: seq<string>, target: string) returns (n: nat)
    requires p != [] && ParentsAreDirectories(fs, p) && p in fs && fs[p] == Symlink(target)
    requires Absolute(target) || Ups(Split(target)) > |p| - 1
    ensures Steps(fs, At([], p), n).Outside?
  {
    hide Split, Ups;
    var dir := p[..|p| - 1];
    var w := At([], p);
    EntersDirectories(fs, p, |dir|);
    assert Normal(p[|dir|]);
    assert p[|dir|..] == [p[|dir|]] && dir + [p[|dir|]] == p && [p[|dir|]][1..] == [];
    assert Split(target) + [] == Split(target);
    n := |dir| + 1;
    if !Absolute(target) {
      ClimbsOut(fs, dir, Split(target));
      StepsCompose(fs, w, n, |dir| + 1);
      n := n + |dir| + 1;
    }
  }

  /** Among links otherwise safe, a clean target is refused exactly if following it can lead outside. */
  lemma LinkOkIffNeverOutside(fs: Tree, p: seq<string>, target: string)
    requires p != [] && ParentsAreDirectories(fs, p) && p in fs && fs[p] == Symlink(target)
    requires target != "" && (Absolute(target) || Clean(target) == target)
    requires forall q :: q in fs && q != p && fs[q].Symlink? ==> LinkOk(q, fs[q].target)
    ensures LinkOk(p, target) <==> forall n: nat :: !Steps(fs, At([], p), n).Outside?
  {
    hide Steps, Split, Ups, Clean;
    if LinkOk(p, target) {
      forall n: nat ensures !Steps(fs, At([], p), n).Outside? {
        assert forall i :: 0 <= i < |p| ==> Normal(p[i]);
        NeverOutside(fs, [], p, n);
      }
    } else {
      if !Absolute(target) { CleanClimbsFirst(target); }
      var n := EscapingLinkLeaves(fs, p, target);
    }
  }

  lemma CleanClimbsFirst(target: string)
    requires Clean(target) == target
    ensures forall i :: Ups(Split(target)) <= i < |Split(target)| ==> Split(target)[i] != ".."
  {
    if target == "." {
      SplitName(".");
    } else {
      CleanFixedPoint(target);
    }
  }

  // ----- Entries -----

  /** Entry checks that do not depend on the tree. */
  predicate Acceptable(e: ArchiveEntry) {
    && !UnsafePath(e.name) && !e.kind.OtherEntry?
    && (e.kind.LinkEntry? ==> !UnsafeLink(e.kind.target) && !Climbs(Resolved(e.name, e.kind.target)))
  }

  // ----- Exactly which entries are accepted -----

  lemma FirstComponent(s: string)
    ensures Absolute(s) ==> Split(s)[0] == ""
    ensures Climbs(s) ==> Split(s)[0] == ".."
  {
    if s == ".." {
      SplitName(s);
    } else if Climbs(s) {
      SplitConcat("..", s[3..]);
      SplitName("..");
      assert s == ".." + "/" + s[3..];
    }
  }

  /** The names accepted are exactly the lists of ordinary components without control characters. */
  lemma SafeNameIff(name: string)
    ensures !UnsafePath(name) <==> !HasControl(name) && AllNormal(Split(name))
  {
    if !UnsafePath(name) {
      SafeName(name);
    } else if !HasControl(name) && AllNormal(Split(name)) {
      assert Normal(Split(name)[0]);
      UpsIs(Split(name), 0);
      FirstComponent(name);
      CleanIff(name);
      if name == "." { SplitName("."); }
    }
  }

  /** The targets accepted are exactly "." and leading ".." followed by ordinary components, without control characters. */
  lemma SafeLinkIff(target: string)
    ensures !UnsafeLink(target) <==> !HasControl(target) && (target == "." || Canonical(Split(target)))
  {
    CleanIff(target);
    FirstComponent(target);
    if Canonical(Split(target)) { CanonicalHead(Split(target)); }
  }

  lemma JoinStays(parts: seq<string>)
    requires AllNormal(parts) && forall i :: 0 <= i < |parts| ==> '/' !in parts[i]
    ensures parts != [] ==> !Climbs(Join(parts))
  {
    if parts != [] {
      SplitJoin(parts);
      FirstComponent(Join(parts));
      assert Normal(parts[0]);
    }
  }

  /** Where a link leads: its target's leading ".." take away components of its directory, the rest is added. */
  lemma ResolvedParts(name: string, target: string) returns (parts: seq<string>)
    requires !UnsafePath(name) && (target == "." || Canonical(Split(target))) && Ups(Split(target)) <= |Split(name)| - 1
    ensures AllNormal(parts) && forall i :: 0 <= i < |parts| ==> '/' !in parts[i]
    ensures Resolved(name, target) == if parts == [] then "." else Join(parts)
  {
    hide CleanParts, Join, UnsafePath, Climbs, Dir, Split, Ups;
    var t, d := Split(target), Split(Dir(name));
    var dir := Split(name)[..|Split(name)| - 1];
    SafeName(name);
    DirOfSafeName(name);
    SplitConcat(Dir(name), target);
    NormalIsClean(dir);
    CleanAfter(d, dir, t);
    if target == "." {
      SplitName(".");
      CleanPush(dir, ".");
      parts := dir;
    } else {
      CleanFrom(dir, t);
      parts := dir[..|dir| - Ups(t)] + t[Ups(t)..];
    }
  }

  /** The links accepted are exactly those with a safe target that climbs no higher than the link is deep. */
  lemma LinkAcceptedIff(name: string, target: string)
    requires !UnsafePath(name)
    ensures Acceptable(ArchiveEntry(name, LinkEntry(target))) <==>
      !HasControl(target) && (target == "." || Canonical(Split(target))) && Ups(Split(target)) <= |Split(name)| - 1
  {
    hide UnsafePath, UnsafeLink, Resolved, Climbs, Canonical, Split, Ups;
    SafeLinkIff(target);
    if !UnsafeLink(target) {
      if Ups(Split(target)) > |Split(name)| - 1 {
        ResolvedClimbs(name, target);
      } else {
        var parts := ResolvedParts(name, target);
        JoinStays(parts);
        DotStays();
      }
    }
  }

  lemma DotStays()
    ensures !Climbs(".")
  {
  }

  /** A link is accepted exactly if following it never leads outside: for a control-free target that is absolute or clean, in a tree
      whose other links were accepted. */
  lemma AcceptedIffNeverOutside(fs: Tree, name: string, target: string)
    requires !UnsafePath(name) && ParentsAreDirectories(fs, Split(name)) && Split(name) in fs && fs[Split(name)] == Symlink(target)
    requires target != "" && !HasControl(target) && (Absolute(target) || Clean(target) == target)
    requires forall q :: q in fs && q != Split(name) && fs[q].Symlink? ==> LinkOk(q, fs[q].target)
    ensures Acceptable(ArchiveEntry(name, LinkEntry(target))) <==> forall n: nat :: !Steps(fs, At([], Split(name)), n).Outside?
  {
    hide Steps, Split, Ups, Clean, UnsafePath, ParentsAreDirectories;
    LinkOkIffNeverOutside(fs, Split(name), target);
    if Acceptable(ArchiveEntry(name, LinkEntry(target))) {
      CheckedLink(name, target);
    } else {
      LinkAcceptedIff(name, target);
      if !Absolute(target) { CleanIff(target); }
    }
  }

  /** Exactly which entries are accepted: a directory, file or link whose name is a list of ordinary components without control
      characters, and for a link, a target of that kind after any number of ".." that stays within the destination. */
  lemma AcceptedIff(e: ArchiveEntry)
    ensures Acceptable(e) <==>
      && !e.kind.OtherEntry? && !HasControl(e.name) && AllNormal(Split(e.name))
      && (e.kind.LinkEntry? ==>
            && !HasControl(e.kind.target) && (e.kind.target == "." || Canonical(Split(e.kind.target)))
            && Ups(Split(e.kind.target)) <= |Split(e.name)| - 1)
  {
    hide UnsafePath, UnsafeLink, Resolved, Climbs, Canonical, Split, Ups, AllNormal;
    SafeNameIff(e.name);
    if e.kind.LinkEntry? && !UnsafePath(e.name) {
      LinkAcceptedIff(e.name, e.kind.target);
      assert e == ArchiveEntry(e.name, LinkEntry(e.kind.target));
    }
  }
}
