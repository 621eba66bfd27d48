/** Slash-separated paths and Go's lexical `path.Clean`, for relative paths. */
module Paths {

  /** The components between slashes; always at least one. */
  function Split(s: string): (r: seq<string>)
    ensures r != [] && forall i :: 0 <= i < |r| ==> '/' !in r[i]
  {
    if s == "" then [""]
    else if s[0] == '/' then [""] + Split(s[1..])
    else
      var rest := Split(s[1..]);
      [[s[0]] + rest[0]] + rest[1..]
  }

  function Join(cs: seq<string>): string {
    if cs == [] then "" else if |cs| == 1 then cs[0] else cs[0] + "/" + Join(cs[1..])
  }

  lemma {:induction false} SplitName(s: string)
    requires '/' !in s
    ensures Split(s) == [s]
  {
    if s != "" {
      SplitName(s[1..]);
      assert s == [s[0]] + s[1..];
    }
  }

  function Prepend(c: char, parts: seq<string>): seq<string>
    requires parts != []
  {
    if c == '/' then [""] + parts else [[c] + parts[0]] + parts[1..]
  }

  lemma SplitCons(c: char, s: string)
    ensures Split([c] + s) == Prepend(c, Split(s))
  {
    assert ([c] + s)[1..] == s;
  }

  lemma PrependEmpty(parts: seq<string>)
    requires parts != []
    ensures Prepend('/', parts) == [""] + parts
  {
  }

  lemma PrependConcat(c: char, x: seq<string>, y: seq<string>)
    requires x != []
    ensures Prepend(c, x + y) == Prepend(c, x) + y
  {
  }

  lemma {:induction false} SplitConcat(a: string, b: string)
    ensures Split(a + "/" + b) == Split(a) + Split(b)
  {
    hide Split, Prepend;
    if a == "" {
      assert a + "/" + b == ['/'] + b;
      SplitCons('/', b);
      SplitName(a);
      PrependEmpty(Split(b));
    } else {
      var rest := a[1..] + "/" + b;
      SplitConcat(a[1..], b);
      SplitCons(a[0], rest);
      SplitCons(a[0], a[1..]);
      PrependConcat(a[0], Split(a[1..]), Split(b));
      assert a + "/" + b == [a[0]] + rest && a == [a[0]] + a[1..];
    }
  }

  /** Splitting undoes joining. */
  lemma {:induction false} SplitJoin(cs: seq<string>)
    requires cs != [] && forall i :: 0 <= i < |cs| ==> '/' !in cs[i]
    ensures Split(Join(cs)) == cs
  {
    if |cs| == 1 {
      SplitName(cs[0]);
    } else {
      SplitJoin(cs[1..]);
      SplitName(cs[0]);
      SplitConcat(cs[0], Join(cs[1..]));
      assert cs == [cs[0]] + cs[1..];
    }
  }

  function CleanStep(out: seq<string>, c: string): seq<string> {
    if c == "" || c == "." then out
    else if c == ".." && out != [] && out[|out| - 1] != ".." then out[..|out| - 1]
    else out + [c]
  }

  function CleanParts(cs: seq<string>): seq<string> {
    if cs == [] then [] else CleanStep(CleanParts(cs[..|cs| - 1]), cs[|cs| - 1])
  }

  function Clean(s: string): string {
    var parts := CleanParts(Split(s));
    if parts == [] then "." else Join(parts)
  }

  predicate Normal(c: string) {
    c != "" && c != "." && c != ".."
  }

  function Ups(cs: seq<string>): (k: nat)
    ensures k <= |cs| && (forall i :: 0 <= i < k ==> cs[i] == "..") && (k < |cs| ==> cs[k] != "..")
  {
    if cs != [] && cs[0] == ".." then 1 + Ups(cs[1..]) else 0
  }

  /** Cleaned form: leading "..", then ordinary names. */
  ghost predicate Canonical(cs: seq<string>) {
    forall i :: Ups(cs) <= i < |cs| ==> Normal(cs[i])
  }

  lemma CanonicalStep(out: seq<string>, c: string)
    requires Canonical(out)
    ensures Canonical(CleanStep(out, c))
  {
    var r := CleanStep(out, c);
    if c == "" || c == "." {
    } else if c == ".." && out != [] && out[|out| - 1] != ".." {
      CanonicalPrefix(out, |out| - 1);
    } else {
      CanonicalPush(out, c);
    }
  }

  /** The number of leading ".." is determined by the two facts that describe it. */
  lemma UpsIs(cs: seq<string>, k: nat)
    requires k <= |cs| && (forall i :: 0 <= i < k ==> cs[i] == "..") && (k < |cs| ==> cs[k] != "..")
    ensures Ups(cs) == k
  {
  }

  lemma CanonicalPrefix(cs: seq<string>, n: nat)
    requires Canonical(cs) && n <= |cs|
    ensures Canonical(cs[..n])
  {
    UpsIs(cs[..n], if Ups(cs) < n then Ups(cs) else n);
  }

  lemma CanonicalPush(out: seq<string>, c: string)
    requires Canonical(out) && c != "" && c != "." && (c == ".." ==> Ups(out) == |out|)
    ensures Canonical(out + [c])
  {
    UpsIs(out + [c], if c == ".." then |out| + 1 else Ups(out));
  }

  lemma {:induction false} CleanIsCanonical(cs: seq<string>)
    requires forall i :: 0 <= i < |cs| ==> '/' !in cs[i]
    ensures Canonical(CleanParts(cs)) && forall i :: 0 <= i < |CleanParts(cs)| ==> '/' !in CleanParts(cs)[i]
  {
    if cs != [] {
      CleanIsCanonical(cs[..|cs| - 1]);
      CanonicalStep(CleanParts(cs[..|cs| - 1]), cs[|cs| - 1]);
    }
  }

  /** A path that cleaning leaves alone is already in canonical form. */
  lemma CleanFixedPoint(s: string)
    requires Clean(s) == s && s != "."
    ensures Canonical(Split(s)) && CleanParts(Split(s)) == Split(s)
  {
    var parts := CleanParts(Split(s));
    CleanIsCanonical(Split(s));
    SplitJoin(parts);
  }

  lemma {:induction false} NormalIsClean(cs: seq<string>)
    requires forall i :: 0 <= i < |cs| ==> Normal(cs[i])
    ensures CleanParts(cs) == cs
  {
    if cs != [] {
      NormalIsClean(cs[..|cs| - 1]);
      assert cs == cs[..|cs| - 1] + [cs[|cs| - 1]];
    }
  }

  /** Each ".." undoes one component while there are any. */
  lemma {:induction false} Climb(dir: seq<string>, ups: seq<string>)
    requires (forall i :: 0 <= i < |dir| ==> Normal(dir[i])) && (forall i :: 0 <= i < |ups| ==> ups[i] == "..")
    requires |ups| <= |dir|
    ensures CleanParts(dir + ups) == dir[..|dir| - |ups|]
  {
    if ups == [] {
      assert dir + ups == dir;
      NormalIsClean(dir);
    } else {
      var fewer := ups[..|ups| - 1];
      Climb(dir, fewer);
      assert dir + ups == (dir + fewer) + [".."];
      assert (dir + ups)[..|dir + ups| - 1] == dir + fewer;
    }
  }

  /** Once cleaning has produced a leading "..", it stays. */
  lemma {:induction false} LeadingUpStays(a: seq<string>, b: seq<string>)
    requires CleanParts(a) != [] && CleanParts(a)[0] == ".."
    ensures CleanParts(a + b) != [] && CleanParts(a + b)[0] == ".."
  {
    if b == [] {
      assert a + b == a;
    } else {
      LeadingUpStays(a, b[..|b| - 1]);
      assert (a + b)[..|a + b| - 1] == a + b[..|b| - 1];
    }
  }

  lemma CleanPush(cs: seq<string>, c: string)
    ensures CleanParts(cs + [c]) == CleanStep(CleanParts(cs), c)
  {
    assert (cs + [c])[..|cs|] == cs;
  }

  lemma OneTooMany(dir: seq<string>, ups: seq<string>)
    requires (forall i :: 0 <= i < |dir| ==> Normal(dir[i])) && (forall i :: 0 <= i < |ups| ==> ups[i] == "..")
    requires |ups| == |dir| + 1
    ensures CleanParts(dir + ups) == [".."]
  {
    hide CleanParts, Normal;
    var fewer := ups[..|dir|];
    Climb(dir, fewer);
    CleanPush(dir + fewer, "..");
    assert dir + ups == dir + fewer + [".."];
  }

  /** A target that climbs higher than the directory it is resolved from is deep shows it after cleaning. */
  lemma EscapeIsVisible(dir: seq<string>, target: seq<string>)
    requires forall i :: 0 <= i < |dir| ==> Normal(dir[i])
    requires Ups(target) > |dir|
    ensures CleanParts(dir + target) != [] && CleanParts(dir + target)[0] == ".."
  {
    hide CleanParts, Normal, Ups;
    var k := |dir| + 1;
    OneTooMany(dir, target[..k]);
    LeadingUpStays(dir + target[..k], target[k..]);
    assert dir + target[..k] + target[k..] == dir + target;
  }

  // ----- Exactly which paths are clean -----

  lemma JoinCons(c: char, parts: seq<string>)
    requires parts != []
    ensures Join(Prepend(c, parts)) == [c] + Join(parts)
  {
    if c == '/' {
      assert Prepend(c, parts)[1..] == parts;
    } else if |parts| > 1 {
      assert Prepend(c, parts)[1..] == parts[1..];
    }
  }

  /** Joining undoes splitting. */
  lemma {:induction false} JoinSplit(s: string)
    ensures Join(Split(s)) == s
  {
    if s != "" {
      JoinSplit(s[1..]);
      JoinCons(s[0], Split(s[1..]));
      assert s == [s[0]] + s[1..];
      SplitCons(s[0], s[1..]);
    }
  }

  lemma CanonicalClimb(cs: seq<string>)
    requires Canonical(cs) && cs != [] && cs[|cs| - 1] == ".."
    ensures forall i :: 0 <= i < |cs| ==> cs[i] == ".."
  {
    assert !Normal(cs[|cs| - 1]);
  }

  lemma CanonicalHead(cs: seq<string>)
    requires Canonical(cs) && cs != []
    ensures cs[0] != ""
  {
    assert Ups(cs) == 0 ==> Normal(cs[0]);
  }

  lemma {:induction false} CanonicalIsClean(cs: seq<string>)
    requires Canonical(cs)
    ensures CleanParts(cs) == cs
  {
    if cs != [] {
      var front, last := cs[..|cs| - 1], cs[|cs| - 1];
      CanonicalPrefix(cs, |front|);
      CanonicalIsClean(front);
      if last == ".." {
        CanonicalClimb(cs);
      } else {
        assert Normal(last);
      }
      assert cs == front + [last];
    }
  }

  /** Cleaning leaves a path alone exactly if it is "." or leading ".." followed by ordinary names. */
  lemma CleanIff(s: string)
    ensures Clean(s) == s <==> s == "." || Canonical(Split(s))
  {
    if s == "." {
      SplitName(".");
      assert CleanParts(["."]) == [];
    } else if Clean(s) == s {
      CleanFixedPoint(s);
    } else if Canonical(Split(s)) {
      CanonicalIsClean(Split(s));
      JoinSplit(s);
    }
  }

  /** Cleaning twice is cleaning once. */
  lemma CleanIdempotent(s: string)
    ensures Clean(Clean(s)) == Clean(s)
  {
    CleanIff(Clean(s));
    var parts := CleanParts(Split(s));
    if parts != [] {
      CleanIsCanonical(Split(s));
      SplitJoin(parts);
    }
  }

  lemma CanonicalFront(cs: seq<string>)
    requires Canonical(cs) && Ups(cs) < |cs|
    ensures Canonical(cs[..|cs| - 1]) && Ups(cs[..|cs| - 1]) == Ups(cs) && Normal(cs[|cs| - 1])
  {
    CanonicalPrefix(cs, |cs| - 1);
    UpsIs(cs[..|cs| - 1], Ups(cs));
  }

  lemma PushNormal(out: seq<string>, c: string)
    requires Normal(c)
    ensures CleanStep(out, c) == out + [c]
  {
  }

  /** Cleaning resolves a target from a directory: each leading ".." takes away a component, the rest is added. */
  lemma {:induction false} CleanFrom(dir: seq<string>, target: seq<string>)
    requires (forall i :: 0 <= i < |dir| ==> Normal(dir[i])) && Canonical(target) && Ups(target) <= |dir|
    ensures CleanParts(dir + target) == dir[..|dir| - Ups(target)] + target[Ups(target)..]
  {
    hide CleanParts, CleanStep, Canonical, Ups, Normal;
    var k := Ups(target);
    if k == |target| {
      Climb(dir, target);
      assert dir[..|dir| - k] + target[k..] == dir[..|dir| - |target|];
    } else {
      var front, last := target[..|target| - 1], target[|target| - 1];
      CanonicalFront(target);
      CleanFrom(dir, front);
      CleanPush(dir + front, last);
      PushNormal(CleanParts(dir + front), last);
      assert dir + target == dir + front + [last];
      assert dir[..|dir| - k] + target[k..] == dir[..|dir| - k] + front[k..] + [last];
    }
  }
}
