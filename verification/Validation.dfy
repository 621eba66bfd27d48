/** Pipeline validation, check by check, and what passing both validation and the compiler guarantees. */
module Validation {
  import opened Dag
  import opened Tables
  import opened Paths
  import opened Extraction
  import Compiler

  datatype CacheItem = CacheItem(key: string, path: string)
  datatype ArtifactUpload = ArtifactUpload(name: string, path: string)
  datatype ArtifactDownload = ArtifactDownload(from: string, name: string, into: string)
  datatype Job = Job(needs: seq<string>, image: Option<string>, steps: seq<string>, uploads: seq<ArtifactUpload>,
                     downloads: seq<ArtifactDownload>, restore: seq<CacheItem>, save: seq<CacheItem>)
  type Jobs = map<string, Job>

  // ----- Names and paths -----

  predicate Alphanumeric(c: char) {
    'A' <= c <= 'Z' || 'a' <= c <= 'z' || '0' <= c <= '9'
  }

  predicate Matches(s: string, more: set<char>, limit: nat) {
    0 < |s| <= limit && Alphanumeric(s[0]) && forall i | 0 <= i < |s| :: Alphanumeric(s[i]) || s[i] in more
  }

  predicate JobName(s: string) {
    Matches(s, {'_', '-'}, |s|)
  }

  predicate ArtifactName(s: string) {
    Matches(s, {'.', '_', '-'}, 64) && s != ".."
  }

  predicate CacheKey(s: string) {
    Matches(s, {'.', '_', ':', '-'}, 128)
  }

  /** `unicode.IsSpace` */
  predicate Space(c: char) {
    || '\t' <= c <= '\r' || c == ' ' || c == '\U{85}' || c == '\U{A0}' || c == '\U{1680}' || '\U{2000}' <= c <= '\U{200A}'
    || c == '\U{2028}' || c == '\U{2029}' || c == '\U{202F}' || c == '\U{205F}' || c == '\U{3000}'
  }

  predicate Blank(s: string) {
    forall i | 0 <= i < |s| :: Space(s[i])
  }

  predicate ImageReference(s: string) {
    s != "" && forall i | 0 <= i < |s| :: !Space(s[i]) && !Control(s[i])
  }

  /** `safeArtifactPath` and `safeCachePath` */
  predicate SafePath(s: string) {
    && s != "" && s != "." && s[0] != '/' && '\\' !in s && !HasControl(s)
    && Clean(s) == s && !Climbs(Clean(s))
  }

  /** `path.Base` */
  function Base(path: string): string {
    if path == "" then "."
    else if path[|path| - 1] == '/' then (if |path| == 1 then "/" else Base(path[..|path| - 1]))
    else Split(path)[|Split(path)| - 1]
  }

  /** `cachePathsConflict` */
  predicate Conflicts(a: string, b: string) {
    var x, y := Clean(a), Clean(b);
    x == y || y + "/" <= x || x + "/" <= y
  }

  lemma {:induction false} JoinConcat(x: seq<string>, y: seq<string>)
    requires x != [] && y != []
    ensures Join(x + y) == Join(x) + "/" + Join(y)
  {
    assert (x + y)[1..] == x[1..] + y;
    if |x| > 1 {
      JoinConcat(x[1..], y);
      assert x[0] + "/" + (Join(x[1..]) + "/" + Join(y)) == x[0] + "/" + Join(x[1..]) + "/" + Join(y);
    } else {
      assert x[1..] + y == y;
    }
  }

  lemma InsideIffPrefix(a: string, b: string)
    ensures a + "/" <= b <==> Split(a) < Split(b)
  {
    hide Split, Join;
    if a + "/" <= b {
      var rest := b[|a| + 1..];
      assert b == a + "/" + rest;
      SplitConcat(a, rest);
    }
    if Split(a) < Split(b) {
      var y := Split(b)[|Split(a)|..];
      assert Split(b) == Split(a) + y;
      JoinConcat(Split(a), y);
      JoinSplit(a);
      JoinSplit(b);
    }
  }

  /** Two clean paths conflict exactly if one is the other or lies below it, component by component. */
  lemma ConflictsIffNested(a: string, b: string)
    requires Clean(a) == a && Clean(b) == b
    ensures Conflicts(a, b) <==> Split(a) <= Split(b) || Split(b) <= Split(a)
  {
    hide Split, Join, Clean;
    InsideIffPrefix(a, b);
    InsideIffPrefix(b, a);
    JoinSplit(a);
    JoinSplit(b);
    var x, y := Split(a), Split(b);
    assert (x <= y <==> x < y || x == y) && (y <= x <==> y < x || x == y);
  }

  /** The paths accepted are exactly the lists of ordinary components without backslash or control character. */
  lemma SafePathIff(s: string)
    ensures SafePath(s) <==> '\\' !in s && !HasControl(s) && AllNormal(Split(s))
  {
    SafeNameIff(s);
    assert SafePath(s) <==> '\\' !in s && !UnsafePath(s);
  }

  lemma TrailingSlash(s: string)
    requires s != "" && s[|s| - 1] == '/'
    ensures Split(s)[|Split(s)| - 1] == ""
  {
    var front := s[..|s| - 1];
    assert s == front + "/" + "";
    SplitConcat(front, "");
  }

  /** The last component of such a path is its base name. */
  lemma BaseOfSafePath(s: string)
    requires SafePath(s)
    ensures Base(s) == Split(s)[|Split(s)| - 1] && Normal(Base(s)) && '/' !in Base(s)
  {
    SafePathIff(s);
    var cs := Split(s);
    assert Normal(cs[|cs| - 1]);
    if s[|s| - 1] == '/' { TrailingSlash(s); }
  }

  /** A download lands below its destination, under the base name. */
  lemma TargetParts(into: string, root: string)
    requires SafePath(into) && Normal(root) && '/' !in root
    ensures JoinPath(into, root) == into + "/" + root && Split(JoinPath(into, root)) == Split(into) + [root]
  {
    hide Split, Clean;
    SafePathIff(into);
    SplitConcat(into, root);
    SplitName(root);
    var cs := Split(into) + [root];
    UpsIs(cs, 0);
    CleanIff(into + "/" + root);
  }

  /** Two downloads land on the same path exactly if they have the same destination and the same base name. */
  lemma TargetsCollideIff(a: string, x: string, b: string, y: string)
    requires SafePath(a) && SafePath(b) && Normal(x) && Normal(y) && '/' !in x && '/' !in y
    ensures JoinPath(a, x) == JoinPath(b, y) <==> a == b && x == y
  {
    hide Split, Clean, JoinPath;
    TargetParts(a, x);
    TargetParts(b, y);
    if JoinPath(a, x) == JoinPath(b, y) {
      var cs := Split(a) + [x];
      assert cs[|cs| - 1] == x && cs[..|cs| - 1] == Split(a);
      assert cs == Split(b) + [y] && cs[|cs| - 1] == y && cs[..|cs| - 1] == Split(b);
      JoinSplit(a);
      JoinSplit(b);
    }
  }

  /** A name that passes any of the patterns is one ordinary path component. */
  lemma NamesAreComponents(s: string)
    requires JobName(s) || ArtifactName(s) || CacheKey(s)
    ensures Normal(s) && '/' !in s && '\\' !in s && !HasControl(s) && !UnsafePath(s)
  {
    assert forall i :: 0 <= i < |s| ==> s[i] != '/' && s[i] != '\\' && !Control(s[i]);
    SplitName(s);
    SafeNameIff(s);
  }

  // ----- What a valid job is -----

  ghost predicate SoundNeeds(jobs: Jobs, name: string, needs: seq<string>) {
    && (forall d :: d in needs ==> d != name && d in jobs)
    && (forall a, b :: 0 <= a < b < |needs| ==> needs[a] != needs[b])
  }

  ghost predicate SoundUploads(uploads: seq<ArtifactUpload>) {
    && (forall u :: u in uploads ==> ArtifactName(u.name) && SafePath(u.path))
    && (forall a, b :: 0 <= a < b < |uploads| ==> uploads[a].name != uploads[b].name)
  }

  ghost predicate Declared(uploads: seq<ArtifactUpload>, name: string) {
    exists k :: 0 <= k < |uploads| && uploads[k].name == name
  }

  /** Where the first upload of that name stands. */
  ghost function Position(uploads: seq<ArtifactUpload>, name: string): (k: nat)
    requires Declared(uploads, name)
    ensures k < |uploads| && uploads[k].name == name && forall i :: 0 <= i < k ==> uploads[i].name != name
  {
    if uploads[0].name == name then 0
    else
      var k :| 0 <= k < |uploads| && uploads[k].name == name;
      assert uploads[1..][k - 1] == uploads[k];
      1 + Position(uploads[1..], name)
  }

  function JoinPath(into: string, root: string): string {
    Clean(into + "/" + root)
  }

  ghost predicate SoundDownload(jobs: Jobs, needs: seq<string>, d: ArtifactDownload) {
    && JobName(d.from) && ArtifactName(d.name) && SafePath(d.into)
    && d.from in jobs && d.from in needs && Declared(jobs[d.from].uploads, d.name)
  }

  /** The path a download creates. */
  ghost function Target(jobs: Jobs, d: ArtifactDownload): string
    requires d.from in jobs && Declared(jobs[d.from].uploads, d.name)
  {
    JoinPath(d.into, Base(jobs[d.from].uploads[Position(jobs[d.from].uploads, d.name)].path))
  }

  /** The first `n` downloads are sound, name different artifacts and land on different paths. */
  ghost predicate SoundDownloads(jobs: Jobs, needs: seq<string>, downloads: seq<ArtifactDownload>, n: nat)
    requires n <= |downloads|
  {
    && (forall k :: 0 <= k < n ==> SoundDownload(jobs, needs, downloads[k]))
    && (forall a, b :: 0 <= a < b < n ==>
          (downloads[a].from, downloads[a].name) != (downloads[b].from, downloads[b].name)
          && Target(jobs, downloads[a]) != Target(jobs, downloads[b]))
  }

  ghost predicate SoundItems(items: seq<CacheItem>) {
    && (forall i :: 0 <= i < |items| ==> CacheKey(items[i].key) && SafePath(items[i].path))
    && (forall a, b :: 0 <= a < b < |items| ==> items[a].key != items[b].key)
  }

  /** Keys saved and restored mean one path, and a restored path is apart from every artifact path of the job. */
  ghost predicate SoundCache(job: Job) {
    && SoundItems(job.restore) && SoundItems(job.save)
    && (forall a, b :: 0 <= a < |job.restore| && 0 <= b < |job.save| && job.restore[a].key == job.save[b].key ==> job.restore[a].path == job.save[b].path)
    && (forall a, b :: 0 <= a < |job.restore| && 0 <= b < |job.downloads| ==> !Conflicts(job.restore[a].path, job.downloads[b].into))
    && (forall a, b :: 0 <= a < |job.restore| && 0 <= b < |job.uploads| ==> !Conflicts(job.restore[a].path, job.uploads[b].path))
  }

  predicate SoundText(name: string, job: Job) {
    && JobName(name) && job.steps != [] && (job.image.Some? ==> ImageReference(job.image.value))
    && forall i | 0 <= i < |job.steps| :: !Blank(job.steps[i])
  }

  ghost predicate SoundJob(jobs: Jobs, name: string)
    requires name in jobs
  {
    var job := jobs[name];
    && SoundText(name, job) && SoundUploads(job.uploads) && SoundDownloads(jobs, job.needs, job.downloads, |job.downloads|)
    && SoundCache(job) && SoundNeeds(jobs, name, job.needs)
  }

  // ----- The checks -----

  method CheckNeeds(jobs: Jobs, name: string, needs: seq<string>) returns (ok: bool)
    ensures ok <==> SoundNeeds(jobs, name, needs)
  {
    var seen := {};
    for i := 0 to |needs|
      invariant seen == (set k | 0 <= k < i :: needs[k])
      invariant forall k :: 0 <= k < i ==> needs[k] != name && needs[k] in jobs
      invariant forall a, b :: 0 <= a < b < i ==> needs[a] != needs[b]
    {
      if needs[i] == name || needs[i] !in jobs || needs[i] in seen {
        assert needs[i] in needs;
        return false;
      }
      seen := seen + {needs[i]};
    }
    ok := true;
  }

  method CheckUploads(uploads: seq<ArtifactUpload>) returns (ok: bool)
    ensures ok <==> SoundUploads(uploads)
  {
    hide ArtifactName, SafePath;
    var seen := {};
    for i := 0 to |uploads|
      invariant seen == (set k | 0 <= k < i :: uploads[k].name)
      invariant forall k :: 0 <= k < i ==> ArtifactName(uploads[k].name) && SafePath(uploads[k].path)
      invariant forall a, b :: 0 <= a < b < i ==> uploads[a].name != uploads[b].name
    {
      assert uploads[i] in uploads;
      if !ArtifactName(uploads[i].name) || uploads[i].name in seen || !SafePath(uploads[i].path) {
        return false;
      }
      seen := seen + {uploads[i].name};
    }
    ok := true;
  }

  /** The first declaration of the name, if there is one. */
  method FindUpload(uploads: seq<ArtifactUpload>, name: string) returns (found: bool, root: string)
    ensures found <==> Declared(uploads, name)
    ensures found ==> root == Base(uploads[Position(uploads, name)].path)
  {
    hide Base, Position;
    root := "";
    for i := 0 to |uploads|
      invariant forall k :: 0 <= k < i ==> uploads[k].name != name
    {
      if uploads[i].name == name {
        return true, Base(uploads[i].path);
      }
    }
    found := false;
  }

  method CheckDownloads(jobs: Jobs, needs: seq<string>, downloads: seq<ArtifactDownload>) returns (ok: bool)
    ensures ok <==> SoundDownloads(jobs, needs, downloads, |downloads|)
  {
    hide SoundDownloads, JobName, ArtifactName, SafePath, Declared, Target, JoinPath;
    var refs: set<(string, string)>, targets: set<string> := {}, {};
    NothingDownloaded(jobs, needs, downloads);
    for i := 0 to |downloads|
      invariant SoundDownloads(jobs, needs, downloads, i)
      invariant Seen(jobs, needs, downloads, i, refs, targets)
    {
      var d := downloads[i];
      DownloadStep(jobs, needs, downloads, i, refs, targets);
      if !JobName(d.from) || !ArtifactName(d.name) || !SafePath(d.into) || d.from !in jobs || d.from !in needs {
        return false;
      }
      var found, root := FindUpload(jobs[d.from].uploads, d.name);
      if !found {
        return false;
      }
      var target := JoinPath(d.into, root);
      assert target == Target(jobs, d) by { TargetIs(jobs, d, root); }
      if (d.from, d.name) in refs || target in targets {
        return false;
      }
      refs, targets := refs + {(d.from, d.name)}, targets + {target};
    }
    ok := true;
  }

  lemma TargetIs(jobs: Jobs, d: ArtifactDownload, root: string)
    requires d.from in jobs && Declared(jobs[d.from].uploads, d.name)
    requires root == Base(jobs[d.from].uploads[Position(jobs[d.from].uploads, d.name)].path)
    ensures JoinPath(d.into, root) == Target(jobs, d)
  {
  }

  /** `refs` and `targets` are those of the first `n` downloads. */
  ghost predicate Seen(jobs: Jobs, needs: seq<string>, downloads: seq<ArtifactDownload>, n: nat, refs: set<(string, string)>, targets: set<string>)
    requires n <= |downloads|
  {
    && SoundDownloads(jobs, needs, downloads, n)
    && (forall r :: r in refs <==> exists k :: 0 <= k < n && (downloads[k].from, downloads[k].name) == r)
    && (forall t :: t in targets <==> exists k :: 0 <= k < n && Target(jobs, downloads[k]) == t)
  }

  lemma NothingDownloaded(jobs: Jobs, needs: seq<string>, downloads: seq<ArtifactDownload>)
    ensures SoundDownloads(jobs, needs, downloads, 0) && Seen(jobs, needs, downloads, 0, {}, {})
  {
  }

  /** The next download is sound exactly if it is sound by itself and new to both maps. */
  lemma DownloadStep(jobs: Jobs, needs: seq<string>, downloads: seq<ArtifactDownload>, i: nat, refs: set<(string, string)>, targets: set<string>)
    requires i < |downloads| && SoundDownloads(jobs, needs, downloads, i) && Seen(jobs, needs, downloads, i, refs, targets)
    ensures SoundDownloads(jobs, needs, downloads, |downloads|) ==> SoundDownloads(jobs, needs, downloads, i + 1)
    ensures
      var d := downloads[i];
      SoundDownloads(jobs, needs, downloads, i + 1) <==>
        SoundDownload(jobs, needs, d) && (d.from, d.name) !in refs && Target(jobs, d) !in targets
    ensures
      var d := downloads[i];
      SoundDownloads(jobs, needs, downloads, i + 1) ==>
        Seen(jobs, needs, downloads, i + 1, refs + {(d.from, d.name)}, targets + {Target(jobs, d)})
  {
    hide JobName, ArtifactName, SafePath, Declared, Target;
  }

  /** The restore loop, and the first half of the save loop. */
  method CheckItems(items: seq<CacheItem>) returns (ok: bool, paths: map<string, string>)
    ensures ok <==> SoundItems(items)
    ensures ok ==> forall k, p :: (k in paths && paths[k] == p) <==> CacheItem(k, p) in items
  {
    hide CacheKey, SafePath;
    paths := map[];
    for i := 0 to |items|
      invariant SoundItems(items[..i])
      invariant forall k, p :: (k in paths && paths[k] == p) <==> CacheItem(k, p) in items[..i]
    {
      var item := items[i];
      assert items[..i + 1] == items[..i] + [item];
      if !CacheKey(item.key) || !SafePath(item.path) || item.key in paths {
        if item.key in paths {
          assert CacheItem(item.key, paths[item.key]) in items[..i];
          var k :| 0 <= k < i && items[k] == CacheItem(item.key, paths[item.key]);
        }
        return false, paths;
      }
      assert forall k :: 0 <= k < i ==> items[k].key != item.key by {
        forall k | 0 <= k < i ensures items[k].key != item.key {
          assert CacheItem(items[k].key, items[k].path) in items[..i];
        }
      }
      paths := paths[item.key := item.path];
    }
    assert items[..|items|] == items;
    ok := true;
  }

  method CheckCache(job: Job) returns (ok: bool)
    ensures ok <==> SoundCache(job)
  {
    hide SoundItems, Conflicts;
    var restore, save;
    ok, restore := CheckItems(job.restore);
    if !ok {
      return;
    }
    ok, save := CheckItems(job.save);
    if !ok {
      return;
    }
    for b := 0 to |job.save|
      invariant forall a, m :: 0 <= a < |job.restore| && 0 <= m < b && job.restore[a].key == job.save[m].key ==> job.restore[a].path == job.save[m].path
    {
      var item := job.save[b];
      if item.key in restore && restore[item.key] != item.path {
        assert CacheItem(item.key, restore[item.key]) in job.restore;
        return false;
      }
      forall a | 0 <= a < |job.restore| && job.restore[a].key == item.key ensures job.restore[a].path == item.path {
        assert CacheItem(job.restore[a].key, job.restore[a].path) in job.restore;
      }
    }
    for a := 0 to |job.restore|
      invariant forall k, b :: 0 <= k < a && 0 <= b < |job.downloads| ==> !Conflicts(job.restore[k].path, job.downloads[b].into)
    {
      for b := 0 to |job.downloads|
        invariant forall m :: 0 <= m < b ==> !Conflicts(job.restore[a].path, job.downloads[m].into)
      {
        if Conflicts(job.restore[a].path, job.downloads[b].into) {
          return false;
        }
      }
    }
    for a := 0 to |job.restore|
      invariant forall k, b :: 0 <= k < a && 0 <= b < |job.uploads| ==> !Conflicts(job.restore[k].path, job.uploads[b].path)
    {
      for b := 0 to |job.uploads|
        invariant forall m :: 0 <= m < b ==> !Conflicts(job.restore[a].path, job.uploads[m].path)
      {
        if Conflicts(job.restore[a].path, job.uploads[b].path) {
          return false;
        }
      }
    }
    ok := true;
  }

  method CheckJob(jobs: Jobs, name: string) returns (ok: bool)
    requires name in jobs
    ensures ok <==> SoundJob(jobs, name)
  {
    hide SoundText, SoundUploads, SoundDownloads, SoundCache, SoundNeeds;
    var job := jobs[name];
    if !SoundText(name, job) {
      return false;
    }
    ok := CheckUploads(job.uploads);
    if !ok {
      return;
    }
    ok := CheckDownloads(jobs, job.needs, job.downloads);
    if !ok {
      return;
    }
    ok := CheckCache(job);
    if !ok {
      return;
    }
    ok := CheckNeeds(jobs, name, job.needs);
  }

  /** Accepts exactly the pipelines of version 1 with at least one job and every job sound. */
  method Validate(version: int, jobs: Jobs) returns (ok: bool)
    ensures ok <==> version == 1 && jobs != map[] && forall j :: j in jobs ==> SoundJob(jobs, j)
  {
    hide SoundJob;
    if version != 1 || jobs == map[] {
      return false;
    }
    var rest := jobs.Keys;
    while rest != {}
      invariant rest <= jobs.Keys
      invariant forall j :: j in jobs && j !in rest ==> SoundJob(jobs, j)
    {
      var name :| name in rest;
      ok := CheckJob(jobs, name);
      if !ok {
        return;
      }
      rest := rest - {name};
    }
    ok := true;
  }

  // ----- What the rest of the system relies on -----

  function DeclOf(job: Job): JobDecl {
    JobDecl(job.needs, job.image.Some?,
            seq(|job.uploads|, i requires 0 <= i < |job.uploads| => Upload(job.uploads[i].name, Base(job.uploads[i].path))),
            seq(|job.downloads|, i requires 0 <= i < |job.downloads| => Download(job.downloads[i].from, job.downloads[i].name)))
  }

  function PipelineOf(jobs: Jobs): Pipeline {
    map j | j in jobs :: DeclOf(jobs[j])
  }

  /** The stored declaration of a job says what its file says: needs, whether there is an image, the artifacts by name and base name, and
      where the downloads come from. */
  lemma DeclarationKept(jobs: Jobs, name: string)
    requires name in jobs && SoundJob(jobs, name)
    ensures
      var job, decl := jobs[name], PipelineOf(jobs)[name];
      && decl.needs == job.needs && (decl.image <==> job.image.Some?)
      && |decl.uploads| == |job.uploads| && |decl.downloads| == |job.downloads|
      && (forall i :: 0 <= i < |job.uploads| ==>
            decl.uploads[i].name == job.uploads[i].name && decl.uploads[i].root == Split(job.uploads[i].path)[|Split(job.uploads[i].path)| - 1])
      && (forall i :: 0 <= i < |job.downloads| ==> decl.downloads[i] == Download(job.downloads[i].from, job.downloads[i].name))
  {
    hide SoundText, SoundDownloads, SoundCache, SoundNeeds, ArtifactName, SafePath, Base, Split;
    forall i | 0 <= i < |jobs[name].uploads|
      ensures Base(jobs[name].uploads[i].path) == Split(jobs[name].uploads[i].path)[|Split(jobs[name].uploads[i].path)| - 1]
    {
      BaseOfSafePath(jobs[name].uploads[i].path);
    }
  }

  lemma DeclaredStays(job: Job, name: string)
    ensures Declared(job.uploads, name) <==> Declares(DeclOf(job), name)
  {
    hide Base;
    var decl := DeclOf(job);
    if Declared(job.uploads, name) {
      var k :| 0 <= k < |job.uploads| && job.uploads[k].name == name;
      assert decl.uploads[k] in decl.uploads;
    }
    if u :| u in decl.uploads && u.name == name {
      var k :| 0 <= k < |decl.uploads| && decl.uploads[k] == u;
      assert job.uploads[k].name == name;
    }
  }

  lemma SoundDownloadStays(jobs: Jobs, name: string, d: Download)
    requires name in jobs && SoundJob(jobs, name) && d in DeclOf(jobs[name]).downloads
    ensures d.from in jobs[name].needs && d.from in jobs && Declares(DeclOf(jobs[d.from]), d.name)
  {
    hide SoundText, SoundUploads, SoundCache, SoundNeeds, Declared, Declares, JobName, ArtifactName, SafePath, Base, Target;
    var k :| 0 <= k < |jobs[name].downloads| && DeclOf(jobs[name]).downloads[k] == d;
    assert SoundDownload(jobs, jobs[name].needs, jobs[name].downloads[k]);
    DeclaredStays(jobs[d.from], d.name);
  }

  lemma SoundUploadsStay(jobs: Jobs, name: string)
    requires name in jobs && SoundJob(jobs, name)
    ensures forall a, b :: 0 <= a < b < |DeclOf(jobs[name]).uploads| ==> DeclOf(jobs[name]).uploads[a].name != DeclOf(jobs[name]).uploads[b].name
    ensures forall d :: d in jobs[name].needs ==> d in jobs
  {
    hide SoundText, SoundDownloads, SoundCache, ArtifactName, SafePath, Base;
  }

  lemma SoundIsClosed(jobs: Jobs)
    requires forall j :: j in jobs ==> SoundJob(jobs, j)
    ensures Closed(NeedsOf(PipelineOf(jobs))) && ValidArtifacts(PipelineOf(jobs))
  {
    hide SoundJob, Declares;
    var p := PipelineOf(jobs);
    forall j | j in p ensures SoundJob(jobs, j) {
    }
    forall j, d | j in p && d in p[j].downloads ensures d.from in p[j].needs && d.from in p && Declares(p[d.from], d.name) {
      SoundDownloadStays(jobs, j, d);
    }
    forall j | j in p ensures (forall a, b :: 0 <= a < b < |p[j].uploads| ==> p[j].uploads[a].name != p[j].uploads[b].name)
      && forall d :: d in p[j].needs ==> d in jobs
    {
      SoundUploadsStay(jobs, j);
    }
  }

  /** A pipeline that passes validation and compiles is one the lease and artifact theorems apply to. */
  method Accept(version: int, jobs: Jobs) returns (ok: bool)
    ensures ok ==> ValidPipeline(PipelineOf(jobs))
    ensures ok <==> version == 1 && jobs != map[] && (forall j :: j in jobs ==> SoundJob(jobs, j)) && Acyclic(NeedsOf(PipelineOf(jobs)))
  {
    hide SoundJob, DeclOf, Acyclic, Closed, ValidArtifacts;
    ok := Validate(version, jobs);
    if ok {
      SoundIsClosed(jobs);
      var name :| name in jobs;
      assert name in PipelineOf(jobs);
      var r := Compiler.Compile(NeedsOf(PipelineOf(jobs)));
      ok := r.Compiled?;
    }
  }
}
