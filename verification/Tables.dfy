/** Rows of the control plane's tables and the pipeline declarations stored with a run. */
module Tables {
  import opened Dag

  datatype Option<+T> = None | Some(value: T)

  datatype JobStatus =
    | JobPending | JobRunning | JobPassed | JobFailed | JobError | JobBlocked | JobCanceled | JobAborted

  datatype RunStatus =
    | RunQueued | RunRunning | RunPassed | RunFailed | RunCanceled | RunError | RunAborted

  predicate Terminal(s: RunStatus) {
    !s.RunQueued? && !s.RunRunning?
  }

  predicate Unfinished(s: JobStatus) {
    s.JobPending? || s.JobRunning?
  }

  /** Finished without passing: what blocks a dependent. */
  predicate Failing(s: JobStatus) {
    !Unfinished(s) && !s.JobPassed?
  }

  datatype Upload = Upload(name: string, root: string)
  datatype Download = Download(from: string, name: string)
  datatype JobDecl = JobDecl(needs: seq<string>, image: bool, uploads: seq<Upload>, downloads: seq<Download>)

  /** The parsed pipeline stored with a run. */
  type Pipeline = map<string, JobDecl>

  function NeedsOf(p: Pipeline): Needs {
    map j | j in p :: p[j].needs
  }

  ghost predicate Declares(job: JobDecl, name: string) {
    exists u :: u in job.uploads && u.name == name
  }

  /** What validation guarantees about artifacts: names once each, and every download
      comes from a direct dependency that declares it. */
  ghost predicate ValidArtifacts(p: Pipeline) {
    && (forall j, a, b :: j in p && 0 <= a < b < |p[j].uploads| ==> p[j].uploads[a].name != p[j].uploads[b].name)
    && (forall j, d :: j in p && d in p[j].downloads ==>
          d.from in p[j].needs && d.from in p && Declares(p[d.from], d.name))
  }

  /** A pipeline that validation and the compiler have both accepted. */
  ghost predicate ValidPipeline(p: Pipeline) {
    p != map[] && Closed(NeedsOf(p)) && Acyclic(NeedsOf(p)) && ValidArtifacts(p)
  }

  type Time = nat

  /** The lease columns of a running job. */
  datatype Holding = Holding(runner: nat, id: nat, expires: Time)
  datatype JobRow = JobRow(status: JobStatus, image: bool, generation: nat, lease: Option<Holding>)

  datatype Meta = Meta(rootName: string, rootKind: string, content: string, blob: string, format: string,
                       archiveSize: int, logicalSize: int, entryCount: int)
  datatype ArtifactRow = ArtifactRow(meta: Meta, expires: Option<Time>, deleted: bool)

  /**
   A run with its job and artifact rows; artifacts are keyed by producer and name.
   `superseded` records that a newer pull request delivery touched the run; no operation reads it.
   */
  datatype RunRow = RunRow(status: RunStatus, decl: Pipeline, maxParallel: nat, createdAt: Time,
                           cancelRequested: bool, superseded: bool,
                           jobs: map<string, JobRow>, artifacts: map<(string, string), ArtifactRow>)

  datatype RunnerRow = RunnerRow(docker: bool, capacity: nat, protocol: nat, online: bool, lastSeen: Time)
}
