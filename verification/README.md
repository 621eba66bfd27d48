# ForgeCI, verified

A Dafny model of the parts of ForgeCI that are hard to get right, with proofs that hold for every input, every
execution and every interleaving.

ForgeCI compiles a pipeline file into a dependency graph of jobs and runs it, either in process or by leasing jobs to
remote runners through a PostgreSQL control plane. The model treats every database transaction as one atomic step over
maps (the tables), taken at the time of one shared clock, with fresh ids from a counter. Networks may lose, duplicate,
reorder and delay messages; workers and runners may stall or die between any two steps.

| files | what they model |
|---|---|
| `Ordering`, `Dag`, `Compiler`, `Validation` | pipeline validation, dependency graphs, Kahn's algorithm with a sorted ready list |
| `Tables`, `Runs`, `Blocking`, `RunInvariant`, `RunOrder`, `Protocol` | rows, transactions and invariant of the remote job-lease protocol |
| `Executions`, `Propagation`, `Capacity`, `Liveness`, `Findings` | what holds over whole protocol executions, and where a tempting claim fails |
| `Provenance`, `LeaseRights`, `ArtifactLife`, `RunnerLife`, `ArtifactAccess` | every column of the tables told by the transactions alone: who put it there, and exactly who may do what |
| `JobStore` | the job store as a class, its methods proved to be steps of the protocol |
| `Scheduler`, `Agreement` | the in-process event loop, and its agreement with the lease protocol |
| `LeaseDeath` | runner and server clocks on lease expiry, with unreliable replies |
| `LogQueue`, `LogStore`, `LogPipeline`, `LogWriter`, `LogRoundTrip` | bounded queue, idempotent append, retrying upload, chunk writer, paging reader, and the way from one end to the other |
| `Deliveries`, `DeliverySafety`, `DeliveryHistory`, `DeliveryStore`, `Supersession` | webhook deliveries, token-fenced claims, retries, pull request supersession and what it does to the lease protocol |
| `CacheEviction` | cache expiry and eviction by unique blob bytes |
| `Paths`, `Extraction`, `Unpack` | lexical path checks, snapshot extraction, physical containment of symbolic links |
| `Wakeup` | long polling with a signal channel that is closed and replaced |

Go's loops over maps become loops over the remaining keys in arbitrary order. Objects whose fields the code updates are
classes; the functions their contracts refer to are the ones the lemmas are about. Where the point of the code is
interleaving (log upload, lease expiry, wake-up, delivery workers) it is a state machine whose steps are the code's
critical sections and statements.

Claims that turned out false of the code are kept, each with a concrete counterexample and the exact condition:

- PASSED does not mean that every job passed: a leaseholder may report CANCELED on its own (`Findings.CanceledReportPasses`); it does exactly if none did (`Executions.AllPassedIffNoneReported`).
- A superseded run may stall until someone cancels it explicitly (`Findings.SupersededRunStalls`, `Liveness.StalledIffCancelRequested`, `Liveness.OnlyCancelUnstalls`).
- A runner may have more active jobs than its capacity (`Findings.LoweredCapacityIsExceeded`), exactly if it registered with less than it was running (`Capacity.WithinIffRegistrationsFit`).
- Closing the log queue does not imply that it was drained (`LogPipeline.CloseCanLoseChunks`); it was exactly if nothing was written after the last empty peek (`LogPipeline.DrainedUpToLastPeek`). For the same reason a chunk may wait in the queue beside a sleeping uploader (`LogPipeline.WriteCanStrand`, `LogPipeline.StrandedIff`, `LogPipeline.WokenExactlyBy`).
- Claims that expire are reclaimed without bound (`DeliverySafety.ExpiryIsUnbounded`); the attempts stay within MaxAttempts exactly as long as takeovers fit in what failures have left (`DeliverySafety.AttemptsWithinLimitIff`).
- Eviction may take more digests than needed (`CacheEviction.EvictionCanOvershoot`); it never does exactly if the least recently used row of each digest but the last carries its largest size (`CacheEviction.MinimalIffRepresentative`). The byte bound always holds (`CacheEviction.ChosenFits`).
- A canceled job does not imply an interrupted result (`Scheduler.CancellationCanGoUnnoticed`). A run is interrupted exactly if it looked at its context after the cancellation (`Scheduler.InterruptedIffLooked`); if it did not, a job is canceled exactly if the last report says so (`Scheduler.UnnoticedIff`).
- A parked runner may stay unsignaled beside a job it could be given: after it registered with more (`Wakeup.UpgradeIsNotSignaled`), or when the run was created from a delivery that then could not be completed (`Wakeup.QuietRunIsMissed`). `Wakeup.MissedIff` says exactly when.

`dafny verify dfyconfig.toml` checks the project.

## Model

| member | source | states |
|---|---|---|
| `Ordering.LeqIff` | internal/pipeline/compiler.go:15-55 | The order names are sorted by: a beginning of the other, or the smaller character where the two first differ. |
| `Compiler.Compile` | internal/pipeline/compiler.go:11-59 | Succeeds if and only if the dependency graph is acyclic. The order is then the lexicographically least of all topological orders, whatever order map iteration took, and the dependents are the exact inverse of the needs, sorted. Otherwise it reports, sorted and once each, exactly the jobs on a cycle or downstream of one. |
| `Compiler.List` | internal/pipeline/compiler.go:27-47 | The Kahn loop stops only when no unlisted job has all its needs listed; what it listed is ordered, each entry the least one available at its turn, and each in-degree counts exactly the needs still unlisted. |
| `Compiler.BuildDependents` | internal/pipeline/compiler.go:18-25 | The dependents lists hold each job once for every time it names the need, so they are the inverse of the needs lists as multisets. |
| `Compiler.Release` | internal/pipeline/compiler.go:40-46 | Counting down the dependents of the job just taken puts exactly those on the ready list whose last need it was. |
| `Compiler.Unlisted` | internal/pipeline/compiler.go:48-56 | The reported names are exactly the jobs with a positive in-degree left, sorted and distinct. |
| `Compiler.GreedyIsLeast` | internal/pipeline/compiler.go:36-47 | An order that always takes the least available job is lexicographically below every other topological order of the same graph. |
| `Compiler.ListingDecides` | internal/pipeline/compiler.go:48-58 | All jobs were listed if and only if the graph is acyclic, and a job keeps a positive in-degree if and only if it is on or behind a cycle. |
| `Dag.UnlistedIffBehindCycle` | internal/pipeline/compiler.go:48-56 | When nothing more can be listed, the unlisted jobs are exactly those on or behind a cycle (by a pigeonhole walk through unlisted needs). |
| `Dag.BehindCycleIffCyclic` | internal/pipeline/compiler.go:48-56 | Some job is on or behind a cycle if and only if the graph has a cycle. |
| `Dag.TopologicalIsAcyclic` | internal/pipeline/compiler.go:36-47 | A graph with a topological order has no cycle, the converse that compilation relies on. |
| `Dag.AcyclicHasMinimal` | internal/pipeline/compiler.go:36-47 | Any non-empty set of jobs of an acyclic graph has a member that needs no other member; the fact behind progress of both schedulers. |
| `Validation.Validate` | internal/config/validation.go:16-71 | Accepts exactly the pipelines of version 1 with at least one job in which every job has a valid name, image and steps, sound uploads, downloads and caches, and needs only other known jobs, once each. |
| `Validation.CheckJob` | internal/config/validation.go:30-69 | The checks of one job together accept exactly the sound ones. |
| `Validation.CheckNeeds` | internal/config/validation.go:56-68 | The seen-map loop accepts exactly the need lists with no self-dependency, no unknown job and no duplicate. |
| `Validation.CheckUploads` | internal/config/validation.go:134-147 | Accepts exactly the upload lists with valid names, safe paths and no duplicate name. |
| `Validation.CheckDownloads` | internal/config/validation.go:148-193 | Accepts exactly the download lists whose items have valid names and destinations, each come from a direct dependency that declares the name, name different artifacts, and land on different paths. |
| `Validation.FindUpload` | internal/config/validation.go:171-180 | Finds the first declaration of the name, and its base name, if and only if there is one. |
| `Validation.CheckItems` | internal/config/validation.go:73-102 | Accepts exactly cache lists with valid keys, safe paths and no duplicate key, and collects them as a map from key to path. |
| `Validation.CheckCache` | internal/config/validation.go:73-118 | Accepts exactly the caches whose lists are sound, whose keys mean one path whether saved or restored, and whose restored paths conflict with no artifact path of the job. |
| `Validation.ConflictsIffNested` | internal/config/validation.go:128-132 | Two clean paths conflict if and only if one equals the other or lies below it, component by component. |
| `Validation.SafePathIff` | internal/config/validation.go:197-203 | The artifact and cache paths accepted are exactly the lists of ordinary components without backslash or control character. |
| `Validation.TargetsCollideIff` | internal/config/validation.go:178-192 | Two downloads have the same target if and only if they have the same destination and the same base name. |
| `Validation.NamesAreComponents` | internal/config/validation.go:12-14 | A name that passes any of the patterns is one ordinary, safe path component. |
| `Validation.DeclarationKept` | internal/config/validation.go:134-195 | The stored declaration of a job says what its file says: needs, whether there is an image, artifacts by name and base name, downloads. |
| `Validation.Accept` | internal/config/validation.go:16-71 | A pipeline that passes validation and compiles satisfies every hypothesis the lease and artifact theorems place on a submitted pipeline; both directions of when that happens are stated. |
| `Blocking.BlockDependents` | internal/store/postgres/jobs.go:219-229 | The update-until-nothing-changes loop terminates and computes the least closure `BlockAll`. |
| `Blocking.BlocksExactly` | internal/store/postgres/jobs.go:219-229 | A job is changed if and only if it is PENDING and a chain of pending needs leads from it to a job that finished without passing. |
| `Blocking.BlockAllSettles` | internal/store/postgres/jobs.go:219-229 | Only PENDING rows change, only to BLOCKED, each with a failing need; afterwards no PENDING job has one. |
| `Blocking.RoundShrinks` | internal/store/postgres/jobs.go:221-227 | Every round that changes a row leaves fewer PENDING rows, which is why the loop ends. |
| `Propagation.BlocksExactlyDependents` | internal/store/postgres/jobs.go:219-229 | When running jobs of a run finish without passing, the rows blocked are exactly the PENDING jobs that transitively depend on one of them. |
| `Propagation.CompletionBlocksExactly` | internal/store/postgres/jobs.go:166-176 | Reporting a job changes another if and only if the report is not PASSED and the other is a PENDING transitive dependent. |
| `Propagation.AbortBlocksExactly` | internal/store/postgres/jobs.go:274-294 | Losing leases changes a job that kept its own if and only if it is a PENDING transitive dependent of a lost one. |
| `RunInvariant.NewRunOk` | internal/store/postgres/postgres.go:119-152 | A freshly created run of a valid pipeline satisfies the run invariant. |
| `RunInvariant.LeaseKeeps` | internal/store/postgres/jobs.go:47-77 | Leasing keeps the run invariant, in particular the run-level parallel limit and that everything a leased job needs has passed. |
| `RunInvariant.RenewKeeps` | internal/store/postgres/jobs.go:106-138 | Renewing a lease keeps the run invariant. |
| `RunInvariant.CompleteKeeps` | internal/store/postgres/jobs.go:140-179 | Completing a job, blocking its dependents and finalizing keeps the run invariant; a PASSED job has its whole artifact set stored. |
| `RunInvariant.AbortKeeps` | internal/store/postgres/jobs.go:268-300 | Aborting any set of running jobs, blocking behind them and finalizing keeps the run invariant. |
| `RunInvariant.CancelAskedKeeps` | internal/store/postgres/postgres.go:332-357 | Requesting cancellation of a running run leaves no PENDING job and keeps the run invariant. |
| `RunInvariant.CancelQueuedKeeps` | internal/store/postgres/postgres.go:314-331 | Canceling a queued run finishes all its jobs at once and keeps the run invariant. |
| `RunInvariant.SupersedeKeeps` | internal/store/postgres/scm_deliveries.go:122-127 | Supersession, which changes the run row but no job row, keeps the invariant in its weakened form for superseded runs. |
| `RunInvariant.InsertKeeps` | internal/store/postgres/postgres.go:705-710 | Storing the artifacts of a running job keeps the run invariant. |
| `RunInvariant.SweepKeeps` | internal/store/postgres/postgres.go:789-824 | Expiring artifacts touches finished runs only, so the artifacts of an unfinished run stay live. |
| `RunInvariant.SettleKeeps` | internal/store/postgres/jobs.go:170-176 | After propagation and the final verdict, run and job rows agree again whenever the part of the invariant before them holds. |
| `RunOrder.WeightFalls` | internal/store/postgres/jobs.go:47-77 | The measure 2·PENDING + RUNNING never rises, and strictly falls whenever any job status changes. |
| `RunOrder.LaterIsFinal` | internal/store/postgres/jobs.go:231-266 | Once all jobs of a run are finished, neither their rows nor the run status ever change. |
| `RunOrder.CompleteIsLater` | internal/store/postgres/jobs.go:140-179 | A completion only moves rows forward: finished rows stay as they are, statuses follow the allowed transitions, artifacts keep their metadata. |
| `RunOrder.AbortIsLater` | internal/store/postgres/jobs.go:268-300 | So does aborting. |
| `RunOrder.SweepIsLater` | internal/store/postgres/postgres.go:789-824 | So does the artifact sweep, which may only expire and delete artifacts of finished runs. |
| `Protocol.StepKeeps` | internal/store/postgres/jobs.go:18-351 | Every transaction of the control plane keeps the invariant of every run and moves every run forward, with the clock and the supply of lease ids growing. |
| `Executions.ReachableInv` | internal/store/postgres/jobs.go:18-351 | The invariant holds in every state of every execution. |
| `Executions.ReachableLater` | internal/store/postgres/jobs.go:18-351 | Along every execution each run only moves forward. |
| `Executions.RunOrigin` | internal/store/postgres/postgres.go:119-152 | Every run in every reachable state has the pipeline, the limit and the time of the one submission that created it, and a row for each declared job that says whether it has an image. |
| `Provenance.StatusFromHistory` | internal/store/postgres/jobs.go:140-300 | In every reachable state a job is PASSED, FAILED or ERROR if and only if its leaseholder reported so, ABORTED if and only if its lease was lost, CANCELED if and only if that was reported or the run was canceled while the job was pending, and otherwise running if and only if it was leased. |
| `Provenance.BlockedFromNeeds` | internal/store/postgres/jobs.go:219-229 | A job neither leased nor given up is BLOCKED if and only if a direct need finished without passing, and else PENDING. |
| `Provenance.LeaseFromHistory` | internal/store/postgres/jobs.go:69-72 | A running job’s lease runs out exactly 30 seconds after it was last given or renewed. |
| `Provenance.FlagsFromHistory` | internal/store/postgres/postgres.go:314-357 | A run’s cancel flag is set if and only if it was canceled, or superseded while running; a running run has had a job leased. |
| `Provenance.RunStatusFromHistory` | internal/store/postgres/jobs.go:231-266 | A run whose jobs have all finished has the verdict by precedence; any other is RUNNING if and only if a job was leased, CANCELED if and only if it was superseded before that, and else QUEUED. |
| `Provenance.LeasableIff` | internal/store/postgres/jobs.go:47-53 | A job can be leased if and only if the submission declares it, with no image unless the runner has docker, it was never leased, PASSED was reported for each of its needs, the run was neither canceled nor superseded, and fewer jobs run than the submission allows. |
| `LeaseRights.OwnsIff` | internal/store/postgres/jobs.go:150 | A runner holds a lease if and only if it was given it, the job was neither reported nor lost, and 30 seconds have not passed since the lease was given or renewed. |
| `LeaseRights.ReportAcceptedIff` | internal/store/postgres/jobs.go:140-166 | The holder’s report is accepted if and only if it is PASSED, FAILED, ERROR or CANCELED, and for PASSED every artifact the submission declares was committed. |
| `LeaseRights.CommitAcceptedIff` | internal/store/postgres/postgres.go:638-712 | The holder’s commit adds artifacts if and only if it is the first and names exactly the declared ones. |
| `LeaseRights.CancelAcceptedIff` | internal/store/postgres/postgres.go:314-357 | A cancellation is accepted, as of a queued or of a running run, exactly according to whether a job was leased, as long as some job is unfinished and the run was not superseded before it started. |
| `LeaseRights.ActiveIff` | internal/store/postgres/jobs.go:35-38 | A runner’s active jobs are exactly those leased to it that were neither reported nor lost. |
| `LeaseRights.FreeIff` | internal/store/postgres/jobs.go:24-41 | A runner has room if and only if its last registration was for protocol 2, no sweep found it silent since it was last heard of, and it runs fewer jobs than that registration allows. |
| `RunnerLife.RunnerFromHistory` | internal/store/postgres/jobs.go:268-300 | A runner’s row has the capabilities of its last registration and the time it was last heard of, and says online if and only if no sweep has found it silent for more than 30 seconds since. |
| `RunnerLife.RunnerKept` | internal/store/postgres/postgres.go:391-419 | A runner that registered stays known. |
| `Executions.LeasedAtMostOnce` | internal/store/postgres/jobs.go:47-77 | Over any execution no job is leased twice. |
| `Executions.CompletedAtMostOnce` | internal/store/postgres/jobs.go:140-168 | Over any execution at most one completion of a job succeeds. |
| `Executions.LeaseOrigin` | internal/store/postgres/jobs.go:70-77 | A running job was put there by exactly one earlier lease transaction, whose runner, lease id and generation its row still carries. |
| `Executions.CompletedByLeaseholder` | internal/store/postgres/jobs.go:150-166 | A completion that succeeds comes from the runner, lease and generation of that job’s one lease transaction, before the lease expired. |
| `Executions.OnlyLeaseStarts` | internal/store/postgres/jobs.go:70-77 | No transaction other than a lease makes a job RUNNING or gives it a lease. |
| `Executions.OnlyReportCancels` | internal/store/postgres/jobs.go:150-168 | A job that was ever leased becomes CANCELED only through its leaseholder’s own report. |
| `Executions.LeasedAfterDependencies` | internal/store/postgres/jobs.go:47-53 | Once a job has been leased, every job it transitively depends on has PASSED, in that and every later state. |
| `Executions.NoLeaseAfterEnd` | internal/store/postgres/jobs.go:47-53 | No job is leased from a run that is, or ever was, terminal or cancel-requested. |
| `Executions.LeaseFitsRunner` | internal/store/postgres/jobs.go:24-53 | A lease goes only to a registered, online runner of protocol 2, with docker if the run’s submission declares an image for the job, and leaves the runner within its capacity. |
| `Capacity.NoGain` | internal/store/postgres/jobs.go:18-351 | No transaction but a lease to a runner adds to its active jobs. |
| `Capacity.WithinStep` | internal/store/postgres/postgres.go:391-419 | One transaction takes a runner beyond its capacity if and only if it registers the runner with less than it is running. |
| `Capacity.WithinIffRegistrationsFit` | internal/store/postgres/postgres.go:391-419 | Over any execution a runner is within its capacity throughout if and only if each of its registrations asked for at least the number of jobs it was running at that moment. |
| `Capacity.BoundedByLastLease` | internal/store/postgres/jobs.go:35-41 | In every state a runner runs at most as many jobs as the capacity it had when it was last given one. |
| `Capacity.IdleOrLeased` | internal/store/postgres/jobs.go:35-41 | In every state a runner runs nothing or has a last lease. |
| `Capacity.WithinUnlessLowered` | internal/store/postgres/postgres.go:400-408 | Unless its capacity was lowered since its last lease, a runner is within it. |
| `Findings.LoweredCapacityIsExceeded` | internal/store/postgres/postgres.go:400-408 | A reachable state in which a runner registered again with capacity 1 has two active jobs. |
| `Executions.WithinRunLimit` | internal/store/postgres/jobs.go:47-53 | In every reachable state a run has at most its own limit of jobs running. |
| `Executions.SweepIsExact` | internal/store/postgres/jobs.go:268-300 | The sweep aborts a running job if and only if its lease has run out; a job with a live lease keeps its row. |
| `Executions.VerdictAgrees` | internal/store/postgres/jobs.go:231-266 | Supersession excluded, a run is terminal if and only if none of its jobs is PENDING or RUNNING; its status is then the ERROR, ABORTED, canceled, FAILED, PASSED precedence over jobs and cancel flag; and run and jobs never change again. |
| `Executions.VerdictIsByPrecedence` | internal/store/postgres/jobs.go:242-256 | ERROR if and only if some job errored; ABORTED if and only if none did and some job aborted; CANCELED if and only if neither and a cancellation was requested; PASSED if and only if none was requested and every job passed or was canceled; FAILED otherwise. |
| `Executions.PassedVerdict` | internal/store/postgres/jobs.go:242-256 | A finished run is PASSED if and only if no cancellation was requested and each job passed or was reported CANCELED by its leaseholder. |
| `Executions.AllPassedIffNoneReported` | internal/store/postgres/jobs.go:242-256 | In every reachable state with a PASSED run, every job passed if and only if no leaseholder of the run ever reported CANCELED. |
| `Executions.PassedMeansAllPassed` | internal/store/postgres/jobs.go:242-256 | In particular, if leaseholders report CANCELED only after a cancel request, PASSED means that every job passed. |
| `Findings.CanceledReportPasses` | internal/store/postgres/jobs.go:242-256 | A reachable state in which the only job of a run is CANCELED, nobody asked for a cancellation, and the run is PASSED: the plain claim "PASSED means all passed" is false of the code. |
| `Findings.SupersededRunStalls` | internal/store/postgres/scm_deliveries.go:122-127 | A reachable state in which a superseded run is RUNNING, runs no job and offers none to any runner. |
| `Liveness.NeverStuck` | internal/store/postgres/jobs.go:47-77 | In every reachable state a non-terminal run that was never superseded has a RUNNING job, or a PENDING one that the lease guards admit for every free runner able to run it. |
| `Liveness.StalledIffCancelRequested` | internal/store/postgres/jobs.go:47-53 | The exact condition for a stall: a non-terminal run without a running job offers no job if and only if its cancel flag is set, which happens only by supersession. |
| `Liveness.OnlyCancelUnstalls` | internal/store/postgres/postgres.go:332-357 | A stalled run stays as it is under every transaction except an explicit cancel request, which finishes it at once. |
| `Liveness.MovesAreBounded` | internal/store/postgres/jobs.go:18-351 | Over any execution, the transactions that change a job status of a run number at most the fall of its weight. |
| `Liveness.NewRunWeight` | internal/store/postgres/postgres.go:119-152 | A new run of n jobs has weight 2n, so it sees at most 2n such transactions. |
| `ArtifactAccess.LeaseholderIsServed` | internal/store/postgres/postgres.go:743-749 | Under the invariant the lookup succeeds for every download a live leaseholder’s declaration lists. |
| `ArtifactAccess.DownloadsAvailable` | internal/store/postgres/postgres.go:638-749 | Over any execution, while a job holds a live lease each declared download can be fetched, and every fetch during that lease returns the same metadata. |
| `ArtifactAccess.ServedIff` | internal/store/postgres/postgres.go:743-749 | The lookup answers if and only if the caller holds a live lease of a job that needs the producer directly and the producer declares the name; the other conditions of the query follow. |
| `ArtifactAccess.ServedOnlyToLeaseholder` | internal/store/postgres/postgres.go:743-749 | Over any execution, whoever is served was given the lease it names, which is live and unreported; the producer is among the declared needs and reported PASSED; and the metadata is what the producer’s own leaseholder committed under that name. |
| `ArtifactLife.ArtifactOrigin` | internal/store/postgres/postgres.go:638-712 | Every stored artifact was committed by the live leaseholder of its producer and has the metadata of that commit. |
| `ArtifactLife.ArtifactKept` | internal/store/postgres/postgres.go:638-712 | Every committed artifact stays stored with its metadata. |
| `ArtifactLife.ArtifactLifetime` | internal/store/postgres/postgres.go:789-824 | An artifact has no expiry and is available as long as its run has not ended; from then on it is due one retention period after the end, and deleted if and only if a sweep came by since. |
| `JobStore.Store.RegisterRunner` | internal/store/postgres/postgres.go:391-419 | Is the Register step of the protocol. |
| `JobStore.Store.CreateRun` | internal/store/postgres/postgres.go:119-152 | Is the Submit step of the protocol. |
| `JobStore.Store.LeaseJob` | internal/store/postgres/jobs.go:18-104 | Grants a job if and only if some job is admitted for the runner, and then exactly as the Lease step: one of the oldest run that has one, the smaller id and the smaller job name deciding ties; otherwise it says why and changes nothing. |
| `JobStore.FirstCandidate` | internal/store/postgres/jobs.go:47-53 | The loop returns the candidate of the run created first, then of the smaller id, then with the smaller job name. |
| `JobStore.Store.HeartbeatJobLeases` | internal/store/postgres/jobs.go:106-138 | Is the Seen step followed by one Renew step for each listed lease that was live at the start; each reply says whether its lease was, with the stored expiry and the cancel flag. An unknown runner changes nothing. |
| `JobStore.HeartbeatIsSteps` | internal/store/postgres/jobs.go:106-138 | Renewing a list of leases reaches exactly the state those protocol steps reach, each enabled in turn. |
| `JobStore.HeartbeatStores` | internal/store/postgres/jobs.go:119-136 | Afterwards the listed live leases end one full period from now, and every other row is unchanged. |
| `JobStore.RenewalsIndependent` | internal/store/postgres/jobs.go:119-136 | Renewing any list of leases one after another changes neither whether another lease is held nor any cancel flag, so replies do not depend on their order. |
| `JobStore.Store.CompleteJob` | internal/store/postgres/jobs.go:140-179 | Succeeds if and only if the Complete step is enabled (live ownership, a reportable status, committed artifacts for PASSED), and is then exactly that step. |
| `JobStore.ArtifactSetCommitted` | internal/store/postgres/jobs.go:181-217 | Comparing two sorted lists of names decides whether the live stored artifacts are exactly the declared ones. |
| `JobStore.SortedListsEqual` | internal/store/postgres/jobs.go:202-216 | Sorted duplicate-free lists with the same members are equal. |
| `JobStore.Store.FinalizeRun` | internal/store/postgres/jobs.go:231-266 | The scans over job statuses compute the verdict function, and only when no job is unfinished. |
| `JobStore.Store.ExpireJobLeases` | internal/store/postgres/jobs.go:268-300 | Is the Expire step: aborts exactly the running jobs whose lease has run out, settles each run, and marks silent runners offline. |
| `JobStore.Store.RecoverRemoteJobs` | internal/store/postgres/jobs.go:329-350 | Is the Recover step: aborts exactly the running jobs and settles each run. |
| `JobStore.Store.AbortAll` | internal/store/postgres/jobs.go:278-294 | Run by run, aborting the given jobs, blocking behind them and finalizing equals the specification applied to all runs at once. |
| `JobStore.Store.CancelQueued` | internal/store/postgres/postgres.go:314-331 | Succeeds if and only if the run is QUEUED, and is then exactly that step. |
| `JobStore.Store.RequestCancel` | internal/store/postgres/postgres.go:332-357 | Succeeds if and only if the run is RUNNING, and is then exactly that step. |
| `JobStore.Store.CommitArtifacts` | internal/store/postgres/postgres.go:638-712 | Succeeds if and only if the caller owns a live lease of a RUNNING run and offers valid items, one per declared artifact, that repeat what is stored or, if nothing is, have digests the table takes; then exactly those are stored, and a repeat changes nothing. |
| `JobStore.TryInsert` | internal/store/postgres/migrations/005_artifacts.sql:8-9 | The insertions go through if and only if every digest is in lower case, which is stricter than the decoding check before them. |
| `JobStore.CommitIsStep` | internal/store/postgres/postgres.go:638-712 | A successful commit is the CommitArtifacts step of the protocol, or no change. |
| `JobStore.CommitMeans` | internal/store/postgres/postgres.go:662-710 | After a commit that succeeds there is exactly one item for each declared artifact, of the declared root, the fixed format and sane sizes, and each item’s own metadata is what is stored under its name. |
| `JobStore.CheckItems` | internal/store/postgres/postgres.go:671-684 | The seen-map loop accepts exactly the item lists that are valid, declared and free of duplicates. |
| `JobStore.FullSet` | internal/store/postgres/postgres.go:668-684 | As many valid, distinct items as declared names means the item names are exactly the declared names. |
| `JobStore.SameArtifactSet` | internal/store/postgres/postgres.go:713-728 | The comparison by count and by name accepts exactly equal counts with every stored row matched. |
| `JobStore.StoredMatch` | internal/store/postgres/postgres.go:713-728 | That comparison decides whether the two sets are equal, names and metadata, in both directions. |
| `Scheduler.Run` | internal/runner/runner.go:93-180 | Always returns with every job finished, having gone through the steps of the loop. Its log of moves is legal: jobs start only after all needs passed, at most max(1, MaxParallel) run at once, nothing starts after the cancellation is seen, and no job fails without having run, so the internal-error fallback is never reached. It is in order: whoever is started, blocked or given up is the first in the graph’s order that could be, blocking comes before starting, and a report is awaited only when nothing else is left to do. Without cancellation the states are the ones graph and outcomes determine. If it is not interrupted, a job ended canceled if and only if the last observation is its report. |
| `Scheduler.LogInOrder` | internal/runner/runner.go:107-178 | In every trace of the loop, every entry of the log is the one due at that point. |
| `Scheduler.ScheduleDetermined` | internal/runner/runner.go:107-205 | Without a cancellation the arrival order of the reports determines the whole schedule: two complete logs with the same reports are equal. |
| `Scheduler.UnnoticedIff` | internal/runner/runner.go:107-178 | For every trace of the loop that has not noticed a cancellation: some job is canceled if and only if the last observation is a move to canceled, and then only that job is. |
| `Scheduler.InterruptedIffLooked` | internal/runner/runner.go:107-112 | In every trace of the loop the run counts as interrupted if and only if the loop looked at its context, at its head, after the cancellation. |
| `Scheduler.CancellationCanGoUnnoticed` | internal/runner/runner.go:162-177 | A trace of the loop that returns with a canceled context, a canceled job and no interruption. |
| `Scheduler.NeverOverLimit` | internal/runner/runner.go:122-136 | At every moment of a legal log at most the limit of jobs run. |
| `Scheduler.SolutionUnique` | internal/runner/runner.go:107-178 | On a graph with a topological order, "BLOCKED behind anything that did not pass, otherwise the job’s own outcome" has only one solution. |
| `Scheduler.HasFailedDependency` | internal/runner/runner.go:207-214 | True if and only if some need is failed or blocked. |
| `Scheduler.NextReadyJob` | internal/runner/runner.go:188-205 | Returns the first job in order that is pending with all needs passed, or says that there is none. |
| `Scheduler.BlockPass` | internal/runner/runner.go:114-121 | One pass in topological order turns some pending jobs into blocked ones, each with a failed or blocked need, changes nothing else, and leaves no pending job with such a need. |
| `Scheduler.Admit` | internal/runner/runner.go:122-136 | Starts pending jobs with all needs passed, each as the first such job in order, and changes nothing else; below the limit it leaves none that could start. |
| `Scheduler.NothingLeft` | internal/runner/runner.go:138-160 | If nothing runs, nothing is ready and nothing is behind a failure, every job is finished. |
| `Scheduler.CancelRest` | internal/runner/runner.go:138-146 | After cancellation, once nothing runs, exactly the pending jobs become canceled and every other job keeps its state. |
| `Scheduler.AwaitReport` | internal/runner/runner.go:162-177 | A report concerns a running job and is its own outcome unless the context is canceled. |
| `Scheduler.Succeeded` | internal/runner/runner.go:64-74 | True if and only if the run was not interrupted, met no internal error, and every job passed. |
| `Scheduler.PassesIffAllPass` | internal/runner/runner.go:64-74 | In the determined states every job passed if and only if every job passes on its own. |
| `Agreement.RemoteSolves` | internal/store/postgres/jobs.go:140-229 | In any execution, if the run has not been canceled, expired, recovered or superseded up to a state in which it is finished, the run’s job states solve the same equations. |
| `Agreement.RunInProcess` | internal/runner/runner.go:107-178 | The two schedulers agree: the in-process run of the same graph and outcomes ends in the states the lease protocol ended in, for every completion order, limit and set of runners. |
| `LeaseDeath.ActionKeeps` | cmd/forge-runner/main.go:377-443 | Every transaction, and every reply delivered in any order, late or repeatedly, keeps each promise a reply made within what the server grants. |
| `LeaseDeath.RunnerNeverOutlivesLease` | cmd/forge-runner/main.go:397-443 | In every history the expiry a runner holds for a lease is no later than the one stored for it. |
| `LeaseDeath.SweepFindsRunnerExpired` | cmd/forge-runner/main.go:377-395 | Whenever the sweep aborts a job, its runner’s own deadline condition already holds, and no reply that arrives later revives it. |
| `LeaseDeath.ReplyTellsStored` | internal/store/postgres/jobs.go:119-136 | The reply to a lease or a renewal says exactly the expiry that is stored. |
| `LeaseDeath.PromptRunnerAgrees` | cmd/forge-runner/main.go:397-443 | A runner that gets its reply before anything else happens has the same deadline as the server. |
| `LogQueue.PendingLogQueue.Enqueue` | internal/runner/log_queue.go:39-71 | Accepts exactly chunks of 1 to 64 KiB on an open, healthy queue with room, giving the next sequence number; every other outcome is characterised exactly and changes nothing. |
| `LogQueue.PendingLogQueue.PeekBatch` | internal/runner/log_queue.go:73-96 | Returns a prefix of the queue that fits the estimate and is maximal; with the protocol’s limits it is exactly min(8, queued) chunks, so a non-empty queue never peeks empty. |
| `LogQueue.FullBatchFits` | internal/runner/log_queue.go:80-92 | The base64 size estimate (section 4 of RFC 4648) of n chunks is at most 512 + 87576 n, so eight fit in 1 MiB. |
| `LogQueue.EncodedLength` | internal/runner/log_queue.go:88 | The size estimate is four characters for every three bytes begun, plus 192. |
| `LogQueue.PendingLogQueue.Ack` | internal/runner/log_queue.go:123-135 | Accepts exactly counts within the queue, removes that prefix and its bytes, and signals waiters. |
| `LogQueue.PendingLogQueue.Fail` | internal/runner/log_queue.go:137-147 | Latches the failure, waking waiters once. |
| `LogQueue.PendingLogQueue.Close` | internal/runner/log_queue.go:148-155 | Latches the close, waking waiters once. |
| `LogStore.AppendJobLogs` | internal/store/postgres/job_logs.go:59-111 | Accepts a batch if and only if it has one to eight chunks of 1 byte to 64 KiB in increasing order, those already there equal to their rows and the others following on without a gap; it then adds exactly the others, or nothing. |
| `LogStore.AppendIff` | internal/store/postgres/job_logs.go:59-111 | That is exactly when the chunk-by-chunk appends all succeed. |
| `LogStore.AppendOneContiguous` | internal/store/postgres/job_logs.go:15-57 | On rows 1 to n a chunk is stored if it is number n+1, ignored if it repeats a stored one exactly, and otherwise conflicts. |
| `LogStore.AppendWindow` | internal/store/postgres/job_logs.go:59-111 | Appending any window of a log to any prefix reaching its start yields the longer of the two prefixes, with no conflict. |
| `LogPipeline.SentIsAccepted` | cmd/forge-runner/main.go:735-778 | Every batch the uploader ever sent is accepted whenever it arrives. |
| `LogPipeline.ActionKeeps` | cmd/forge-runner/main.go:735-778 | Writing, peeking, sending, delivering late or twice, acknowledging, closing and failing each keep the pipeline invariant. |
| `LogPipeline.ExactlyOnce` | cmd/forge-runner/main.go:735-778 | In every history with requests and replies lost, duplicated or delayed, the durable rows are exactly chunks 1 to k, acknowledged <= k <= written, the queue is exactly the unacknowledged suffix within 1 MiB, and no sent batch is ever rejected. |
| `LogPipeline.DrainIsPossible` | cmd/forge-runner/main.go:735-778 | From every reachable state with the uploader at work, requests that arrive and are answered make every chunk written durable, without any other step. |
| `LogPipeline.DrainedUpToLastPeek` | internal/runner/log_queue.go:98-121 | When the uploader ends after Close, the durable rows are exactly what had been written at its last empty peek, so everything was uploaded if and only if nothing was written after that peek. |
| `LogPipeline.StrandedIff` | internal/runner/log_queue.go:98-121 | An uploader asleep on a channel not yet closed leaves in the queue exactly what was written between its peek and its check; that queue is non-empty if and only if something was. |
| `LogPipeline.WokenExactlyBy` | internal/runner/log_queue.go:98-121 | Of all steps, exactly the next write and the first close make a sleeping uploader wake. |
| `LogPipeline.WriteCanStrand` | internal/runner/log_queue.go:98-121 | For any payload, a history that leaves the uploader asleep beside a queue holding it. |
| `LogPipeline.CloseCanLoseChunks` | internal/runner/log_queue.go:98-121 | A history in which a chunk written before Close is never uploaded, for any payload: "Close implies drained" is false of the code, which looks at the queue twice. |
| `LogWriter.Writer.constructor` | internal/joblog/writer.go:22-24 | Starts at sequence 0 with no error. |
| `LogWriter.Writer.Write` | internal/joblog/writer.go:41-68 | For any bytes and any point at which store or context fails, exactly the chunks before that point become durable, once and in order; the error is latched if and only if it was the store’s. |
| `LogWriter.RemoteWrite` | cmd/forge-runner/main.go:716-733 | While the uploader takes chunks away, fails or closes the queue at any point, exactly a prefix of the bytes is accepted, in order, in consecutively numbered chunks of at most 64 KiB; it is shorter than the whole only if the queue closed or failed or the context ended during a wait. |
| `LogWriter.ListJobLogs` | internal/store/postgres/job_logs.go:113-142 | Returns exactly the rows after the cursor, in order, up to the clamped limit. |
| `LogWriter.PrintLogs` | internal/cli/run.go:206-238 | The paging loop prints exactly the concatenated payloads, each chunk once, and ends after n / 256 + 1 pages. |
| `LogRoundTrip.ReadBack` | internal/cli/run.go:206-238 | In every history of the remote log path, reading the log back prints a prefix of the bytes the job wrote, without gap or repetition, and all of them if and only if every chunk written is durable. |
| `LogRoundTrip.CompleteAfterClose` | internal/runner/log_queue.go:98-121 | After an uploader that ended because of the close, that is so if and only if nothing was written after its last empty peek. |
| `LogRoundTrip.RowsAreFirstWrites` | cmd/forge-runner/main.go:716-733 | Row by row the table holds the first writes of the job, numbered from 1, each with its own stream and bytes. |
| `Deliveries.ComputeBackoff` | internal/scmworker/worker.go:223-229 | The doubling loop with its cap and early exit computes min(base · 2^(n-1), max). |
| `Deliveries.BackoffDoubles` | internal/scmworker/worker.go:223-229 | The delay starts at the base, doubles with each attempt, and stays at the maximum once it gets there. |
| `DeliverySafety.StepKeeps` | internal/store/postgres/scm_deliveries.go:28-151 | Every statement of workers and webhooks keeps the delivery invariant. |
| `DeliverySafety.OneCommitKept` | internal/store/postgres/scm_deliveries.go:111-131 | Every step keeps at most one active commit per pull request, including a run created by a worker that races a newer webhook. |
| `DeliverySafety.ReceiveActive` | internal/store/postgres/scm_deliveries.go:115-131 | After an actionable pull request delivery its commit is the only active one; after a closing one, none is. |
| `DeliveryHistory.ActiveIff` | internal/store/postgres/scm_deliveries.go:111-131 | After a webhook that asks for a build or closes the pull request, a commit is active if and only if it is the webhook’s and the webhook asks for a build. |
| `DeliveryHistory.ReceivedIsClaimable` | internal/store/postgres/scm_deliveries.go:111-113 | A new delivery can be claimed at once if and only if it asks for a build, for a pull request or not. |
| `DeliveryHistory.DeliveryOrigin` | internal/store/postgres/scm_deliveries.go:111-113 | Repository, pull request, commit and time of a delivery are those of the webhook that brought it. |
| `DeliveryHistory.DeliveryFromHistory` | internal/store/postgres/scm_deliveries.go:28-151 | In every state a delivery is what the last change made of it: as it arrived, claimed under that claim’s token until a lease after the claim or its last renewal, processed, failed with the retry time that failure earned, or ignored for a newer one. |
| `DeliveryHistory.AttemptsAreClaims` | internal/store/postgres/scm_deliveries.go:34-41 | The attempt count is the number of claims. |
| `DeliveryHistory.ClaimableIff` | internal/store/postgres/scm_deliveries.go:34-41 | A delivery can be claimed if and only if it asked for a build and nothing happened to it since, or it failed transiently with attempts left and that delay is over, or its claim has run out. |
| `DeliveryHistory.FencedIff` | internal/store/postgres/scm_deliveries.go:54-55 | A token holds a delivery if and only if it is that of the last claim, nothing else happened since, and the lease has not run out. |
| `DeliveryHistory.ActsIff` | internal/store/postgres/scm_deliveries.go:49-94 | A worker’s statements take effect if and only if its token holds the delivery it was given for. |
| `DeliveryHistory.WorkerOrigin` | internal/store/postgres/scm_deliveries.go:28-47 | A worker’s token was given by a claim of the delivery it works on. |
| `DeliveryHistory.GivenOnce` | internal/store/postgres/scm_deliveries.go:28-47 | No token is given twice. |
| `DeliveryHistory.CreateRunIff` | internal/store/postgres/scm_triggers.go:58-99 | A worker whose token holds can create a run if and only if none was created for the delivery before and the run id is new. |
| `DeliveryHistory.TriggerOrigin` | internal/store/postgres/scm_triggers.go:58-99 | A trigger names the run a worker created for the delivery, and the repository, pull request and commit of the webhook. |
| `DeliverySafety.OneActiveCommit` | internal/store/postgres/scm_deliveries.go:111-131 | In every reachable state all open deliveries of a pull request, its QUEUED runs and its RUNNING runs without a cancel request carry one commit. |
| `DeliverySafety.ProcessedHasRun` | internal/store/postgres/scm_triggers.go:58-99 | A PROCESSED delivery has a trigger with an existing run, which no other delivery shares. |
| `DeliverySafety.OneRunPerDelivery` | internal/store/postgres/scm_triggers.go:58-99 | Over crashes, expiries and reclaims, a delivery’s trigger, once made, is never replaced. |
| `DeliverySafety.TokensStayDead` | internal/store/postgres/scm_deliveries.go:49-94 | At most one token per delivery can renew, complete, fail or create a run, and a token that lost that power never regains it. |
| `DeliverySafety.RetriesBounded` | internal/scmworker/worker.go:213-234 | A delivery is claimed again from FAILED at most MaxAttempts - 1 times. |
| `DeliverySafety.AttemptsAccounted` | internal/store/postgres/scm_deliveries.go:34-41 | Over any history every claim of a delivery is its first, a retry after a failure, or a takeover of an expired claim: the attempt count is one plus the retries plus the takeovers. |
| `DeliverySafety.AttemptsWithinLimitIff` | internal/store/postgres/scm_deliveries.go:34-41 | The attempts stay within MaxAttempts if and only if the takeovers fit in what the retries have left; without takeovers they always do. |
| `DeliverySafety.FailureSchedules` | internal/scmworker/worker.go:213-234 | A failure schedules the next attempt after exactly the backoff of its attempt count if the error is transient and attempts remain, and never otherwise. |
| `DeliverySafety.RetryWaitsForBackoff` | internal/store/postgres/scm_deliveries.go:34-41 | In every history the next claim after a failure comes only if the failure was transient with attempts left, and no earlier than min(base · 2^(n-1), max) after it. |
| `DeliverySafety.OthersKeepTheirDeliveries` | internal/store/postgres/scm_deliveries.go:115-121 | A delivery does not touch deliveries of other repositories or pull requests, nor, unless it closes the pull request, those for the same commit. |
| `DeliverySafety.OthersKeepTheirRuns` | internal/store/postgres/scm_deliveries.go:122-127 | The same for runs. |
| `Supersession.ReceiveIsSupersede` | internal/store/postgres/scm_deliveries.go:122-127 | On the status and cancel columns, receiving a delivery is the Supersede step of the lease protocol on exactly the runs its triggers select. |
| `Supersession.SupersededStallsWhenIdle` | internal/store/postgres/scm_deliveries.go:122-127 | A running run that a delivery supersedes keeps its jobs and is stalled if and only if none of them is running. |
| `DeliverySafety.ExpiryIsUnbounded` | internal/store/postgres/scm_deliveries.go:34-41 | For every n a history in which a delivery was claimed n times without one failure: reclaiming expired claims has no bound. |
| `DeliveryStore.SelectOldest` | internal/store/postgres/scm_deliveries.go:36-40 | The loop finds, among the deliveries that are due, the one received first, the smaller id deciding ties, or that there is none. |
| `DeliveryStore.Store.CreateDelivery` | internal/store/postgres/scm_deliveries.go:96-151 | A new id is exactly the Receive step, supersession included; a known id changes nothing and is a replay if and only if the payload is the same. |
| `DeliveryStore.Store.ClaimDelivery` | internal/store/postgres/scm_deliveries.go:28-47 | Claims the oldest delivery that is due under a fresh token, as exactly the claim step; rejects exactly malformed requests; otherwise nothing was due. |
| `DeliveryStore.Store.RenewClaim` | internal/store/postgres/scm_deliveries.go:49-62 | Applies if and only if the lease is positive and the token still holds the delivery, and then moves only the expiry; for the worker the token was given to it is exactly the renewal step. |
| `DeliveryStore.Store.CompleteDelivery` | internal/store/postgres/scm_deliveries.go:64-78 | Applies if and only if the status is PROCESSED or IGNORED and the token still holds the delivery; for a worker that has seen or made the trigger it is exactly the completion step. |
| `DeliveryStore.Store.FailDelivery` | internal/store/postgres/scm_deliveries.go:80-94 | Applies if and only if the token still holds the delivery; the row becomes FAILED with the given retry time and no claim. |
| `DeliveryStore.Store.CreateScmRun` | internal/store/postgres/scm_triggers.go:58-99 | Run and trigger appear together if and only if the token still holds the delivery, which has no trigger yet, and the run id is new; for the worker the token was given to it is exactly the creation step. |
| `DeliveryStore.FailAttempt` | internal/scmworker/worker.go:213-234 | The worker’s failure path, backoff included, is exactly the Fail step. |
| `CacheEviction.CacheStore.ExpireCache` | internal/store/postgres/cache.go:105-167 | Afterwards a row is deleted if and only if it was, is past its expiry, or has an evicted digest. With a limit, the unique live bytes are within it; nothing is evicted that fits; of every evicted digest some row was last used no later than any row that stays; and the result lists, sorted, exactly the digests no live row uses. |
| `CacheEviction.ChooseEvictions` | internal/store/postgres/cache.go:130-155 | The loop takes the least recently used digests until its running total fits or there are no more, the total counting of each digest its least recently used row. |
| `CacheEviction.EvictedUsedNoLater` | internal/store/postgres/cache.go:131-150 | Of every digest that goes, some live row was last used no later than any row that stays. |
| `CacheEviction.ChosenFits` | internal/store/postgres/cache.go:130-160 | What is chosen always makes room, even when rows of one digest differ in size. |
| `CacheEviction.MinimalIffRepresentative` | internal/store/postgres/cache.go:130-155 | With positive sizes: for every budget no shorter run of least recently used digests would do, if and only if the least recently used row of each digest but the last carries its largest size. The "if" needs no assumption on sizes. |
| `CacheEviction.EvictionCanOvershoot` | internal/store/postgres/cache.go:130-155 | Three rows and a budget for which two digests are evicted although the first alone makes room. |
| `CacheEviction.TotalBytes` | internal/store/postgres/cache.go:115-129 | Adding the grouped maxima in any order gives the unique live bytes. |
| `CacheEviction.BytesWithout` | internal/store/postgres/cache.go:156-160 | Deleting every entry of the evicted digests removes exactly their bytes. |
| `CacheEviction.UnreferencedBlobs` | internal/store/postgres/cache.go:169-184 | Exactly the digests of deleted entries that no live entry shares, sorted and distinct. |
| `Extraction.SafeName` | internal/snapshot/snapshot.go:528-534 | A name that passes the path check splits into ordinary components only. |
| `Extraction.CheckedLink` | internal/snapshot/snapshot.go:467-473 | A target that passes both link checks is relative, climbs only at its start, and no higher than the destination. |
| `Extraction.StepStaysInside` | internal/snapshot/snapshot.go:419-431 | One component of a physical lookup, through directories and links, stays inside; following an absolute link is leaving. |
| `Extraction.NeverOutside` | internal/snapshot/snapshot.go:467-497 | From any directory of such a tree, any path without ".." can be followed through any chain of links for any number of steps and never leaves the destination. |
| `Extraction.EscapingLinkLeaves` | internal/snapshot/snapshot.go:535-537 | A link that is absolute, or climbs higher than its directory is deep, takes the lookup of its own path outside, whatever else the tree holds. |
| `Extraction.LinkOkIffNeverOutside` | internal/snapshot/snapshot.go:467-473 | Among links otherwise safe, a clean target meets the rule of the two checks if and only if no number of steps of the lookup of that link leads outside. |
| `Extraction.SafeNameIff` | internal/snapshot/snapshot.go:528-534 | The names accepted are exactly the lists of ordinary components without control characters. |
| `Extraction.SafeLinkIff` | internal/snapshot/snapshot.go:535-537 | The link targets accepted are exactly "." and any number of ".." followed by ordinary components, without control characters. |
| `Extraction.LinkAcceptedIff` | internal/snapshot/snapshot.go:467-473 | Of these a link is accepted if and only if the target climbs no higher than the link is deep. |
| `Extraction.AcceptedIffNeverOutside` | internal/snapshot/snapshot.go:467-473 | A control-free absolute or clean link is accepted if and only if following it never leaves the destination. |
| `Extraction.AcceptedIff` | internal/snapshot/snapshot.go:419-478 | Exactly which entries are accepted, name, kind and target together. |
| `Unpack.SafeParents` | internal/snapshot/snapshot.go:500-526 | Creates the missing parents if and only if no existing node on the way is a file or link. |
| `Unpack.Place` | internal/snapshot/snapshot.go:428-465 | Creates a node if and only if nothing placed so far obstructs it and it obstructs nothing. |
| `Unpack.PlaceEntries` | internal/snapshot/snapshot.go:405-482 | The first pass succeeds if and only if all entries are acceptable and their files, directories and link parents do not obstruct each other. |
| `Unpack.PlaceLinks` | internal/snapshot/snapshot.go:489-496 | The second pass succeeds if and only if the links and everything placed before do not obstruct each other. |
| `Unpack.CompatibleIffNoneObstructed` | internal/snapshot/snapshot.go:400-496 | The passes find no obstruction if and only if no entry lies at or below another that is not a directory, whatever the order of the entries. |
| `Unpack.Extract` | internal/snapshot/snapshot.go:372-498 | Succeeds if and only if every entry passes the lexical checks and none lies at or below another that is not a directory; the tree then holds exactly the entries and the directories above them. |
| `Unpack.UnpackedLinksOk` | internal/snapshot/snapshot.go:467-497 | In an extracted tree every link obeys the rule that makes lookups safe. |
| `Unpack.EntriesStayInside` | internal/snapshot/snapshot.go:467-497 | Following the path of any extracted entry, for any number of steps, never leaves the destination. |
| `Unpack.FoundWhereListed` | internal/snapshot/snapshot.go:372-498 | After a successful extraction, the lookup of each entry’s path arrives at the file, enters the directory, or goes on to the link’s target from the directory the link lies in. |
| `Paths.CleanFixedPoint` | internal/snapshot/snapshot.go:528-537 | A path equal to its own cleaned form is canonical: ".." only in front, no empty or "." components. |
| `Paths.CleanIff` | internal/snapshot/snapshot.go:528-537 | Cleaning leaves a path alone if and only if it is "." or leading ".." followed by ordinary names. |
| `Paths.CleanIdempotent` | internal/snapshot/snapshot.go:528-537 | Cleaning twice is cleaning once. |
| `Paths.CleanFrom` | internal/snapshot/snapshot.go:467-473 | Cleaning a target joined to a directory takes away a component for each leading ".." and adds the rest. |
| `Paths.EscapeIsVisible` | internal/snapshot/snapshot.go:467-473 | A target with more leading ".." than its directory is deep still shows a leading ".." after joining and cleaning. |
| `Wakeup.NothingFound` | internal/runnerproto/handlers.go:340-351 | When the lease query returns nothing there is no job for that runner’s capabilities. |
| `Wakeup.SilentWork` | internal/controlplane/manager.go:103-117 | A transaction that its caller follows with no Notify, other than creating a run, brings no parked poller work. |
| `Wakeup.QuietWork` | internal/scmworker/worker.go:184-195 | A run created by a delivery worker that sends no Notify brings a parked poller no work but in that run. |
| `Wakeup.NoLostWakeup` | internal/runnerproto/handlers.go:340-376 | In every history, for any number of pollers and notifiers, a parked poller for whose capabilities, as its query read them, there is work in a run that was not created quietly since has had its channel closed, or a Notify is still on its way. |
| `Wakeup.MissedIff` | internal/runnerproto/handlers.go:340-376 | A parked runner that nobody has woken or is about to could be given a job if and only if it is online with room and there is a job for it that its query could not have found: of a run created quietly since, or needing the docker or the capacity it registered since. |
| `Wakeup.MissedIffQuietlyMade` | internal/scmworker/worker.go:184-195 | The runs a parked poller missed are exactly those created quietly during the time it has been parked. |
| `Wakeup.QuietRunIsMissed` | internal/scmworker/worker.go:190-192 | A reachable state in which a runner stays parked, unsignaled, beside the job of a run created from a delivery whose completion failed. |
| `Wakeup.NoLostWakeupUnlessUpgraded` | internal/runnerproto/handlers.go:340-376 | For the runner as it is registered now: unless it registered with more capacity or with docker since it asked, only a run created quietly can be missed. |
| `Wakeup.UpgradeIsNotSignaled` | internal/store/postgres/postgres.go:391-419 | A reachable state in which a runner that registered again with docker stays parked, unsignaled, beside a job it could be given. |
| `Wakeup.EveryCommitReachesPoller` | internal/controlplane/manager.go:103-117 | Of every commit made while a poller waits, either the poller’s channel has been closed since or that commit’s own Notify is still due. |

## Left out

- HTTP routing, JSON decoding, authentication, TLS, command-line commands other than log paging, the web site: interface plumbing.
- Docker and local executors, git, and what a job's steps do: a job is an outcome that arrives some time after it started.
- Legacy run-level leases and the legacy branch of recovery: not reached by protocol version 2.
- Isolation levels, SKIP LOCKED and collation: each transaction is one atomic step, and SQL and Go order names alike.
- The database clock and the server's clock are one clock.
- The local executor's path through CommitArtifacts with an empty runner id, UpdateJob and FinishRun: the in-process scheduler is modelled without its persistence.
- YAML parsing and the wording and order of validation errors: validation here says accepted or not. A download is identified by the pair of producer and name instead of their concatenation, which the name patterns make the same.
- Size, entry and byte limits, file modes, gzip, tar, digests and the closing digest check of extraction.
- CacheEviction.MinimalIffRepresentative: the "only if" assumes positive archive sizes, which every gzip archive has; a digest of size zero can be evicted without being needed.
- Blob files on disk and their garbage collection against concurrent uploads: digests are names.
- GitHub check reporting, App tokens, webhook signatures, repository validation, source preparation: a prepared run carries its delivery's repository, pull request and commit.
- CommitCache, LookupCache and the list queries: single statements without further law.
- Recovery is taken to happen before the first poll in `Wakeup`, as the server does at startup.
- LogQueue.PendingLogQueue.Enqueue: one pass under the lock; the wait for room and the retry are in `LogWriter.RemoteWrite` and the wait for chunks in `LogPipeline`.
- `Heartbeat` bodies and the runner's map of active leases: `LeaseDeath` keeps, per lease, the expiry the runner last adopted.
- Unpack.Extract: starts from an empty destination, as the callers provide.
