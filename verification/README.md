# Deployment control plane: verified model

A model in Dafny of the parts of the console that decide what is deployed, what is logged and what may be deleted, with
proofs of what they promise. Three protocols meet in it.

**Deployment runs.** A planner classifies the units of an application release against the states of the nodes, sorts
them and hashes the plan (`Planning`, `PlanMeaning`, `LoadedPlans`, `Waves`). A run works through its plan in waves, under a parallel limit, and stops
at a failure or a cancellation (`Runs`, `Executor`). Around it stand creation, claim, persisting, closing, cancellation,
recovery after a restart, an operator's confirmation and internal errors. `RunSafety` proves an invariant of one run under
every step, `RunHistories` proves what follows over whole histories, and `Convergence` proves that what the executor
writes back agrees with what the planner reads next.

**Step logs.** Output passes a streaming redactor (`Redaction`, `Streaming`, `StreamingRedactor`, `RedactionSafety`;
`RedactionMeaning` states its laws byte by byte), a bounded channel that may drop and counts what it drops (`LogWriter`), a
second redactor, and head and tail buffers that share one budget per task (`LogBuffers`, `StepLogs`); checkpoints of the
buffers may arrive in any order (`LogCheckpoints`). `LogSafety` joins redaction and storage. `CommandCapture` is the
fixed-size capture of a command's output.

**Releases and cleanup.** Application releases inherit from base releases; runs, runtime states and manifests refer to
unit releases, whose packages a cleaner reclaims in several steps (`Tables`, `Manifests`).

`Tables` holds the database as a value and every transaction as a function on it; `Next` is one event of the whole system
and `History` any sequence of events: registrations, releases, runs of many environments step by step, cancellations,
errors, crashes, restarts, cleanups. `Invariants` states what always holds, `ReleaseSafety`, `Manifests`, `RunTables` and
`DeploySafety` prove that every event keeps it, and `SystemSafety` and `ArtifactLives` draw the conclusions.
`ReleaseDecisions` and `RunDecisions` say of a transaction when it goes through, how it is refused and which rows it leaves,
in terms of the rows before. `Store` and `Executor` are the same transactions and loops as classes that update their fields,
each method proved to do what its function says.

How the model reads the source:

- A SQLite transaction is one atomic step. What comes back from a unit, which unit comes back first, when a signal
  arrives, and whether a package could be deleted are free choices, so the results hold for all of them.
- A run's executor lives in memory (`Driver`) and dies with the process. An executor that returns an error ends its run
  through the internal-error path; a crash does not, and its run waits for an operator.
- A digest is identified with what it digests, so two digests are equal exactly when their contents are. Stored JSON is
  read back unchanged.
- Some fields are history, kept only so that results can be stated: the targets and states a plan was made from, the
  units a release changed, the last run of an environment, the parallel limit read at the claim.
- References from tables that are not modelled (queues, tasks, older run tables, log rows) appear as the argument `held`.

Three results correct a first reading of the code. Redaction in chunks equals redaction of the whole stream exactly when no
sensitive assignment that the scan meets is longer than the window (`Streaming.ChunkingExact`); `Streaming.ChunkingMatters`
is a stream where it differs. Second, a run whose units all succeeded is reported as a success only if its executor lives to
close it (`RunHistories.EndsInSuccess`); `RunHistories.CrashHidesSuccess` is a history where it does not. Third, registering
a package that was deleted reports success with a release that no manifest may select (`ArtifactLives.RegisteredSelectable`,
`ArtifactLives.ReregisteringMayFail`).

Verify with `dafny verify dfyconfig.toml`, adding `--resource-limit 2000000`.

## Model

| member | source | states |
|---|---|---|
| Planning.PlanIsCanonical | api/src/deployment_orchestrator.rs:1798-1896 | a plan, its hash included, does not depend on the order of units and states, nor on order or repetition of node ids |
| Planning.PlanItems | api/src/deployment_orchestrator.rs:1825-1873 | a plan has exactly one item per target unit, in ascending order, and the target nodes sorted without repetition |
| Planning.BuildSucceeds | api/src/deployment_orchestrator.rs:1801-1839 | a plan is made exactly when there are nodes and units, no state and no unit is given twice, and every unit's status is known and has the package it needs |
| PlanMeaning.ActionDecided | api/src/deployment_orchestrator.rs:1898-1971 | the cascade of tests decides each action by a condition of its own on status, mode and known states, and no other action |
| PlanMeaning.DirectionIsMeant | api/src/deployment_orchestrator.rs:1955-1965 | an upgrade leaves every known version below the target, a downgrade every known version above it, and knows one |
| PlanMeaning.PreviousShared | api/src/deployment_orchestrator.rs:1973-1985 | the previous fingerprint is the one all known nodes share |
| PlanMeaning.PlanOrder | api/src/deployment_orchestrator.rs:1860-1873 | stops first, later stages and greater removal orders before smaller ones; then the rest by rising stage and unit order; ties go by the unit id; all as the target units say |
| PlanMeaning.ItemIsMeant | api/src/deployment_orchestrator.rs:1825-1985 | every item of a built plan: the fields of its target, the one reason that applies under the plan's own mode and the states given, the action that answers it, and the fingerprint all those states share |
| PlanMeaning.KnownStates | api/src/deployment_orchestrator.rs:1841-1845 | the states an item is decided on are exactly those given of its unit on the plan's nodes |
| PlanMeaning.PlanIsMeant | api/src/deployment_orchestrator.rs:1860-1896 | a plan is for what was asked, has one item per target and rising nodes without repetition, and its hash digests all of it |
| PlanMeaning.BuildRefuses | api/src/deployment_orchestrator.rs:1801-1840 | a plan is refused for the first thing that is wrong, in the order of the tests |
| LoadedPlans.LoadPlanDecided | api/src/deployment_orchestrator.rs:1640-1756 | loading fails as not found exactly when environment and release do not go together, as invalid exactly when there is no node or no unit, and otherwise gives the plan of just the rows that concern it |
| LoadedPlans.LoadedItem | api/src/deployment_orchestrator.rs:1689-1745 | each item of a loaded plan carries package and places of its manifest entry and a fingerprint that takes in the environment's configuration, and its action follows from the rows about the environment's nodes |
| Planning.CollectStates | api/src/deployment_orchestrator.rs:1813-1824 | indexing the states succeeds exactly when no unit and node has two |
| Planning.CollectItems | api/src/deployment_orchestrator.rs:1825-1858 | the loop over target units yields the item of each, or the first objection |
| Planning.BuildDeploymentPlan | api/src/deployment_orchestrator.rs:1798-1896 | the planner as it runs computes the specified plan or error |
| Waves.ComputeWaves | api/src/deployment_orchestrator.rs:1208-1232 | the loop over executable items computes the specified waves |
| Waves.WaveDecomposition | api/src/deployment_orchestrator.rs:1208-1232 | the waves concatenate to the executable items; stop waves come first with falling stages, the others follow with rising stages, and each wave holds every executable item of its stage and kind |
| Waves.PlanWaves | api/src/deployment_orchestrator.rs:1860-1873 | the same, concatenation, order and completeness, holds of the waves of every plan the planner makes |
| RunSafety.StepKeeps | api/src/deployment_orchestrator.rs:466-1193 | every step of a run, its executor, its operators and a restart keeps the run's invariant |
| RunSafety.StartUnitKeeps | api/src/deployment_orchestrator.rs:1306-1366 | starting the next pending unit keeps wave barrier, order and parallel limit |
| RunSafety.StartUnitKeepsRows | api/src/deployment_orchestrator.rs:1314-1331 | the row of the next pending unit is pending, so its start is never refused, and it is the one row that becomes in progress |
| RunSafety.JoinKeeps | api/src/deployment_orchestrator.rs:1274-1294 | storing what a unit came back with keeps the invariant |
| RunSafety.CountersPartition | api/src/deployment_orchestrator.rs:1496-1517 | the three counters part the units of a run that has nothing left to do, and the last two are zero exactly when all is well |
| RunHistories.ScheduledThroughout | api/src/deployment_orchestrator.rs:1234-1366 | at every point of every history of a planned run: units start in plan order, a unit starts only after every unit of every earlier stage has succeeded, and no more run at once than the limit read at the claim, or one |
| RunHistories.StartedAtMostOnce | api/src/deployment_orchestrator.rs:1314-1331 | no history starts a unit twice |
| RunHistories.NothingStartsAfterHalt | api/src/deployment_orchestrator.rs:1250-1260 | once a failure or cancellation has been seen, no history starts another unit |
| RunHistories.NothingStartsAfterSignal | api/src/deployment_orchestrator.rs:1249-1254 | once the signal is raised, or a request is stored between two waves, no unit is started beyond those being started at that moment |
| RunHistories.CancelDecided | api/src/deployment_orchestrator.rs:561-704 | a request is stored in a running run, ends a queued one with its pending units not started, and leaves any other run alone |
| RunHistories.FailureHalts | api/src/deployment_orchestrator.rs:1277-1281 | a stored failure, unknown outcome or skipped start means the executor has seen it |
| RunHistories.StartIsSafe | api/src/deployment_orchestrator.rs:1254-1260 | when a unit is started no unit has failed or been lost, no cancellation was seen, and there was room |
| RunHistories.StatusMovesOn | api/src/deployment_orchestrator.rs:584-588 | no run goes back to an earlier status, and a terminal status never changes |
| RunHistories.ClaimedAtMostOnce | api/src/deployment_orchestrator.rs:1135-1193 | no history claims a run twice |
| RunHistories.InterruptedUntilConfirmed | api/src/deployment_orchestrator.rs:706-908 | a run that lost its executor to a crash stays open until an operator confirms that it has stopped |
| RunHistories.Accounting | api/src/deployment_orchestrator.rs:514-540 | a queued run has only pending and skipped units; a run that is over or being reconciled has none left and its counters part its units |
| RunHistories.FinalizeReports | api/src/deployment_orchestrator.rs:1490-1517 | the status the executor reports, in terms of the rows: success exactly when every unit succeeded or was skipped |
| RunHistories.CrashOutcome | api/src/deployment_orchestrator.rs:706-929 | crash, restart and confirmation: units under way become unknown, pending ones not started, the others stand, and the run's status follows from what it had reached |
| RunHistories.RecoverDecided | api/src/deployment_orchestrator.rs:706-872 | what a restart makes of a queued, a running and any other run |
| RunHistories.ErrorOutcome | api/src/deployment_orchestrator.rs:1006-1058 | an internal error and its clean-up cut a run short in the same way |
| RunHistories.BrokenDecided | api/src/deployment_orchestrator.rs:1006-1132 | likewise when the run is still queued; a run that somebody else has ended is left alone |
| RunHistories.CanceledBeforeClaim | api/src/deployment_orchestrator.rs:613-640 | a run canceled before it was claimed is over, and no history starts any of its units |
| RunHistories.EndsInSuccess | api/src/deployment_orchestrator.rs:1510-1518 | the exact condition of success: all units are well and it is the executor that ends the run |
| RunHistories.CrashHidesSuccess | api/src/deployment_orchestrator.rs:909-929 | a history in which every unit succeeded and the run is reported as a partial failure |
| Executor.RunExecutor.ExecuteRun | api/src/deployment_orchestrator.rs:466-540 | whatever other tasks do, and whatever the units come back with, the loop over waves takes only steps of the model, always ends, and leaves every unit skipped, not started or with its own outcome; the run is a success exactly when all units are well, and, if nobody cancels, exactly when all of them work |
| Executor.RunExecutor.ExecuteWave | api/src/deployment_orchestrator.rs:1234-1304 | the loop over one wave ends and reports cancellation before failure before success |
| Executor.RunExecutor.StartUnits | api/src/deployment_orchestrator.rs:1254-1273 | the inner loop starts units, and stops only when something went wrong, the limit is reached or none is pending |
| Executor.RunExecutor.StartUnitResult | api/src/deployment_orchestrator.rs:1306-1331 | the row of the first pending unit is pending and becomes in progress |
| Executor.RunExecutor.PersistUnitOutcome | api/src/deployment_orchestrator.rs:1381-1424 | the row of a unit that came back is in progress and takes its outcome |
| Executor.RunExecutor.Others | api/src/deployment_orchestrator.rs:561-704 | what other tasks do between two steps of the executor is stored and signaled, and nothing else happens to the run |
| SystemSafety.Always | api/src/deployment_retention.rs:989-1122 | the invariant of all tables holds after every history from an empty database |
| SystemSafety.NextKeeps | api/src/deployment_orchestrator.rs:324-1132 | every event keeps the invariant of all tables |
| SystemSafety.EnvironmentLock | api/src/deployment_orchestrator.rs:334-351 | in no history do two runs of one environment stay open at once |
| SystemSafety.InterruptedHoldsLock | api/src/deployment_orchestrator.rs:334-348 | an interrupted run keeps its environment locked through everything but its confirmation: no run can be created there |
| SystemSafety.TerminalForever | api/src/deployment_orchestrator.rs:1016-1025 | in the whole system, too, a run that is over keeps its status |
| SystemSafety.HistoryProjects | api/src/deployment_orchestrator.rs:466-1193 | inside the system every run goes through a history of its own steps, so the results about single runs apply |
| SystemSafety.EveryRun | api/src/deployment_orchestrator.rs:1234-1517 | at every point of every history every run is scheduled as promised and accounts for all of its units |
| SystemSafety.ArtifactSafety | api/src/deployment_retention.rs:1183-1238 | after every history, what a manifest, a runtime state or a run with its snapshot refers to is present |
| SystemSafety.CleanupNeverBlocked | api/src/deployment_retention.rs:182-190 | an artifact being deleted, or that could not be deleted, has no blockers: cleanup can be begun again |
| SystemSafety.ReleaseLoads | api/src/deployment_runtime.rs:468-490 | the package of every unit under way is present and belongs to the unit; a unit without one is being stopped |
| SystemSafety.ReleasesInUse | api/src/deployment_retention.rs:1265-1345 | the releases of open runs and the current releases are there and ready, those of all runs and all bases are there |
| SystemSafety.CodesGrow | api/src/application_releases.rs:491-515 | later unit releases of a unit, and later releases of an application, have greater version codes and other versions, and no two releases have the same manifest |
| SystemSafety.PreviewedIsExecuted | api/src/deployment_orchestrator.rs:356-360 | a run created for the hash of a plan previewed at any earlier time carries that very plan |
| RunDecisions.CreateRunDecided | api/src/deployment_orchestrator.rs:324-455 | a run is created exactly when the environment has no queued, running or reconciling run and the tables give a plan with the confirmed hash; the error of every refusal; and what the new run looks like |
| RunDecisions.PreviewCanRun | api/src/deployment_orchestrator.rs:334-351 | after every history, an environment whose runs are all over accepts the plan that is previewed for it |
| RunDecisions.ClaimDecided | api/src/deployment_orchestrator.rs:1135-1193 | a claimed run has its environment's parallel limit, at least one, and sees the cancellation asked for before |
| RunDecisions.JoinDecided | api/src/deployment_orchestrator.rs:1368-1488 | a unit's row takes its outcome; if it worked each node of the plan gets exactly the state it was brought to, and no other state changes |
| RunDecisions.CurrentDecided | api/src/deployment_orchestrator.rs:1490-1638 | of all events only the success of a run of the environment changes its current release, to that run's release |
| RunDecisions.CurrentIsLastSuccess | api/src/deployment_orchestrator.rs:1490-1638 | after every history the current release is that of the environment's last run that ended in success |
| SystemSafety.RegisterIdempotent | api/src/application_releases.rs:191-215 | registering the same package again changes nothing and gives the same release, another package of that version is refused |
| ArtifactLives.ArtifactNext | api/src/deployment_retention.rs:989-1105 | of all events only the beginning and the end of its own cleanup change an artifact, and they change its status alone |
| ArtifactLives.CleanupFinishes | api/src/deployment_retention.rs:1015-1105 | a cleanup that may begin is not undone by anything that happens while the package is being removed: its outcome is then stored, and nothing refers to the artifact |
| ArtifactLives.RegisteredSelectable | api/src/application_releases.rs:191-215 | the release that registering reports can be selected for a manifest exactly when the version is new or its package is present |
| ArtifactLives.DeletedForGood | api/src/application_releases.rs:191-215 | a version whose package was deleted is lost: after any later history registering the package again succeeds and changes nothing, and every change that asks for the release is refused |
| ArtifactLives.ReregisteringMayFail | api/src/application_releases.rs:191-215 | a history after which registering succeeds with a release that cannot be selected |
| Convergence.SuccessConverges | api/src/deployment_orchestrator.rs:1443-1485 | after every history: if the last run of an environment, in either mode, ended in success, the next normal plan for its release and nodes is made and skips every unit |
| Convergence.RetryMinimality | api/src/deployment_orchestrator.rs:1898-1971 | after every history: whatever became of the last run of an environment, if it was a normal one, the next normal plan for its release and nodes has the same actions, except that exactly the units that succeeded are skipped |
| Convergence.RetryCoversUnits | api/src/deployment_orchestrator.rs:1825-1858 | and it has the same units |
| Convergence.WrittenIsSkipped | api/src/deployment_orchestrator.rs:1443-1485 | the states a success writes on all nodes make the planner skip the unit |
| DeploySafety.JoinFacts | api/src/deployment_orchestrator.rs:1402-1415 | the unit that comes back is an item of its run's plan, its row is in progress, its package is present, and its run is the last of its environment |
| DeploySafety.JoinWorkedKeeps | api/src/deployment_orchestrator.rs:1443-1485 | writing runtime states back keeps what planner and cleaner rely on |
| DeploySafety.ReferencedIsPresent | api/src/deployment_retention.rs:1196-1230 | whatever blocks the cleanup of an artifact means that the artifact is present |
| Manifests.InheritedEntry | api/src/application_releases.rs:286-350 | along every chain of bases each entry is that of the latest release that changed the unit, and so is every entry between |
| Manifests.Resolved | api/src/application_releases.rs:296-395 | a new release covers exactly the application's units and enabled environments; changed units get what their change asks for, the others what the base has; selected environments get the revision selected, the others the base's |
| Manifests.ResolvedOk | api/src/application_releases.rs:622-690 | every active entry names a present release of its own unit, and its fingerprint digests status and checksum |
| Manifests.ApplyDistinct | api/src/application_releases.rs:297-302 | no unit is changed twice |
| Manifests.CreateReleaseKeeps | api/src/application_releases.rs:260-489 | creating a release keeps the invariant of all tables |
| ReleaseDecisions.CreateReleaseDecided | api/src/application_releases.rs:260-489 | a release is created exactly when its version is new, its changes and selections are allowed and with the base cover the application, and no release has the manifest asked for; that manifest is what is stored, each changed unit with its status, package, places in the pipeline and fingerprint |
| ReleaseDecisions.RegisterDecided | api/src/application_releases.rs:174-258 | the answer to every registration, and the one row that a new version adds |
| Store.Database.AllocateUnitCode | api/src/application_releases.rs:491-515 | the counter hands out the next code and moves on by one |
| Store.Database.AllocateAppCode | api/src/application_releases.rs:491-515 | likewise for applications |
| Store.Database.RegisterUnitRelease | api/src/application_releases.rs:174-258 | registering is idempotent for the same package, refused for another package of a known version, and otherwise adds one artifact |
| Store.Database.ApplyUnitChanges | api/src/application_releases.rs:295-346 | the loop over changes computes the specified entries or refuses |
| Store.Database.ApplyConfigSelections | api/src/application_releases.rs:358-375 | likewise for configuration selections |
| Store.Database.CreateApplicationRelease | api/src/application_releases.rs:260-489 | the tables and the result are those of the specified transaction |
| Store.Database.LoadDeploymentPlan | api/src/deployment_orchestrator.rs:1640-1756 | whatever order the rows are listed in, the plan loaded is the specified one |
| Store.Database.CreateDeploymentRun | api/src/deployment_orchestrator.rs:324-455 | the tables and the result are those of the specified transaction |
| Store.Database.ClaimDeploymentRun | api/src/deployment_orchestrator.rs:1135-1193 | a queued run with a queued task is claimed, any other is not |
| Store.Database.WriteRuntimeStates | api/src/deployment_orchestrator.rs:1443-1485 | the loop over nodes leaves the written state on each of them and nothing else changed |
| Store.Database.PersistUnitOutcome | api/src/deployment_orchestrator.rs:1368-1488 | row and runtime states are those of the specified transaction |
| Store.Database.FinalizeDeploymentRun | api/src/deployment_orchestrator.rs:1490-1638 | status, task and current release are those specified; success exactly when all units are well |
| Store.Database.RequestCancellation | api/src/deployment_orchestrator.rs:561-704 | refused unless queued or running, repeated without effect, and a queued run is over at once |
| Store.Database.ReconcileInterruptedRuns | api/src/deployment_orchestrator.rs:706-872 | the two loops recover every run, and leave none queued or running |
| Store.Database.ConfirmInterruptedRunStopped | api/src/deployment_orchestrator.rs:874-1004 | only a run being reconciled is confirmed, with the status its rows give |
| Store.Database.FailRunOnInternalError | api/src/deployment_orchestrator.rs:1006-1132 | a queued or running run whose task failed is ended, any other is left |
| Store.Database.CleanupArtifact | api/src/deployment_retention.rs:989-1105 | cleanup is refused for referenced and deleted artifacts and otherwise ends deleted or failed |
| Store.Database.RecoverDeletingArtifacts | api/src/deployment_retention.rs:1107-1122 | the loop takes up every begun cleanup, none is refused, and no artifact is left being deleted |
| Store.Database.ArchiveApplicationRelease | api/src/deployment_retention.rs:897-942 | archiving is refused for current releases and for releases with open runs |
| Store.Database.DeleteApplicationRelease | api/src/deployment_retention.rs:944-987 | deleting needs an archived release that is no current release, no base and has no run |
| Store.Database.DeleteDeploymentSnapshot | api/src/deployment_retention.rs:1124-1181 | the snapshot of a run that is over is erased together with its references |
| Store.Database.DeleteDeploymentHistory | api/src/deployment_retention.rs:815-880 | a run is removed only when it is over and its snapshot erased |
| RunDecisions.SnapshotDecided | api/src/deployment_retention.rs:1124-1181 | when a snapshot is erased, with which error it is refused, and that no row of the run names a package afterwards |
| RunDecisions.HistoryDecided | api/src/deployment_retention.rs:815-880 | when a run is removed, and with which error it is refused |
| RunDecisions.ArchiveDecided | api/src/deployment_retention.rs:897-942 | when a release is archived, and with which error it is refused |
| RunDecisions.DeleteReleaseDecided | api/src/deployment_retention.rs:944-987 | when a release is deleted, and with which error it is refused |
| RunDecisions.CleanupDecided | api/src/deployment_retention.rs:1183-1238 | a cleanup may begin exactly when the package is not deleted and no manifest, state or snapshot names it, and ends deleted or failed |
| Streaming.ChunkingExact | api/src/deployment_retention.rs:1786-1838 | redaction in chunks equals redaction of the whole stream, for every chunking of every prefix, exactly when no sensitive assignment met by the scan outgrows the window |
| Streaming.StreamRefines | api/src/deployment_retention.rs:1795-1838 | pushing chunks and finishing writes what one scan of the whole stream writes |
| Streaming.HeldBack | api/src/deployment_retention.rs:1795-1838 | a push keeps back no more than the window, unless an assignment prefix reaches into it |
| Streaming.OverlapSpelled | api/src/deployment_retention.rs:1763-1784 | the window is as wide as the longest secret or the least width ask for, and no wider |
| Streaming.BoundedRunsConform | api/src/deployment_retention.rs:1840-1863 | it is enough that no key with its blanks and separator is longer than the window |
| Streaming.ChunkingMatters | api/src/deployment_retention.rs:1824-1832 | a stream on which chunked and whole redaction differ |
| Redaction.StepWindow | api/src/deployment_retention.rs:1795-1838 | a decision taken on more than the overlap is the decision on the whole stream |
| Redaction.ScanIgnoresOrder | api/src/deployment_retention.rs:1763-1784 | redaction depends on the set of secrets, not on their order or repetition |
| RedactionSafety.NoSecretSurvives | api/src/deployment_retention.rs:1795-1867 | no secret that redaction can hide occurs anywhere in redacted text |
| RedactionSafety.NoSecretInStream | api/src/deployment_retention.rs:1786-1838 | nor in a stream redacted in chunks |
| LogSafety.NoSecretStored | api/src/deployment_retention.rs:1641-1745 | when nothing is dropped before the buffer, at every point of the stream neither the stored head nor the stored tail holds a secret that redaction can hide, whatever shares the task's budget |
| RedactionSafety.MarkerPieceShows | api/src/deployment_retention.rs:1818-1819 | a secret that is part of the marker does show |
| RedactionSafety.AssignmentPieceShows | api/src/deployment_retention.rs:1824-1832 | so does a secret inside a sensitive assignment prefix |
| RedactionSafety.TerminatorShows | api/src/deployment_retention.rs:1804-1811 | so does one that starts with a terminator |
| RedactionSafety.BracketsShow | api/src/deployment_retention.rs:1818-1832 | so does one that reaches into a marker's brackets |
| RedactionSafety.SecondRedactorIsNoop | api/src/deployment_runtime.rs:239-246 | redacting redacted text again changes nothing, in whatever chunks it comes |
| RedactionSafety.PipelineRedacts | api/src/deployment_runtime.rs:122-133 | both redactors together write what one scan of the writes would |
| StreamingRedactors.SensitiveAssignmentPrefix | api/src/deployment_retention.rs:1840-1863 | the loop over keys finds the specified prefix length |
| StreamingRedactors.StreamingRedactor.constructor | api/src/deployment_retention.rs:1763-1784 | empty and repeated secrets are dropped, the longest come first, and the overlap is that of the configured secrets |
| StreamingRedactors.StreamingRedactor.Push | api/src/deployment_retention.rs:1786-1789 | output, pending bytes and masking flag are those of the specified pass |
| StreamingRedactors.StreamingRedactor.Finish | api/src/deployment_retention.rs:1791-1793 | likewise at the end of the stream |
| StreamingRedactors.RedactLogText | api/src/deployment_retention.rs:1747-1752 | redacting a complete text, one push and a finish, is the plain scan of it, whatever its assignments |
| RedactionMeaning.ValueMasked | api/src/deployment_retention.rs:1800-1867 | a sensitive word in any letter case, with its sign and blanks, and then a value up to a line end, quote, comma or ampersand: the marker takes the place of the value |
| RedactionMeaning.SecretMasked | api/src/deployment_retention.rs:1813-1821 | of the secrets that start a text the longest is replaced by the marker |
| RedactionMeaning.ByteKept | api/src/deployment_retention.rs:1834-1838 | a byte at which neither a secret nor an assignment starts is written as it is |
| RedactionMeaning.AssignmentFound | api/src/deployment_retention.rs:1840-1863 | these are all the cases: every assignment is followed by a value and its end |
| RedactionMeaning.PlainTextKept | api/src/deployment_retention.rs:1786-1838 | text without secrets and assignments passes unchanged |
| Streaming.PushThenFinish | api/src/deployment_retention.rs:1786-1838 | from any state, a push and then the end of the stream write the scan of pending bytes and chunk, whatever the window |
| LogWriter.StepOutputSink.Offer | api/src/deployment_runtime.rs:89-108 | a channel with room takes the chunk, and only a full one refuses it and counts its bytes |
| LogWriter.StepOutputSink.Enqueue | api/src/deployment_runtime.rs:89-108 | whatever the writer does meanwhile, every byte offered is handed on, gathered, in the channel or counted as dropped, no chunk is empty or larger than the limit, and none is refused when the channel has room for all |
| LogWriter.StepOutputSink.Write | api/src/deployment_runtime.rs:123-133 | what the redactor wrote for the writes so far has been offered, and nothing of a write is refused when there is room for it |
| LogWriter.StepOutputSink.Flush | api/src/deployment_runtime.rs:232-258 | what is handed on and reported, when it succeeds, and that a flush that fails loses nothing |
| LogWriter.StepOutputSink.Receive | api/src/deployment_runtime.rs:148-198 | the writer gathers chunks in order, hands them on when there are enough, and answers a barrier with a flush |
| LogWriter.StepOutputSink.FinishRedaction | api/src/deployment_runtime.rs:110-118 | bytes handed on plus drops reported are all the bytes redacted; it succeeds when nothing fails at the barrier; when nothing was refused before and the last bytes fit, nothing is lost: the buffer receives the redacted stream, and its own redactor changes nothing |
| LogWriter.Conserved | api/src/deployment_runtime.rs:89-108 | taken and refused bytes add up to what was produced |
| LogBuffers.SharedBudget | api/src/deployment_retention.rs:1546-1745 | for every interleaving of appends and drops over buffers on one budget: heads are prefixes, tails suffixes without overlap, received is stored plus dropped, and the budget is never exceeded |
| LogBuffers.ClosedForm | api/src/deployment_retention.rs:1698-1745 | a buffer alone on its budget depends only on its stream: first bytes, last bytes, exact drop count |
| StepLogs.TaskLogBudget.Allocate | api/src/deployment_retention.rs:1578-1583 | the grant is what is asked for, as far as the budget goes |
| StepLogs.BoundedLogBuffer.Append | api/src/deployment_retention.rs:1647-1650 | buffer and budget are those of the specification after the redacted bytes |
| StepLogs.BoundedLogBuffer.Finish | api/src/deployment_retention.rs:1652-1655 | likewise for what the redactor still held |
| StepLogs.BoundedLogBuffer.RecordExternalDrop | api/src/deployment_retention.rs:1657-1661 | drops elsewhere are received and dropped, in the buffer and in the task |
| StepLogs.BoundedLogBuffer.AppendRedacted | api/src/deployment_retention.rs:1698-1739 | growing the head and rolling the tail in place computes the specified buffer and budget |
| LogCheckpoints.ArrivalOrderIrrelevant | api/src/deployment_retention.rs:712-775 | snapshots of one history stored in any order, with repetitions, leave the latest row of each step and the latest task counters; finished never reverts |
| LogCheckpoints.HistoryForward | api/src/deployment_retention.rs:568-617 | along a history the counters grow and finished stays |
| LogCheckpoints.StepLogHolds | api/src/deployment_retention.rs:568-617 | for every history of a task's log: a step's buffer keeps prefix, suffix and exact count of all that was written before it was closed and of what its redactor still held then, and nothing that comes later |
| LogCheckpoints.ReloadIsExact | api/src/deployment_retention.rs:1625-1645 | a stored log loads back unchanged |
| LogCheckpoints.RowsSayWhatIsLost | api/src/deployment_retention.rs:712-775 | rows count what is stored, received and dropped exactly, and are marked as truncated exactly when bytes are missing |
| LogCheckpoints.LogTable.Save | api/src/deployment_retention.rs:712-775 | the two upserts of one checkpoint |
| CommandCapture.BoundedCommandCapture.Append | api/src/deploy.rs:543-567 | the capture depends only on the concatenated input: first bytes, last bytes, exact number lost |
| CommandCapture.BoundedCommandCapture.IntoBytes | api/src/deploy.rs:569-582 | the output shows head and tail, with a marker exactly when bytes were lost |

## Left out

- RedactionSafety.NoSecretSurvives: the condition on secrets is sufficient; each of its parts is shown to matter by a secret that shows without it, but it is not the exact condition.
- Redactor state across restarts: bytes a redactor still holds, and whether it is inside a masked value, are lost when a step log is loaded again; `LogCheckpoints.ReloadIsExact` speaks of buffers only.
- Executor.RunExecutor.ExecuteRun: a crash or an error in the middle of the loop is not part of the method; both are steps of the run (`Runs.Crash`, `Runs.Break`) covered by the histories.
- Store.Database.CleanupArtifact: other transactions between begin and end of a cleanup are not part of the method; they are separate events of `Tables.Next`, and `ArtifactLives.CleanupFinishes` says that none of them undoes a cleanup.
- Saturation at 64 bits of log counters, apart from the command capture, and the wrap-around of negating the smallest stage number.
- Timestamps, summaries, failure kinds, exit codes, log messages, audit rows, titles and the phases and steps of a task: only statuses, keys and references are kept. Of a task only its status is kept, with its run.
- Runtime status and last deployment status of an environment, and the last run recorded in a runtime state.
- Validation of versions, checksums, operators and notes, the existence of an application row, and who may act.
- Removal of applications, environments, units, nodes and configuration revisions; units keep their key and environments their application.
- Older releases and states copied in by migrations: histories start from an empty database.
- Remote execution, file transfer, object storage, encryption, hashing and the HTTP interface.
- LogWriter.StepOutputSink.Flush: is one step; bytes dropped while a flush waits for the database are counted before or after it.
- The intervals and time-outs of the log writer: flushes and checkpoints may happen at any time. A writer that has stopped, so that the channel is closed, is not modelled.
- Database errors inside a transaction appear only as the error step of a run.
