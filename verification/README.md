# Host operations, archive cleanup and admission evidence: a Dafny model

This project models the parts of the repository that change a host, or decide whether a change may be believed, and
proves properties of every run of them. A model follows its source file branch by branch. Where the source works step by
step, the model has two forms: a machine of worlds and moves, over which the theorems quantify ("after any sequence of
moves"), and a class whose methods have the source's loops and branches. Each class keeps a ghost list of moves, and its
`Valid` says that replaying that list gives its own fields, so what is proved of all histories holds of the code in the
class.

| files | what they model |
|---|---|
| `HostPlan`, `HostJournal`, `HostStates`, `HostDeployment`, `HostReadbacks`, `HostDeploymentRuns`, `HostDeploymentHistories`, `HostExecutor` | the deployment transaction: thirteen journalled actions, a ten-action rollback, resumption after a crash, and replay of terminal states; what each readback and command is, and histories to each verdict |
| `HostBuildPhase`, `HostBuildRecords`, `HostBuildRuns`, `HostBuildHistories`, `HostBuildExecutor` | the image-build phase: build, retain the results, recollect, or confirm the running images; its commands and receipts, and the states that histories leave |
| `HostReconcile`, `HostGrammar`, `HostGrammarShape`, `HostAgreement`, `HostBuildAgreement`, `HostPlanning`, `HostPlanFiles` | the planner that prints rows, the executor's strict grammars, exactly which printed plans are accepted in terms of the planner's inputs, and exactly which plan files are |
| `HostReboot`, `HostRebootRecords`, `HostRebootRuns` | the reboot that is requested durably, issued at most once, and reconciled by a changed boot identity |
| `ArchiveTree`, `ArchiveInventory`, `ArchiveCleanup`, `ArchiveRuns`, `ArchiveEdits`, `ArchiveExecutor`, `ArchiveStops`, `ArchiveNames`, `ArchiveStory` | archive before delete: recursive inventories, copies that may be wrong, readback, checkpoints, deletion, crashes anywhere |
| `Architecture` | the depth-first cycle detector and exclusive capability ownership |
| `GateDocuments`, `GateEvidence`, `GateLineage`, `GateRecords`, `GateStory` | sealed composites that embed other documents, the records that their readers accept, and the serving history an accepted lineage tells |
| `Wrappers`, `Text`, `Ordering` | results, strings, and Python's order on strings |

## Modelling decisions

- A SHA-256 digest is a free constructor over what was digested, so equal digests mean equal contents. Canonical JSON bytes
  (RFC 8785, section 3.2, as the contracts package states it) are their value. Where a digest must be a string because a
  grammar checks its shape, it is a string or a function parameter of which nothing but that shape is assumed; a theorem
  that needs two given contents not to collide says so (`HostBuildRuns.Apart`).
- The runner, every readback, the clock, and what another process does to a shared file are arbitrary values. An exception
  and a timeout are the same as a crash: no receipt is written. A state file is replaced atomically, and a write may be
  stopped just before or just after that.
- The code reads a collector's output file several times (fingerprint, firewall, deployment, manifest, bootstrap). The model
  has one observation, `HostDeployment.FactsView`, with one part for each; the parts are arbitrary and nothing ties one to
  another, except that both readbacks of container rows see the same rows.
- The host-apply and reboot tools take a lock that admits one invocation for one state path at a time, so their machines
  have at most one process. The archive tool takes no lock: that its machine has one process is an assumption about its
  caller.
- A write of a state is whole or is not made. The reboot tool makes a single `os.write` and compares the bytes only after
  it has renamed the file into place, so for it this is an assumption about the host.
- A file longer than its reader's bound is refused. Lengths are a function parameter (`size`), of which nothing is assumed.
- The archive's file system is a map from paths to entries. Anything may be put at a temporary while it is being cleared or
  filled, and an interrupted removal may leave any part of a source. Nobody else changes the paths named by a plan while it
  runs. The state file is kept beside the file system, not in it. A history may begin with any file system and any state
  file, so `original` is what stood when the history began.
- Loaders and parsers that live in other packages are parameters or assumptions with a name: `HostReconcile.Loaded` is what
  the planner's own loaders guarantee, `GateEvidence.Owners` and `HostReboot.Env` are the owners' verdicts. Of what an owner
  accepts one thing is assumed, which every owner's reader checks: empty bytes are no document.
- In `CollisionFree` and in the word `calm` (an invocation in which nothing is interrupted and every file operation is
  exact) the archive model names the two conditions under which completion, as opposed to safety, can be promised.

## Where the code differs from what one might expect

- A ready recovery report makes the planner add `RECOVERY_EXECUTION_AUTHORITY_REQUIRED`, which the executor refuses. So a
  deployment is accepted only for a report that is valid and *not* ready (`HostPlanning.PlannerAndExecutorAgree`).
- The deployment validator accepts states the executor never writes. `HostDeploymentRuns.AcceptedVersusWritten` says
  exactly which accepted states, finished or not, some history leaves, and `AcceptedButNeverWritten` is one that none does.
  The same holds of the build phase (`HostBuildHistories`): its validator does not look at the results fingerprint of a
  state in progress, nor at what any receipt read back.
- A state or plan file may outgrow the reader's bound. The executor writes such a state all the same, and then it is never
  read or replaced again (`HostDeploymentRuns.NextIsWrittenUnread`, `SomeStateOutgrows`); such a plan is never accepted.
- In the build phase the checkpointed results fingerprint is not compared when the shared results file is read again before
  the recollection. `HostBuildRuns.PhaseCompleteNamesWhatStood` says exactly when the final state names its own receipts'
  results, and `ReplacedResultsAreNamed` is a run in which it does not; `SomeRunNamesReplacedResults` is one in full.
- A reboot authority whose times are spelt with another offset is accepted once, and then its own state never parses again:
  the reboot stays open for ever. So it does where the recorded state outgrows its reader's bound: the state embeds the
  plan, and the plan the host facts. `HostRebootRuns.UnreadRequestsStayOpen` proves it of every authority, exactly in
  these two cases, and `SomeRequestStaysOpen` shows one of each.
- After a crash in the middle of removing a source no later archive run reports, although the tree is safe in the archive
  (`ArchiveStops.CrashStopsEveryRun`). A run also stops at a fifo or socket left at a temporary path.
  `ArchiveExecutor.Cleanup.Execute` says exactly when a run completes.
- The Gate F builder accepts sources whose composite is too large for its own parser (`GateLineage.GateFRoundTrip`).

## Model

| member | source | states |
|---|---|---|
| HostStates.StateLoads | tools/hk_v1_host_apply.py:720-945 | a retained state is gone on from if and only if it is at most 5,000,000 bytes, bound to this plan and authority, its receipts are numbered and named as the plan's rows, and it holds exactly what its verdict asks of it, for deployments and for builds |
| HostDeploymentRuns.EveryWorldIsSound | tools/hk_v1_host_apply.py:1402-1560 | in every history, with crashes anywhere, the journal, the commands so far and the process in hand agree: each receipt comes from a command that ran, and each command was due |
| HostDeploymentRuns.CommandsFollowTheJournal | tools/hk_v1_host_apply.py:1402-1560 | a command reaches the host only while the journal names it as due: forward action k when exactly k successful receipts are durable, rollback action k when a failure and k rollback receipts are |
| HostDeploymentRuns.EveryCommandIsItsRows | tools/hk_v1_host_apply.py:1324-1356 | in every history each command's vector is the helper with the row itself and the state's directory, or, at the two recollections, the collector with that direction's output path |
| HostDeploymentRuns.DurableReceiptsAccount | tools/hk_v1_host_apply.py:947-963 | every durable receipt accounts for a command of the history: its place, row, vector, code, standard output, standard error and readback, each in its own field |
| HostDeploymentRuns.TraceIsTwoStutteringPrefixes | tools/hk_v1_host_apply.py:1454-1560 | over all invocations the commands are a stuttering prefix of the plan and then a stuttering prefix of the rollback; no forward action follows a rollback action |
| HostDeploymentRuns.WrittenIsAccepted | tools/hk_v1_host_apply.py:720-920 | every state of the exact shape the executor writes passes its own validator for the same plan and authority, loads if and only if it is within the reader's 5,000,000 bytes, and is terminal exactly when no action is left |
| HostDeploymentRuns.NextIsWritten | tools/hk_v1_host_apply.py:1402-1560 | one more receipt turns a state of that shape into another, for every result and readback |
| HostDeploymentRuns.EveryDurableStateReloads | tools/hk_v1_host_apply.py:720-737 | every durable state of every history loads again if and only if the authority is its own and it is within the reader's bound |
| HostDeploymentRuns.OversizedStateStays | tools/hk_v1_host_apply.py:304-322 | a state beyond the reader's bound is never replaced, and no later invocation runs a command |
| HostDeploymentRuns.NextIsWrittenUnread | tools/hk_v1_host_apply.py:703-737 | from every history with an action in hand, its receipt is written whether or not the state still fits; if it does not, a crash ends the transaction there, whatever follows |
| HostDeploymentRuns.SomeStateOutgrows | tools/hk_v1_host_apply.py:703-737 | for every shaped plan some measure makes a history whose first state fits and whose next one, with one receipt, does not: it stops there, unfinished, whatever follows |
| HostDeploymentRuns.CrashThenResume | tools/hk_v1_host_apply.py:1454-1512 | after a crash at any point the next invocation continues at the first action without a receipt, exactly where the durable state is within the reader's bound |
| HostDeploymentRuns.AcceptedVersusWritten | tools/hk_v1_host_apply.py:868-920 | some history leaves a state, finished or not, if and only if the validator accepts it, every receipt is in all its fields one that its action can give, a rollback starts from a failed last receipt after successes only, the verdict is that of the rollback receipts, and retained facts are those of the recollection receipt |
| HostDeploymentRuns.AcceptedButNeverWritten | tools/hk_v1_host_apply.py:894-903 | a rollback whose only forward receipt succeeded is accepted, and is in no history |
| HostDeploymentRuns.AcceptedLeadsToAccepted | tools/hk_v1_host_apply.py:1454-1560 | from any state the validator accepts, whoever wrote it, every later durable state is accepted too, under the same authority |
| HostDeploymentRuns.FirewallConfirmedOnlyAfterAdmission | tools/hk_v1_host_apply.py:1357-1379 | the firewall confirmation is run only after an earlier recollection that read back exactly the fourteen containers once each, all running and HEALTHY or NONE, each application's own container at its bound image, active units, DROP in all three firewall defaults, the launch manifest line for line, and the bootstrap receipts |
| HostDeploymentRuns.CompleteMeansAllSucceeded | tools/hk_v1_host_apply.py:1508-1559 | COMPLETE is durable only with thirteen successful receipts in order, all thirteen actions having happened and no rollback action, and it retains the digest and the path of facts in which the whole host was so read back |
| HostDeploymentRuns.RolledBackMeansRestored | tools/hk_v1_host_apply.py:1402-1451 | a failed transaction is FAILED_ROLLED_BACK exactly when all ten rollback receipts succeeded, the last over facts in which each predecessor's last row has its image and state, or no row has its name; each rollback action happened even across crashes |
| HostReadbacks.RecollectionAdmits | tools/hk_v1_host_apply.py:1357-1379 | a forward recollection succeeds if and only if its command did, its facts have a digest, and the host is launched row by row; it raises exactly where the facts have no digest |
| HostReadbacks.RollbackRecollectionRestores | tools/hk_v1_host_apply.py:1380-1399 | a rollback recollection succeeds if and only if its command did, its facts have a digest, and every predecessor stands again |
| HostDeploymentHistories.SomeHistoryCompletes | tools/hk_v1_host_apply.py:1508-1559 | over any facts of a launched host some history ends COMPLETE and retains their digest |
| HostDeploymentHistories.SomeHistoryRollsBack | tools/hk_v1_host_apply.py:1402-1451 | over any facts some failed history ends FAILED_ROLLED_BACK if every predecessor is shown, and FAILED_ROLLBACK_UNVERIFIED if not |
| HostDeploymentHistories.AcceptedDeploymentsCanEnd | tools/hk_v1_host_apply.py:1454-1560 | for every accepted deployment plan a launched host and a restored one are given, with histories that end COMPLETE and FAILED_ROLLED_BACK |
| HostDeploymentHistories.CommandsCarryTheirRows | tools/hk_v1_host_apply.py:1335-1356 | under every accepted deployment plan each command carries its own row, or writes the facts to the output that its row names |
| HostDeploymentRuns.TerminalIsAbsorbing | tools/hk_v1_host_apply.py:1171-1179 | after a terminal state no later moves run a command or change the journal |
| HostDeploymentRuns.OneAuthority | tools/hk_v1_host_apply.py:720-737 | the first state written fixes the authority of all later ones |
| HostDeploymentRuns.NextSpendsBudget | tools/hk_v1_host_apply.py:1454-1560 | each receipt strictly lowers the commands still needed (rest of the plan, then ten), which reach zero exactly in a terminal state |
| HostExecutor.Executor.constructor | tools/hk_v1_host_apply.py:1620-1650 | an executor starts over whatever lies at the state path, with an empty history |
| HostExecutor.Executor.WriteState | tools/hk_v1_host_apply.py:703-717 | the journal becomes the new state, or the write fails before or after the replacement and the invocation ends |
| HostExecutor.Executor.ActionResult | tools/hk_v1_host_apply.py:1335-1399 | the command run, and the result, readback and facts it yields, are those of the machine's due action; it succeeds exactly when its command did and, in a recollection, the launched host or the restored predecessors were read back |
| HostExecutor.Executor.Rollback | tools/hk_v1_host_apply.py:1402-1451 | from any durable rollback state the loop ends in one of the two failed verdicts within the remaining rollback commands, unless a command raises or a write fails |
| HostExecutor.Executor.Forward | tools/hk_v1_host_apply.py:1508-1560 | from any durable forward state the loop ends in a terminal state within the remaining commands plus ten, unless a command raises or a write fails |
| HostExecutor.Executor.Apply | tools/hk_v1_host_apply.py:1454-1560 | over any file at the state path one invocation returns only durable terminal states of its own authority, refuses what does not load without any effect, repeats a loaded terminal state without any command exactly while its facts still have their digest and still show what its verdict rests on, and otherwise fails only where a command raised or a write failed |
| HostExecutor.VerdictReplays | tools/hk_v1_host_apply.py:1458-1484 | a retained verdict is repeated if and only if the facts on the host have the retained digest and, for COMPLETE, show the launched host, for FAILED_ROLLED_BACK the predecessors; each refusal has its own error |
| HostBuildPhase.ParsedBuildIsShaped | tools/hk_v1_host_apply.py:370-453 | every accepted build plan has the rows, sequences and services its executor relies on |
| HostBuildRuns.EveryWorldIsSound | tools/hk_v1_host_apply.py:1203-1288 | in every history of the build phase, with crashes and with others writing the results file, journal, commands and process agree |
| HostBuildRuns.WrittenIsAccepted | tools/hk_v1_host_apply.py:809-844 | every state of the shape the build phase writes passes its own validator, and loads if and only if it is within the reader's bound |
| HostBuildRuns.EveryDurableStateReloads | tools/hk_v1_host_apply.py:720-737 | every durable build-phase state loads if and only if the authority is its own and it is within the reader's bound |
| HostBuildRuns.OversizedStateStays | tools/hk_v1_host_apply.py:304-322 | a build-phase state beyond the reader's bound is never replaced and no command follows, whoever writes the results file |
| HostBuildRuns.CrashThenResume | tools/hk_v1_host_apply.py:1563-1597 | after a crash the next invocation, where the state is within the reader's bound, builds if no receipt is durable and recollects if all five are |
| HostBuildRuns.CommandsFollowTheJournal | tools/hk_v1_host_apply.py:1138-1288 | a build runs only with no durable receipt, a recollection only with five successful ones and a valid results file, inspections only in order straight after a failed command; each has exactly the vector of its kind |
| HostBuildRecords.EveryCommandIsSpelt | tools/hk_v1_host_apply.py:1130-1262 | in every history, from any two files, a build, a recollection and the k-th inspection have the vectors of the build tool, of the collector with the plan's own output, and of docker on the k-th preserved service's own container |
| HostBuildRuns.PhaseCompleteNamesWhatStood | tools/hk_v1_host_apply.py:1234-1288 | PHASE_COMPLETE means all images built and facts collected; it names the results file that stood at the last look before the recollection, whoever had written it, so its own receipts' results if and only if that file held them, where the two files do not collide |
| HostBuildRuns.UndisturbedPhaseNamesItsOwnBuild | tools/hk_v1_host_apply.py:1203-1288 | where nobody else writes the results file, PHASE_COMPLETE names the results its receipts record |
| HostBuildRuns.ReplacedResultsAreNamed | tools/hk_v1_host_apply.py:1234-1240 | every run in which a valid file with other rows, and another fingerprint, replaces the results file between the checkpoint and the recollection ends in a state that names results its receipts do not record |
| HostBuildRuns.SomeRunNamesReplacedResults | tools/hk_v1_host_apply.py:1234-1240 | a whole job and history of that kind: PHASE_COMPLETE is durable and names other results than its receipts |
| HostBuildRuns.RolledBackMeansPreserved | tools/hk_v1_host_apply.py:1138-1200 | FAILED_ROLLED_BACK means every inspection, of that service's own container, found the image or the absence that the plan preserves, the other verdict that one did not, and each was carried out |
| HostBuildRuns.TerminalIsAbsorbing | tools/hk_v1_host_apply.py:1563-1580 | a terminal build-phase state is never rewritten and no command follows it |
| HostBuildHistories.AcceptedVersusWritten | tools/hk_v1_host_apply.py:809-844 | some history leaves a build-phase state, whoever writes the results file, if and only if the validator accepts it, each receipt is in all its fields one that its own command can give, the results named are some current file's, and readbacks, verdict and paths are consistent with the receipts |
| HostBuildHistories.AcceptedButNeverWritten | tools/hk_v1_host_apply.py:829-836 | a state in progress that names build results before any image was built is accepted, and is in no history |
| HostBuildExecutor.BuildExecutor.FailedExecution | tools/hk_v1_host_apply.py:1138-1200 | the five commands that follow are the inspections of the five preserved services' own containers in order, and the verdict is FAILED_ROLLED_BACK exactly if each found what the plan preserves; or the invocation stops |
| HostBuildExecutor.BuildExecutor.ExecuteBuild | tools/hk_v1_host_apply.py:1203-1231 | a build either leaves five durable receipts and a read results file, or a failed verdict, or stops |
| HostBuildExecutor.BuildExecutor.RetainBuild | tools/hk_v1_host_apply.py:1203-1231 | a finished build either leaves its receipts durable with a valid results file read back, or stops |
| HostBuildExecutor.BuildExecutor.ExecuteRecollect | tools/hk_v1_host_apply.py:1234-1288 | a recollection ends in a durable terminal state of the same authority, or stops |
| HostBuildExecutor.BuildExecutor.Apply | tools/hk_v1_host_apply.py:1563-1597 | over any two files one invocation issues at most seven commands, returns only durable terminal states, refuses what does not load without any effect, and repeats a loaded terminal state without any command, PHASE_COMPLETE exactly while its facts and a current results file at its path still have their digests |
| HostBuildExecutor.VerdictReplays | tools/hk_v1_host_apply.py:1568-1579 | a retained verdict is repeated, PHASE_COMPLETE if and only if the facts read back now have the retained digest and a well-formed results file of the plan's own inputs has the retained fingerprint and path |
| HostGrammar.ParseVerify | tools/hk_v1_host_apply.py:490-501 | a verify row is read if and only if it is the row of this place and service for some digest, which it returns |
| HostGrammar.ParseRestore | tools/hk_v1_host_apply.py:538-555 | a rollback row that is read is exactly the image row or the absence row of this place and service for what is returned |
| HostGrammar.ParseVerifyRows | tools/hk_v1_host_apply.py:490-501 | parsed verify rows are the printed rows of their images in service order, each bound to a replacement target |
| HostGrammar.ParseRestoreRows | tools/hk_v1_host_apply.py:538-555 | each parsed predecessor is what its own row restores |
| HostGrammarShape.ParsedDeploymentIs | tools/hk_v1_host_apply.py:456-577 | an accepted deployment plan is, row by row, the fixed rows and the rows bound to its images and predecessors |
| HostGrammarShape.ParsedDeploymentIsShaped | tools/hk_v1_host_apply.py:456-577 | every accepted deployment plan recollects exactly where the transaction relies on it, so that all of its theorems apply |
| HostAgreement.VerifyAgrees | tools/hk_v1_host_reconcile.py:722-733 | a printed verify row parses if and only if it names the service's own unit, and then to the printed image |
| HostAgreement.RestoreAgrees | tools/hk_v1_host_reconcile.py:753-763 | a printed restore row parses if and only if its state is one lower-case word and its image a digest, and then to those |
| HostAgreement.AbsenceAgrees | tools/hk_v1_host_reconcile.py:753-763 | a printed absence row parses as an absence |
| HostAgreement.BlockersDecide | tools/hk_v1_host_reconcile.py:462-527 | the printed blockers let a deployment through if and only if the facts are complete, the credential report is terminal and the recovery report is valid and not ready |
| HostPlanning.PlanIsFrozenExactlyWhen | tools/hk_v1_host_reconcile.py:595-779 | the planner freezes a plan if and only if every service row has its texts and a target, and over complete facts, without build results, something is to be built and every container is named with an image, or with them every application service has a row and every container its texts |
| HostPlanning.PlannerAndExecutorAgree | tools/hk_v1_host_apply.py:456-577 | a plan frozen with build results is accepted if and only if it is at most 5,000,000 bytes, the facts are complete, a batch rotation has plan and accepted report and no single plan, the recovery report is valid and not ready, every application's first row names its own unit, and every application's last container row has a digest and a one-word state |
| HostPlanning.SomePlanIsAccepted | tools/hk_v1_host_apply.py:456-577 | a host with running, exited, superseded and absent containers gives a plan that the planner freezes and the executor accepts, with each predecessor's own image and state |
| HostPlanning.AcceptedPlanSaysWhatWasPlanned | tools/hk_v1_host_reconcile.py:618-779 | what the executor binds is what the planner was given: each service's built image, the image and state of its last container row or its absence, and exactly the targets and blockers that the inputs call for |
| HostBuildAgreement.RowsAgree | tools/hk_v1_host_apply.py:325-367 | rows of equally many fields, one without bars inside its fields, have the same fields |
| HostBuildAgreement.ImageAgrees | tools/hk_v1_host_reconcile.py:671-676 | a printed image row parses if and only if it names the expected service and that service's own context |
| HostBuildAgreement.PreserveAgrees | tools/hk_v1_host_reconcile.py:683-697 | a printed preserve row parses if and only if its image is absent or a digest |
| HostPlanning.PlannerAndExecutorAgreeOnBuilds | tools/hk_v1_host_apply.py:370-453 | a plan frozen without build results is accepted if and only if it fits, the facts are complete, the recovery report is valid, each application has exactly one unpinned row and nothing else has, each has its own context, and each last container row has a digest |
| HostPlanning.AcceptedBuildSaysWhatWasPlanned | tools/hk_v1_host_reconcile.py:650-700 | what the executor binds for a build is what the planner was given, the preserved images being those of the last container rows |
| HostPlanning.SomeBuildIsAccepted | tools/hk_v1_host_apply.py:370-453 | the same host before its builds gives a build plan that is frozen and accepted, and preserves the running images |
| HostPlanFiles.AcceptedDeploymentFiles | tools/hk_v1_host_apply.py:370-577 | whoever wrote it, a plan file is accepted as a deployment if and only if it fits, its seal is its own body's digest, its flags, targets and blockers are in order, and its every row is the one for some five images and predecessors, which are then what is bound |
| HostPlanFiles.AcceptedBuildFiles | tools/hk_v1_host_apply.py:325-453 | whoever wrote it, a plan file is accepted as a build phase if and only if it fits, is sealed, complete, and its every row is the one for its inputs and some preserved images, which are then what is bound |
| HostRebootRuns.EveryWorldIsSound | tools/hk_v1_host_reboot.py:621-699 | in every history of one state path the file, the commands and the process agree |
| HostRebootRuns.AtMostOneCommand | tools/hk_v1_host_reboot.py:337-377 | across all invocations, plans and authorities of one state path at most one command is issued: only where the path was free, under a sealed plan true of its own facts and an authority for that very plan and its paths, between the instants the authority names, and with the state that records both as REQUESTED at the path |
| HostRebootRuns.StrangersChangeNothing | tools/hk_v1_host_reboot.py:630-640 | an invocation whose plan is not read or names another state path changes nothing here |
| HostRebootRuns.ReturnIsRecorded | tools/hk_v1_host_reboot.py:681-699 | what a returned command leaves: the phase of its return code, and a receipt with the code and the last 100,000 characters of each output in its own field |
| HostRebootRuns.RebootCompletes | tools/hk_v1_host_reboot.py:637-668 | a permitted reboot whose documents stay readable is completed by any later invocation that finds facts of another boot, even after the window, with its own receipt or an adopted one |
| HostRebootRecords.PlanReads | tools/hk_v1_host_reboot.py:228-287 | a plan file is read if and only if it is sealed, within the bound, true of its own facts, and names two different safe paths |
| HostRebootRecords.PlanBuilds | tools/hk_v1_host_reboot.py:178-217 | the planner builds exactly for readable facts and two different safe paths, and what it builds is read back where it fits |
| HostRebootRecords.AuthorityReads | tools/hk_v1_host_reboot.py:337-377 | an authority is read if and only if it is the sealed authority for this very plan, with a well-formed name and subject and a window that is not empty |
| HostRebootRecords.AuthorityBuilds | tools/hk_v1_host_reboot.py:290-322 | the builder writes exactly the authority it is asked for, its times in UTC, or refuses |
| HostRebootRecords.StateReads | tools/hk_v1_host_reboot.py:439-567 | a state is read under its documents if and only if it is the state that they were written into, with the receipt and the facts of its phase |
| HostRebootRuns.PhasesFollow | tools/hk_v1_host_reboot.py:637-699 | the phase goes from none to REQUESTED, on to AWAITING_REBOOT or FAILED, and to COMPLETE from the first two only, under the same plan and authority, keeping the command's receipt or adopting one where none was recorded |
| HostRebootRuns.TerminalIsAbsorbing | tools/hk_v1_host_reboot.py:641-642 | a FAILED or COMPLETE file, whoever wrote it, is never replaced and no command follows |
| HostRebootRuns.CompleteMeansRebooted | tools/hk_v1_host_reboot.py:643-667 | COMPLETE holds post-boot facts of another boot than the plan's |
| HostRebootRuns.WrittenStatesReparse | tools/hk_v1_host_reboot.py:498-567 | every file ever written parses again if and only if its authority's times are canonical and it fits |
| HostRebootRuns.UnreadStatesStayOpen | tools/hk_v1_host_reboot.py:551-564 | whatever history led to a file at rest that cannot be read again, because a time is spelt otherwise or the file is too long, every extension keeps that file, by any plan or authority |
| HostRebootRuns.UnreadRequestsStayOpen | tools/hk_v1_host_reboot.py:621-699 | every authority that may request a reboot is accepted: its command is issued once and recorded; the file fails to parse under its own documents exactly where a time is spelt otherwise or it does not fit, and then never changes |
| HostRebootRuns.SomeRequestStaysOpen | tools/hk_v1_host_reboot.py:621-699 | in some world an authority with another spelling, and in some world a canonical one whose state does not fit, may request a reboot and leaves such a file |
| HostRebootRuns.CompleteReadsBack | tools/hk_v1_host_reboot.py:570-600 | a COMPLETE file reads back for its own post-boot facts and no others, with both boots |
| HostRebootRuns.ReadbackMeansRebooted | tools/hk_v1_host_reboot.py:570-600 | whatever bytes are offered, an accepted readback tells of two different boots |
| HostRebootRuns.RebootHost.constructor | tools/hk_v1_host_reboot.py:621-639 | a host starts with any file at the state path and no command issued |
| HostRebootRuns.RebootHost.WriteState | tools/hk_v1_host_reboot.py:420-436 | the file becomes the new state, or the write is stopped before or after the replacement |
| HostRebootRuns.RebootHost.Reboot | tools/hk_v1_host_reboot.py:621-699 | every outcome of one invocation: which documents are refused with which error and no effect; on a free path outside the window an expiry and no effect, inside it one command and its recorded result or an interruption; on an occupied path what reconciliation gives and no command |
| HostRebootRuns.RebootHost.Request | tools/hk_v1_host_reboot.py:669-699 | from a free path and an open window one invocation leaves the recorded result of its own command, AWAITING_REBOOT exactly for return code zero, or is interrupted; it issues at most one command |
| HostRebootRuns.RebootHost.Reconcile | tools/hk_v1_host_reboot.py:638-668 | an unreadable or foreign state is refused; a terminal one, or one without facts of another boot, is returned as it is; an open one is completed by such facts with its own receipt or an adopted one |
| ArchiveTree.OverlapMeansSharedSubtree | tools/hk_v1_archive_cleanup.py:83-84 | two paths overlap if and only if some path lies in both of their subtrees |
| ArchiveTree.DescendantsListsBelow | tools/hk_v1_archive_cleanup.py:326-338 | the recursive walk fails exactly on an entry that is neither file nor directory, and otherwise lists every entry below once |
| ArchiveInventory.RelativeIsInjective | tools/hk_v1_archive_cleanup.py:341-362 | different paths below a root have different rendered names |
| ArchiveInventory.SortOrders | tools/hk_v1_archive_cleanup.py:341-362 | the member list is put in order and keeps its members |
| ArchiveInventory.InventoryIsComplete | tools/hk_v1_archive_cleanup.py:341-362 | an inventory holds one member for each entry of the tree and no other |
| ArchiveInventory.InventoryIsDefined | tools/hk_v1_archive_cleanup.py:312-362 | a tree has an inventory if and only if it holds only files and directories with timestamps a member may carry |
| ArchiveInventory.InventoriesAreFaithful | tools/hk_v1_archive_cleanup.py:341-362 | trees with equal inventories are the same tree: contents, kinds, modes and times |
| ArchiveInventory.SameInventoryMeansSameTree | tools/hk_v1_archive_cleanup.py:341-362 | for an inventoried tree, another path has the same inventory if and only if it holds the same tree |
| ArchiveInventory.InventoryPassesItsChecks | tools/hk_v1_archive_cleanup.py:193-223 | every inventory satisfies the candidate's own ordering, uniqueness, sum and digest checks, and the candidate has the root's mode and time and the bytes of the tree's files |
| ArchiveInventory.InventoryBytes | tools/hk_v1_archive_cleanup.py:203-223 | an inventory's sum is the bytes of the files in the tree, each counted once |
| ArchiveInventory.MatchesMeansSameTree | tools/hk_v1_archive_cleanup.py:566-577 | the readback of a frozen candidate matches if and only if the tree is the one inventoried |
| ArchiveStory.InventoryDescribes | tools/hk_v1_archive_cleanup.py:312-362 | an inventory begins with the root as `.` and then holds, in the order of their names, exactly one description of each entry below: name, kind, length, content digest (of nothing for a directory), mode and time |
| ArchiveStory.CandidateChecks | tools/hk_v1_archive_cleanup.py:193-223 | a candidate passes its own checks if and only if its name is one path part, the root comes first and then the members in strict order, and sum, seal, mode and time are theirs |
| ArchiveStory.MatchesIs | tools/hk_v1_archive_cleanup.py:566-577 | a path matches a candidate if and only if inventorying it gives that very candidate, but for where it was taken |
| ArchiveStory.StateReads | tools/hk_v1_archive_cleanup.py:603-638 | a state file is gone on from if and only if there is none, or it is within 5,000,000 bytes and lists planned names once each, the deleted ones among the copied; and then with the names it lists |
| ArchiveStory.StateIsWritten | tools/hk_v1_archive_cleanup.py:584-600 | what is checkpointed lists both sets in order and reads back as them |
| ArchiveStory.PlaceRenames | tools/hk_v1_archive_cleanup.py:559-563 | a placing is the rename of the whole temporary tree to the target and of nothing else |
| ArchiveStory.DisturbanceIsConfined | tools/hk_v1_archive_cleanup.py:546-558 | between two decisions files change only while a temporary is cleared or filled, and then nothing beside it, or while a source is removed, and then nothing beside it and nothing new below it |
| ArchiveStory.BeginningMakesRoots | tools/hk_v1_archive_cleanup.py:693-713 | an invocation begins only with a readable state file, and makes no more than the directories on the way to the archive's items |
| ArchiveStory.UndriftedIsWhole | tools/hk_v1_archive_cleanup.py:553-556 | the source check passes if and only if the tree there is the very one that was inventoried |
| ArchiveRuns.EveryWorldIsSound | tools/hk_v1_archive_cleanup.py:641-690 | in every history, from any file system and any state file, the two sets in memory are those checkpointed, the loops are as far as they say, and nothing is lost |
| ArchiveRuns.NothingIsLost | tools/hk_v1_archive_cleanup.py:546-690 | at every moment, with crashes, wrong copies, any retained state file and sources that drifted after planning, each candidate's source is the tree that stood there when the history began, or its target is |
| ArchiveRuns.ArchiveIsFrozen | tools/hk_v1_archive_cleanup.py:665-690 | once every name is checkpointed as copied no archive item changes again |
| ArchiveRuns.SourcesWaitForTheArchive | tools/hk_v1_archive_cleanup.py:641-690 | no source is touched before every name is checkpointed as copied |
| ArchiveRuns.CopiedMeansReadBack | tools/hk_v1_archive_cleanup.py:641-662 | a name that a history has checkpointed as copied was read back and matched at some earlier moment of that history |
| ArchiveRuns.CheckpointsAreNested | tools/hk_v1_archive_cleanup.py:603-638 | a state file that reads, as an absent one does, is only ever followed by ones that read: deleted names among the copied, copied names among the planned |
| ArchiveRuns.UnreadableStateStops | tools/hk_v1_archive_cleanup.py:603-638 | with a state file that is too long or is refused, no run ever does anything |
| ArchiveRuns.FinishedMeansComplete | tools/hk_v1_archive_cleanup.py:693-724 | a finished run has copied and deleted every name and every source is gone; the copy of each source that was as inventoried when the history began is that tree |
| ArchiveRuns.FinishedMeansReadBack | tools/hk_v1_archive_cleanup.py:641-690 | with names that cannot collide, a run that has left its copy loop has itself read back every target, whatever was checkpointed before it, and all of them still match |
| ArchiveRuns.ChangesAreConfined | tools/hk_v1_archive_cleanup.py:546-690 | no history changes anything but the sources, the archive's own items and the directories above them |
| ArchiveRuns.RemovalIsConfined | tools/hk_v1_archive_cleanup.py:665-690 | from the plan's own checks: whatever happens while a source is being removed, nothing changes under a protected path, another source or the destination |
| ArchiveRuns.ProtectionsStand | tools/hk_v1_archive_cleanup.py:248-274 | from the plan's own checks: in every history every entry at or below a protected path stands as it was, unless it is one of the archive's own |
| ArchiveRuns.CheckpointedCopiesStand | tools/hk_v1_archive_cleanup.py:641-662 | with names that cannot collide, a state file whose copies all match, as an absent one's do, is only ever followed by such ones: a checkpointed copy matches at every later moment |
| ArchiveRuns.DeletedSourcesStayGone | tools/hk_v1_archive_cleanup.py:665-690 | where the sources checkpointed as deleted are gone, as with no state file, that holds at every later moment |
| ArchiveStops.DriftedSourceStays | tools/hk_v1_archive_cleanup.py:665-690 | a drifted source that is not being removed stays as it is in every extension, and no later run comes to its end |
| ArchiveStops.InterruptedRemoval | tools/hk_v1_archive_cleanup.py:665-690 | from every history in which a whole source is being removed, losing any entry below it and crashing leaves the tree in the archive and no later history that reports |
| ArchiveStops.CrashStopsEveryRun | tools/hk_v1_archive_cleanup.py:665-690 | for every one-source plan over a source with anything in it, one history crashes with the source half removed and its tree in the archive, and no extension of it ever reports |
| ArchiveStops.SomeRunIsFresh | tools/hk_v1_archive_cleanup.py:665-690 | one concrete plan and file system for which that history exists |
| ArchiveNames.BuiltPlansAreCollisionFree | tools/hk_v1_archive_cleanup.py:379-395 | the names that the plan builder gives never collide, with each other or with a temporary |
| ArchiveEdits.CopyIsAllowed | tools/hk_v1_archive_cleanup.py:546-558 | an exact copy to the temporary is well formed, changes only the temporary, and holds the source's tree |
| ArchiveEdits.RenameIsAllowed | tools/hk_v1_archive_cleanup.py:559-563 | the rename moves the temporary's tree to the target and changes nothing else |
| ArchiveExecutor.Cleanup.constructor | tools/hk_v1_archive_cleanup.py:693-713 | a cleanup starts on any file system with whatever state file is retained |
| ArchiveExecutor.Cleanup.WriteState | tools/hk_v1_archive_cleanup.py:584-600 | a checkpoint is the two sets with one more name, or the invocation ends |
| ArchiveExecutor.Cleanup.CopyCandidate | tools/hk_v1_archive_cleanup.py:546-563 | a copy is placed, or the invocation ends; a calm one places the source's tree, and changes nothing else, exactly where the temporary is absent, a file or a directory and the source has not drifted |
| ArchiveExecutor.Cleanup.CopyOne | tools/hk_v1_archive_cleanup.py:641-662 | a calm turn of the copy loop succeeds if and only if the target matches, or the name is not yet copied, has no target, at most a file or directory at its temporary, and a source that has not drifted; its target then matches |
| ArchiveExecutor.Cleanup.CopyAndCheckpoint | tools/hk_v1_archive_cleanup.py:641-662 | a calm copy loop succeeds if and only if every candidate is ready so, leaves the sources as they were, and ends with every target matching |
| ArchiveExecutor.Cleanup.DeleteOne | tools/hk_v1_archive_cleanup.py:665-690 | a calm turn of the delete loop succeeds if and only if the source is gone where it was checkpointed as deleted, and else absent or undrifted; it changes only that source |
| ArchiveExecutor.Cleanup.DeleteAndCheckpoint | tools/hk_v1_archive_cleanup.py:665-690 | a calm delete loop over matching targets succeeds if and only if every source is ready so |
| ArchiveExecutor.Cleanup.Execute | tools/hk_v1_archive_cleanup.py:693-724 | over whatever file system and state file, a calm invocation reports if and only if it is authorized and everything is ready; any report is complete, with every source gone and every target matching |
| ArchiveExecutor.ReadyMeans | tools/hk_v1_archive_cleanup.py:693-724 | between the runs of a plan whose sources were as inventoried before the first, everything is ready if and only if the directories are usable, every name is copied, archived or free to be copied, and every source still there is whole |
| Architecture.OrderedIsAcyclic | tools/architecture_spike.py:430-448 | a graph whose nodes can be ordered after their dependencies has no closed walk |
| Architecture.TrailCloses | tools/architecture_spike.py:437-440 | a trail that comes back to one of its nodes is an elementary cycle along the graph's edges |
| Architecture.CycleDetector.Visit | tools/architecture_spike.py:434-446 | visiting a node on the trail reports exactly that cycle; visiting another completes it, and findings are only added |
| Architecture.CycleDetector.Check | tools/architecture_spike.py:430-449 | the detector terminates, expands each node exactly once, reports nothing if and only if the graph is acyclic, and every report is a closed walk along the graph's edges that meets no other node twice |
| Architecture.DeclarersTell | tools/architecture_spike.py:451-457 | the collected owners are the one named if and only if exactly one member declares the capability and it is that one |
| Architecture.CollectOwners | tools/architecture_spike.py:451-455 | the collected lists hold each declaring member in order, once for each time it declares |
| Architecture.PolicyLoads | tools/architecture_spike.py:213-247 | a policy is accepted if and only if its members are in strict order, every distribution, module, path and role stands once, each member is an application or a package in its own place with its lists in strict order and its dependencies among the other members, every owner is a member, and the owners are in order |
| Architecture.ViolationsAre | tools/architecture_spike.py:456-466 | the findings are the capabilities of exactly the entries whose declarers are not their one owner, in the policy's order |
| Architecture.CheckExclusiveCapabilities | tools/architecture_spike.py:451-466 | on a valid policy exactly the capabilities not declared by their owner alone are reported, so the check is silent if and only if there is none |
| GateDocuments.SealedOpens | tools/hk_v1_admission_operational_evidence.py:279-291 | a sealed body opens again exactly when its bytes fit |
| GateDocuments.SealedIsSeal | tools/hk_v1_admission_operational_evidence.py:279-291 | what is accepted as sealed is the seal of its own body |
| GateDocuments.ArtifactsRoundTrip | tools/hk_v1_admission_operational_evidence.py:985-1007 | embedded artifacts come back byte for byte, each from its own slot, exactly when none is empty |
| GateDocuments.OpenedArtifactsAre | tools/hk_v1_admission_operational_evidence.py:985-1007 | plainly spelt artifacts that open are the artifacts of what they open to |
| GateLineage.GateFRoundTrip | tools/hk_v1_admission_operational_evidence.py:1039-1126 | a Gate F composite built from valid sources parses if and only if it fits, and gives every source and identity back |
| GateLineage.ParsedFIsBuilt | tools/hk_v1_admission_operational_evidence.py:1058-1126 | whatever parses as Gate F rebuilds from its own sources, to its own bytes if and only if its hexadecimal texts are plainly spelt |
| GateLineage.ScheduledRoundTrip | tools/hk_v1_admission_operational_evidence.py:1314-1423 | a scheduled-cycle readback gives back what was derived, exactly when it fits |
| GateLineage.GateGRoundTrip | tools/hk_v1_admission_operational_evidence.py:1565-1633 | a Gate G lineage built from a valid bundle parses if and only if it fits, and gives all twelve sources and the identities back; which bundles are valid is GateStory.LineageIsBuiltExactlyWhen |
| GateLineage.ParsedGIsBuilt | tools/hk_v1_admission_operational_evidence.py:1581-1633 | whatever parses as Gate G rebuilds from its own sources, to its own bytes if and only if its hexadecimal texts are plainly spelt |
| GateLineage.LineageReplays | tools/hk_v1_admission_operational_evidence.py:1445-1562 | an accepted lineage replays as compare-and-swap: baseline, changed, exactly the baseline again, exactly the changed state again, which all three Gate F readbacks name |
| GateLineage.CutoffsAndBootsAreInOrder | tools/hk_v1_admission_operational_evidence.py:1478-1530 | any two of the five cutoffs are in their order, and the reboot lies between the Gate F readbacks before and after it |
| GateRecords.ServingReads | tools/hk_v1_admission_operational_evidence.py:922-982 | a serving state is read if and only if it was written as one, and gives the active entry's own state and fingerprint |
| GateRecords.CycleReads | tools/hk_v1_admission_operational_evidence.py:1129-1175 | a cycle is read if and only if it was written as one of its kind and outcome, with a proposal exactly where the outcome has one |
| GateRecords.PromotionReads | tools/hk_v1_admission_operational_evidence.py:1178-1232 | a promotion readback is read if and only if it was written and sealed as one for its operation, and each value comes back in its own place |
| GateRecords.ScheduledReads | tools/hk_v1_admission_operational_evidence.py:1366-1423 | a scheduled-cycle readback is read if and only if it was written and sealed from artifacts that its owners derive it from |
| GateRecords.ScheduledBuilds | tools/hk_v1_admission_operational_evidence.py:1314-1348 | what the builder freezes is such a record of the artifacts it was given |
| GateRecords.FSourcesAreVouched | tools/hk_v1_admission_operational_evidence.py:1023-1036 | Gate F sources are valid if and only if every owner vouches for its own, host and restart agree on the boot, and the serving state reads |
| GateRecords.FBuilds | tools/hk_v1_admission_operational_evidence.py:1010-1055 | a Gate F composite is written out: every source under its own kind and owner, and the derived identities beside them |
| GateRecords.GBuilds | tools/hk_v1_admission_operational_evidence.py:1426-1442 | a Gate G lineage is written out: each of the twelve sources under its own kind and owner, and the states of its baseline and changed promotions |
| GateStory.LineageIsBuiltExactlyWhen | tools/hk_v1_admission_operational_evidence.py:1445-1562 | a Gate G lineage is built if and only if its sources read and tell: five rising cutoffs; two unlike promotions, their undoing and redoing value for value; one reboot between the readbacks; and two scheduled cycles, the first earlier, among the second's roots and without a change, the second proposing something new |
| GateStory.ParsedLineageTells | tools/hk_v1_admission_operational_evidence.py:1581-1633 | whatever lineage parses has sources that read and tell this |
| GateStory.SomeLineageIsAccepted | tools/hk_v1_admission_operational_evidence.py:1565-1633 | owners and twelve concrete sources for which a lineage is built and parses |

## Left out

- Processes, systemd, Docker, file descriptors, locks and `fsync`: the runner and the readbacks are arbitrary values, and the lock is the rule that one process runs at a time.
- JSON text, regular expressions over digests, and the constant fields of each document (schema names, provider and index flags): a document is its varying fields.
- The authority documents of the host-apply and archive tools: their checks compare each field with the plan, and the model takes the parsed authority or its verdict.
- The digests of archive plans: a plan is its contents.
- Symbolic links in the parents of a path (`_safe_path`) and permission bits of state directories.
- The topology, unit and path targets of the planner, and its other input fingerprints: they are printed and never read by the executor's grammar, so the model takes them as given texts.
- The credential, recovery, schedule, supervision, observability and host-facts owners: their verdicts are parameters.
- Whether a COMPLETE host-apply state is accepted by Gate F: that check expects an older action list and is part of an owner's verdict.
- The line grammar of the build tool's standard output: a build either tells its five rows or is refused.
- Interference with an archive plan's paths by other programs while it runs, a second run of the same plan among them: no lock keeps two apart, they share temporaries, and what ArchiveRuns proves is of one run at a time.
- A short write of the reboot state (tools/hk_v1_host_reboot.py:420-436), which the tool would rename into place.
- ArchiveExecutor.Cleanup.Execute: a calm invocation is promised to complete only for collision-free names, which every built plan has; a hand-written plan whose names collide with temporaries can overwrite an archived copy before anything is deleted, and then stops.
- HostRebootRuns.AtMostOneCommand: speaks of one state path; two plans that name different paths are independent.
- Member direction, metadata, imports and path globbing of the architecture check, and all entry points, fixture builders, policies and issuers: they would add one-branch predicates.
