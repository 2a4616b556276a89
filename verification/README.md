# Verification of the hosting control plane

This project models the part of the control plane that keeps two stores in step: the
Postgres rows (instances, jobs, snapshots, subscriptions, agent configurations) and the
servers and images at the cloud provider.  Its protocols run in several processes, any call
in them may fail, and a process may die between two calls.  The model says what each call
does, writes the code down as methods and as state machines, and proves what holds after
every run, every interleaving and every crash.

| file | what it models |
|---|---|
| `World.dfy` | the rows and the provider's resources, the calls that change them, the record of every step |
| `Upgrade.dfy` | moving an instance to a bigger server: snapshot, replacement, swap, checks, rollback |
| `Custody.dfy`, `Suspend.dfy`, `Resume.dfy` | where a customer's disk is; suspending an unpaid instance into an image; bringing it back |
| `Enforcement.dfy` | the billing clock: which subscriptions are due, and what a pass over them touches |
| `Jobs.dfy`, `JobTable.dfy` | the provisioning queue: the worker's program, any number of workers on a job, the table code |
| `Codex.dfy`, `CodexMarker.dfy` | finalising a Codex link once, with an advisory lock and a second check; the in-process marker that is not enough |
| `ConfigSync.dfy`, `ConfigMerge.dfy` | pushing a configuration to its VPS; merging concurrent updates of its row |
| `SnapshotCap.dfy` | at most three user snapshots, with a clock |
| `HostCommand.dfy`, `Text.dfy` | `sudo` inside a container: shell quoting, JSON, decoding, word splitting |
| `Tickets.dfy`, `Sessions.dfy`, `RateBucket.dfy` | websocket tickets, the session cap, the byte budget |
| `Names.dfy`, `EnvFile.dfy` | server names and labels; the upsert loop over an env file |
| `Options.dfy`, `Sets.dfy` | an option type, and a fact about finite sets |

`dafny verify dfyconfig.toml` checks everything.

## Assumptions

- A call that returns an error had no effect, and a call that returns none had its effect.
- The provider's new ids are fresh, and `GetServer(id)` describes the server `id`.
- Each SQL statement and each transaction is atomic, and row locks work as Postgres
  documents them.  A process that loses its database session has lost its advisory locks;
  the model treats both as one crash.
- The clock does not go backwards; where two processes compare times, their clocks agree.
- The upgrade saga is the only writer of its instance while the status is `upgrading`, and
  the enforcer and the resumer of theirs while they work on them.  Passes on one VPS run
  one at a time.
- On a VPS, writes of local files succeed, unless the script dies before them.
- A job has at least one attempt.  `CrashStopRun` is a hypothesis and is named where it is
  used: a stale row is reset only when its worker is gone.  The reconciler cannot know
  that, so results without the hypothesis are proved separately.
- The cap on snapshots depends on how soon the background task of a snapshot starts.  The
  code sets no limit on that; it is a parameter of the result.

## Findings

Where a property does not hold of the code, its exact condition is proved, and a run or an
input that breaks it is given.

- A job can be left `failed` with no attempt remaining, never to be claimed or declared
  dead, when a reset worker lives on (`Jobs.StrandedUnderZombie`); `Jobs.StrandingIsExact`
  says which write does it.
- A job can be completed, and its instance active, although only two steps have succeeded:
  the reconciler closes the job of an instance it finds running
  (`Jobs.CompletedByTheReconciler`); `Jobs.CompletionIsExact` says that nothing else does.
- Equal configuration versions mean equal env files, but not equal content.  An OpenClaw
  container may still run on older keys (`ConfigSync.RecordedButNotRunning`: a pass that
  dies between the env rewrite and the recreate leaves nothing for the next pass to
  notice), and so may a Hermes container (`ConfigSync.GoesOnAfterAFailedRecreate`: the
  heartbeat ignores a failed recreate, and the old container answers the health check).
  An OpenClaw model may be an older one (`ConfigSync.RecordedWithTheOldModel`: a failed
  model command is ignored).  `ConfigSync.CaresAreExact` says exactly which of these
  failures have to be ruled out for which part.
- A Hermes host whose heartbeat is answered without a version makes a whole pass, records
  version 0 and so makes another (`ConfigSync.RecordsVersionZero`).
- Two first configuration updates at the same moment lose preserved keys, because there is
  no row to lock yet (`ConfigMerge.FirstUpdatesLoseAKey`, `ConfigMerge.SerialIsExact`).
- Suspension deletes the server even without an image of it: on every instance a run can
  lose the disk (`Suspend.TheDiskCanBeLost`), and one that dies after the delete leaves a
  row that names no server (`Suspend.TheRowCanDangle`).  `Suspend.SuspensionIsExact` gives
  both conditions at every cut.
- An instance whose suspension got no ready snapshot comes back with an older disk, if an
  older ready system snapshot is left (`Resume.AnOldDiskCanComeBack`,
  `Resume.WithoutASnapshotTheOldOneComesBack`); `Suspend.ChoiceIsExact` says which
  snapshot a resume would choose.
- A resume whose new server has no address in the provider's first reply always fails and
  loses that server, because the empty string is not an `inet` value
  (`Resume.AddressIsNeeded`, `Resume.TheNewServerCanBeLost`); `Resume.ResumeIsExact` says
  when the server is lost.
- The in-process marker does not keep two finalisers apart (`CodexMarker.TheMarkerIsNotEnough`,
  `CodexMarker.ExclusionIsExact`); the advisory lock does.
- The snapshot cap fails when an executor starts more than four and a half minutes after
  its row (`SnapshotCap.FourSnapshots`, `SnapshotCap.CapWithTheCodesDeadlines`).
- `sudo` drops trailing newlines of an argument and refuses other control characters
  (`HostCommand.EveryOutcome`).
- Server names are said to comply with RFC 1123; an address such as `a_@b.co` makes one
  that does not (`Names.UnderscoreBreaksTheName`, `Names.ComplianceIsExact`).
- The env upsert glues its first new key to a last line that lacks its newline
  (`EnvFile.ConvergenceIsExact`).

## Model

| member | source | states |
|---|---|---|
| World.RowSoundnessIsExact | backend/internal/jobs/upgrader.go:351-441 | a row that names a live server and that server's address stays so under a call if and only if the call does not point the row at a missing server or a foreign address and does not delete the server the row names |
| World.Stores.Perform | backend/internal/provider/provider.go:35-46 | one call either has its whole effect or none, and is recorded |
| Upgrade.ExecuteUpgrade | backend/internal/jobs/upgrader.go:76-452 | at every cut of the run the row is sound and nothing outside its reach has changed; the old server is gone only after a replacement built from its image was seen running, had an address and took a password reset; if no clean-up call failed exactly one of the two servers and no image is left; if no status write failed the instance is in error exactly for one of three named reasons, and active otherwise; and if nothing failed but, perhaps, questions about the replacement, the row ends up on a new server of the wanted type, with the old one gone, if and only if some answer said that the replacement runs and its address came with its creation or with a later answer; short of such an answer it was asked as often as there are polls |
| Upgrade.CrashAnywhereIsSound | backend/internal/jobs/upgrader.go:76-452 | a run of allowed calls, cut off after any of them, leaves the row sound and everything else untouched |
| Upgrade.OldServerOutlivesTheChecks | backend/internal/jobs/upgrader.go:386-438 | if the old server is missing at some cut, a call deleted it at a moment when the row named a vetted replacement |
| Upgrade.AllowedCallsTouchNothingElse | backend/internal/jobs/upgrader.go:76-452 | allowed calls keep the other rows, servers, images and snapshots, and the old server's address |
| Upgrade.CleanupSnapshot | backend/internal/jobs/upgrader.go:186-195 | the image is gone unless the provider refused, the snapshot row says deleted only when it is, and nothing else changes |
| Upgrade.RollbackToOldServer | backend/internal/jobs/upgrader.go:351-371 | the row names the old server again and the replacement and the image are gone, unless one of these calls failed; the instance is in error only if the row write failed |
| Upgrade.TakeSnapshot | backend/internal/jobs/upgrader.go:162-185 | either a new image of the old server with its snapshot row, or no image and a row that says so unless that write failed; nothing else changes |
| Upgrade.LearnAddress | backend/internal/jobs/upgrader.go:391-402 | the address is the replacement's own; it is unknown only if neither its creation nor a fresh reply gave it |
| Upgrade.WaitForServer | backend/internal/jobs/upgrader.go:531-556 | the answer is yes if and only if a reply said that the replacement runs, and no only after all the polls, whether they failed or were answered otherwise; polling changes only what is known of it and the address in the row |
| Upgrade.NewsIsExact | backend/internal/jobs/upgrader.go:386-402 | what the run has been told of the replacement, as kept call by call, is what the record of its calls says: how often it was asked, whether an answer said that it runs, whether its address came |
| Upgrade.Vet | backend/internal/jobs/upgrader.go:386-414 | a positive answer means the row names a replacement that was seen running, has an address and accepted a password reset |
| Upgrade.AdoptReplacement | backend/internal/jobs/upgrader.go:373-452 | from the swap on, every exit settles the books unless a clean-up call failed |
| Upgrade.BuildReplacement | backend/internal/jobs/upgrader.go:162-349 | the exits before and after the image each undo exactly what has been built so far |
| Suspend.SuspendInstance | backend/internal/jobs/enforcer.go:87-121 | its calls are a whole suspension in the order of the code, with the server deleted whatever failed before, so every result about suspensions applies to it; nothing else is touched; if no call fails the row ends up suspended and names no server, and a ready system snapshot of the time holds the server's disk |
| Suspend.TheCalls | backend/internal/jobs/enforcer.go:94-165 | every whole suspension makes exactly the calls listed, in that order, where only the snapshot's own calls depend on whether its row was inserted and its image taken |
| Suspend.SuspensionIsExact | backend/internal/jobs/enforcer.go:87-165 | at every cut of every suspension: the server or an image of it is there if and only if the delete has not worked or the image call has; the row is sound if and only if the delete has not worked or the clearing has; a resume would choose this snapshot if and only if it was marked ready, and then its image holds the disk |
| Suspend.ChoiceIsExact | backend/internal/jobs/enforcer.go:129-165 | at every cut a resume would choose a snapshot if and only if it is this suspension's and was marked ready, or none was and it would have been chosen before |
| Suspend.EveryCutIsReached | backend/internal/jobs/enforcer.go:87-165 | at every cut servers, images, snapshots and row are a function of the calls that have worked |
| Suspend.TheDiskCanBeLost | backend/internal/jobs/enforcer.go:104-112 | on every instance a suspension can run to its end and leave neither the server nor an image of it |
| Suspend.TheRowCanDangle | backend/internal/jobs/enforcer.go:109-117 | on every instance a suspension that dies after the delete leaves a row that names a missing server |
| Suspend.TakeDown | backend/internal/jobs/enforcer.go:94-120 | the calls from the first status write to the last are a whole suspension, and all of it works if no call fails |
| Custody.GetSystemSnapshot | backend/internal/db/queries.go:844-863 | a newest ready system snapshot of the instance, or none exactly if there is none |
| Custody.ChoiceIsKeptExactly | backend/internal/db/queries.go:844-863 | the snapshot a resume would choose, and its data, survive another job's call if and only if the call does not ready a newer one, take this one's status or image, or delete the image |
| Enforcement.Enforcer.SuspendPastDue | backend/internal/jobs/enforcer.go:72-126 | only active instances of subscriptions past due for more than seven days change, only their servers are deleted, no image or snapshot from before changes, and exactly those subscriptions that can be listed and written become suspended; whatever fails, the server of every such instance with a known provider is the subject of a whole suspension that the record shows; unless a call fails every such instance ends up suspended without a server, and its disk is in the image of a ready system snapshot dated at the pass |
| Enforcement.Enforcer.TerminateSuspended | backend/internal/jobs/enforcer.go:170-196 | an image disappears only if it belongs to an instance whose subscription has been suspended for more than thirty days; no server is touched; whatever fails, for every such instance each image is asked to be deleted, each snapshot row and the instance row to be marked; unless a call fails every such instance is terminated with its snapshots deleted and their images gone |
| Enforcement.DeleteAllSnapshots | backend/internal/jobs/enforcer.go:225-250 | unless a call fails every undeleted snapshot of the instance is marked deleted and its image gone, and each is tried whatever fails; no other image or snapshot changes |
| Resume.ExecuteResume | backend/internal/jobs/resumer.go:50-272 | its calls are a whole resume from the latest ready system snapshot, so every result about resumes applies to it; it ends in `active` if and only if an answer said that the new server runs; if nothing fails but, perhaps, polls, it gives up only after all of them; it builds nothing when there is no such snapshot |
| Resume.ResumeIsExact | backend/internal/jobs/resumer.go:219-272 | at every cut of every resume: the disk is in the image or on a running server built from it that the row names; the image is gone if and only if its delete worked, and only in the second case; the run ends in `active` only then; the new server is lost if and only if it was built and the row write has not worked |
| Resume.EveryCutIsReached | backend/internal/jobs/resumer.go:50-300 | at every cut servers, images, snapshots and row are a function of the calls that have worked |
| Resume.RunningDecides | backend/internal/jobs/resumer.go:274-300 | at every cut of every resume it is past its polls if and only if an answer said that the server runs |
| Resume.ResumesAreOrdered | backend/internal/jobs/resumer.go:50-300 | at every cut each call comes right after one it may follow: the build after the status write, the row write after the build, polls after that, the end of the snapshot only after an answer that the server runs, `active` last |
| Resume.ResumeCompletes | backend/internal/jobs/resumer.go:247-272 | a resume that ends in `active` with no failure but of polls leaves an active row on the new server and its address, the snapshot marked deleted and its image gone |
| Resume.AddressIsNeeded | backend/internal/jobs/resumer.go:239-245 | if the first reply had no address, at every later cut the new server is lost and the run does not end in `active` |
| Resume.TheNewServerCanBeLost | backend/internal/jobs/resumer.go:219-245 | for every snapshot with an image a resume can build a server, lose it and end in error |
| Resume.ResumeTouchesNothingElse | backend/internal/jobs/resumer.go:50-300 | no other row, no old server, no other image and no other snapshot changes at any cut |
| Resume.WaitForServer | backend/internal/jobs/resumer.go:274-300 | polls until the server runs, storing its address if it comes along, or gives up with the error status after all the polls |
| Resume.SuspendThenResumeRestoresTheDisk | backend/internal/jobs/enforcer.go:129-165 | for every suspension that marked its snapshot ready, all harmless steps of other jobs and every later resume: at every cut the disk of the deleted server is in the image or runs again, and if the resume ends in `active` the row names a running server with that disk |
| Resume.WithoutASnapshotTheOldOneComesBack | backend/internal/db/queries.go:844-863 | for every suspension that did not mark its snapshot ready, all harmless steps and every later resume: the resume works from the snapshot it would have chosen before, and if it ends in `active` the row names a running server with that snapshot's disk |
| Resume.AnOldDiskCanComeBack | backend/internal/jobs/resumer.go:50-272 | on every instance with an older ready system snapshot a suspension and a resume can end in `active` on that disk, with neither the deleted server nor an image of it left |
| Resume.ChoiceSurvives | backend/internal/db/queries.go:844-863 | over any run of harmless steps the chosen snapshot and its data stay |
| Jobs.ClaimsAreCountedAndSeparated | backend/internal/db/queries.go:289-337 | for any number of workers, zombies included, attempts equals the claims and never exceeds the maximum, and two claims are separated by a write of `failed` |
| Jobs.ProgressIsEarned | backend/internal/jobs/provisioner.go:531-594 | a recorded step is backed by successes of all earlier step functions; a completed job by all six, and an instance marked active by a worker by the first five, or else the reconciler closed the job or activated the instance, and then a server is recorded and the first two steps succeeded |
| Jobs.RunsAreEarned | backend/internal/jobs/reconciler.go:195-249 | in every run a completed job has six successes behind it or was adopted, and an adopted or found instance has a recorded server and two successes |
| Jobs.CompletionIsExact | backend/internal/jobs/reconciler.go:232-246 | a step completes a job without six successes if and only if it is the reconciler's update of an instance found running, and not all six have succeeded |
| Jobs.CompletedByTheReconciler | backend/internal/jobs/reconciler.go:232-246 | a run that ends with a completed job and an active instance after two of the six steps |
| Jobs.WorkIsBounded | backend/internal/jobs/provisioner.go:531-594 | at most six step functions per attempt ever start |
| Jobs.MeasureDrops | backend/internal/jobs/provisioner.go:596-642 | attempts left, then work left, then the status rank: the measure drops on every claim, step, failure, crash and reset |
| Jobs.EveryRunEnds | backend/internal/jobs/reconciler.go:67-108 | every interleaving is finite, with an explicit bound |
| Jobs.StrandingIsExact | backend/internal/jobs/provisioner.go:596-642 | a job becomes failed without attempts left exactly by a retry written for an older claim after the last attempt was claimed |
| Jobs.StrandedUnderZombie | backend/internal/jobs/reconciler.go:67-77 | a run that strands a job for ever: a worker is reset during its ten-minute bootstrap, another claims the last attempt and dies, the first reports its failure; no later action changes the job |
| Jobs.CrashStopNeverStrands | backend/internal/jobs/reconciler.go:67-108 | under crash-stop no job is ever stranded |
| Jobs.ServersAreConserved | backend/internal/jobs/provisioner.go:842-860 | under crash-stop servers created = one if the row records one + those lost before the record + the one in flight |
| Jobs.NoServerAfterTheRecord | backend/internal/jobs/provisioner.go:664-669 | under crash-stop no server is created once one is recorded |
| JobTable.Table.ClaimNextJob | backend/internal/db/queries.go:289-337 | an oldest eligible unlocked row is claimed, or there is none, or the transaction failed and nothing changed |
| JobTable.Table.ReconcileStaleRunningJobs | backend/internal/jobs/reconciler.go:67-108 | exactly the running rows idle for two minutes move, to an immediately claimable `failed` or to `dead` |
| JobTable.Table.Execute | backend/internal/jobs/provisioner.go:531-594 | its calls are a complete run of the worker program of the state machine, in order, and write the job row as that run does; a finished run leaves a completed job and an active instance; if no row write fails, a run that stops in a step leaves the job failed, or dead when the attempts are used up, at that step, and the instance as provisioning for the first two steps, bootstrapping for the next two, installing the agent for the fifth, or in error when the job is dead; `active` comes only of entering the last step, and every step entered is backed by the successes of the steps before it, from the recorded one on; done whenever no call failed |
| JobTable.StepsAreEarned | backend/internal/jobs/provisioner.go:531-594 | at every point of a run the steps from the first one it ran up to that point have succeeded in it, and so have all before the last one it entered |
| JobTable.WalkIsOrdered | backend/internal/jobs/provisioner.go:531-594 | in every run each call comes right after one it may follow: a failed write is the last call, a failed step is reported and that is the last call |
| JobTable.Table.StepCreateServer | backend/internal/jobs/provisioner.go:658-876 | nothing is created when the row names a server; success means the row names one |
| JobTable.Table.HandleStepError | backend/internal/jobs/provisioner.go:596-642 | dead when the claim's attempts are used up, otherwise failed with the backoff delay |
| JobTable.BackoffGrowsToTheCap | backend/internal/jobs/provisioner.go:622-627 | the retry delay is five seconds at first, never shrinks, doubles until it reaches five minutes, and has reached them exactly from the seventh attempt on |
| Codex.OneFinaliserInside | backend/internal/api/codex.go:502-532 | with any number of processes, polls and crashes two finalisers are never both under the lock |
| Codex.NoSecondRestart | backend/internal/api/codex.go:418-497 | after a persisted link no finaliser restarts the gateway before an unlink or a re-auth report |
| Codex.EveryCallInOrder | backend/internal/api/codex.go:418-497 | in every run, with any number of processes, each call of a finaliser is its first or comes right after one of its own that it may follow |
| Codex.ConfiguredBeforeEveryRestart | backend/internal/api/codex.go:455-464 | in every run each restart of a Hermes gateway comes right after a configuration by the same finaliser that worked, and an OpenClaw agent is never configured |
| Codex.OrderIsExact | backend/internal/api/codex.go:418-497 | a sequence of calls is one of a finaliser if and only if each comes right after one it may follow |
| Codex.RunKeepsInv | backend/internal/api/codex.go:418-545 | in every run only the lock holder is inside, and whoever is about to restart found the link reopened |
| Codex.Stores.FinaliseCodexLink | backend/internal/api/codex.go:418-497 | follows the finaliser's program to its end, releases the lock, restarts nothing when the link is complete or the lock taken; restarts a Hermes gateway only after the agent is configured, and configures no other; persists only after a restart and a healthy poll, and gives up only after all the polls; when it gets the lock, the link is open and no call fails it restarts, and persists if and only if a poll was healthy |
| CodexMarker.ExclusionIsExact | backend/internal/api/codex.go:71-100 | with any number of polls, the marker alone keeps the finalisers of one process apart if and only if none can outlive it |
| CodexMarker.TheMarkerIsNotEnough | backend/internal/api/codex.go:30-32 | with ninety seconds against two minutes it does not |
| CodexMarker.Overlap | backend/internal/api/codex.go:71-83 | a run with two live finalisers whenever the cap exceeds the marker |
| CodexMarker.Marker.MarkRestart | backend/internal/api/codex.go:71-83 | granted exactly when there is no marker or it has expired, as actions of the machine; otherwise nothing changes |
| CodexMarker.Marker.RestartInFlight | backend/internal/api/codex.go:89-100 | the answer is whether there is a marker that has not expired; an expired one is deleted, as actions of the machine |
| ConfigSync.VersionsNeverLie | backend/internal/scripts/heartbeat.go:755-860 | with updates landing between any two steps of a pass and passes dying before any and heartbeats answered 0, local version <= version in the env file <= database version, so equal versions mean the env file holds the current keys |
| ConfigSync.CaresAreExact | backend/internal/scripts/heartbeat.go:755-860 | from every settled state and for every set of cares, on all runs that take them: equal versions mean a current model if and only if the framework is Hermes or no model command fails; a container on the current keys if and only if no pass is lost between rewrite and recreate, or the framework is Hermes and no heartbeat goes on after a failed recreate; all content current if and only if both |
| ConfigSync.ModelFollowsTheVersion | backend/internal/scripts/heartbeat.go:832-840 | in every run in which no model command fails, equal versions mean that the model is current |
| ConfigSync.ContainerFollowsTheVersion | backend/internal/scripts/heartbeat_hermes.go:505-596 | in every run in which no OpenClaw pass is lost between rewrite and recreate, or no Hermes heartbeat goes on after a failed recreate, equal versions mean that the container runs on the current keys |
| ConfigSync.EqualVersionsMeanEqualContent | backend/internal/scripts/heartbeat.go:755-860 | on a run with both cares equal versions mean equal content |
| ConfigSync.RunKeepsInv | backend/internal/scripts/heartbeat.go:755-860 | in every run each part of the VPS holds what its version says, and a pass records no version ahead of what it fetched |
| ConfigSync.PassesAreOrdered | backend/internal/scripts/heartbeat.go:755-860 | in every pass each step comes right after one it may follow: nothing is written before the configuration is fetched, nothing follows a recreate but a healthy container, the version comes last |
| ConfigSync.RecordedWithTheOldModel | backend/internal/scripts/heartbeat.go:832-858 | from every settled state of OpenClaw, a run that takes both other cares, but has a failed model command, after which versions agree and the model is the old one |
| ConfigSync.GoesOnAfterAFailedRecreate | backend/internal/scripts/heartbeat_hermes.go:505-596 | from every settled state of Hermes, a run in which no model command fails, but a heartbeat goes on after a failed recreate, after which versions agree and the container runs on old keys |
| ConfigSync.RecordsVersionZero | backend/internal/scripts/heartbeat_hermes.go:505-596 | from every state of Hermes between passes with a recorded version, a run in which nothing fails but the lookup of the version for one reply, after which version 0 is recorded and another pass is due |
| ConfigSync.TwoPassesConverge | backend/internal/scripts/heartbeat.go:755-860 | from any point of a pass, once the last update has landed that pass and one more bring version and env file up to date, the container too unless it was out of step, and the model; the first is enough for the version exactly if it records the last version |
| ConfigSync.RecordedButNotRunning | backend/internal/scripts/heartbeat.go:782-814 | from every settled state of OpenClaw, a run that takes both other cares, but has a pass that dies before its recreate, after which versions agree and the container runs on old keys |
| ConfigSync.Host.PassOpenClaw | backend/internal/api/sync.go:178-284 | the script, with its 24 polls and wherever it dies, runs the pass's program to the end, in order, and leaves the VPS as the program does; if nothing goes wrong the env file and the model are the configured ones, a container whose keys changed runs on them, and the version is recorded |
| ConfigSync.Host.PassHermes | backend/internal/api/sync.go:291-415 | the same for the Hermes script, where the container always runs on the new keys and a missing model is the default |
| ConfigMerge.MergeInto | backend/internal/db/queries.go:1352-1362 | the loop computes the merge: a value of the caller's wins, a preserved key that the caller leaves out or sets to null keeps its old non-empty text, every other key is as the caller has it |
| ConfigMerge.MergeIsExact | backend/internal/db/queries.go:1352-1362 | a map is the merge if and only if it satisfies these three rules, key by key |
| ConfigMerge.Table.UpdateAgentConfigAtomic | backend/internal/db/queries.go:1331-1393 | alone on the row: the merge, by the three rules, with the next version, which it is if no call fails, or no change; on no row, the caller's map at version 1 |
| ConfigMerge.Table.Select | backend/internal/db/queries.go:1331-1350 | the first half is the machine's begin of a transaction, so the results for all interleavings apply |
| ConfigMerge.Table.MergeAndCommit | backend/internal/db/queries.go:1352-1393 | the second half is the machine's commit, or its abort when a call fails |
| ConfigMerge.SerialIsExact | backend/internal/db/queries.go:1331-1393 | all interleavings equal the updates in commit order if and only if the row existed or nothing is preserved |
| ConfigMerge.RunsOnARowAreSerial | backend/internal/db/queries.go:1338-1393 | on an existing row every interleaving equals the fold of its commits, and every open transaction holds the row it read |
| ConfigMerge.FirstUpdatesLoseAKey | backend/internal/db/queries.go:1338-1380 | two first updates side by side wipe a secret |
| ConfigMerge.VersionCountsCommits | backend/internal/db/queries.go:1369-1380 | final version = initial version + commits |
| ConfigMerge.SecretsChangeOnlyOnPurpose | backend/internal/db/queries.go:1352-1362 | between two commits a preserved non-empty text stays unless a change in between carries a value other than null for it or overwrites the row |
| SnapshotCap.CapIsExact | backend/internal/db/queries.go:1289-1327 | in every interleaving of creations, executors, deletes and stale marks at most three user snapshots of an instance count, if and only if start delay + call deadline + write deadline do not exceed the staleness limit |
| SnapshotCap.CapWithTheCodesDeadlines | backend/internal/jobs/reconciler.go:308-340 | with 15 minutes, 30 seconds and 20 minutes the cap holds exactly for start delays up to 270 seconds |
| SnapshotCap.OnlyCreationAdds | backend/internal/api/snapshots.go:205-269 | within the deadlines only a creation adds to what the cap counts |
| SnapshotCap.RunKeepsInv | backend/internal/api/snapshots.go:235-269 | in every run a live executor's row is still in the making or too old for it to write |
| SnapshotCap.FourSnapshots | backend/internal/jobs/reconciler.go:323-338 | without the gap, a run with four counting snapshots |
| SnapshotCap.Table.CreateSnapshotWithLimit | backend/internal/db/queries.go:1289-1327 | one creation of the machine or nothing; when no call fails it inserts if and only if the machine allows it, which is when fewer than three user snapshots of the instance are in the making or ready; refused for the limit only when it is reached |
| SnapshotCap.Table.ExecuteCreateSnapshot | backend/internal/api/snapshots.go:235-269 | a run of the machine from the start of the task to its end, with both deadlines cutting it off; the row becomes ready with an image, or failed, or stays; it is ready if nothing goes wrong |
| SnapshotCap.Table.DeleteSnapshot | backend/internal/api/snapshots.go:180-343 | a run of the machine; only ready and failed snapshots are accepted, the row says deleted only if the provider deleted the image and failed only if it refused, and it ends as deleted if nothing goes wrong |
| SnapshotCap.Table.ReconcileStaleSnapshotting | backend/internal/jobs/reconciler.go:308-340 | a run of the machine; exactly the user snapshots in the making for longer than the limit are failed, if no call fails |
| HostCommand.EveryOutcome | backend/internal/scripts/host_admin.go:591-633 | for every argument list: usage error, refusal, or exactly the arguments without their trailing newlines |
| HostCommand.AfterFlagsIsExact | backend/internal/scripts/host_admin.go:591-606 | the arguments of the command are those from the first that is none of seven flags, without that one if it is `--` |
| HostCommand.DeliveryIsExact | backend/internal/scripts/host_admin.go:519-552 | the host runs exactly the given list if and only if it is not empty, no argument has a control character, and the line fits the size limits |
| HostCommand.Sudo | backend/internal/scripts/host_admin.go:591-622 | the flag loop and the quoting loop compute the command line of the arguments after the skipped flags |
| HostCommand.ShellQuoteIsOneWord | backend/internal/api/desktop.go:567-569 | the shell reads shellQuote(s) as the single word s, for every s |
| HostCommand.CommandLineSplits | backend/internal/scripts/host_admin.go:611-622 | word splitting gives back the quoted words |
| HostCommand.EscapedParses | backend/internal/scripts/host_admin.go:519-521 | a strict JSON decoder returns the escaped text, or refuses it exactly for a control character |
| HostCommand.BodyParses | backend/internal/scripts/host_admin.go:530-552 | the decoded body has the action, the very command and the timeout |
| HostCommand.CommandLineSize | backend/internal/scripts/host_admin.go:397-405 | the bytes of the line in terms of the arguments |
| Tickets.TerminalRoundTrip | backend/internal/api/terminal.go:327-364 | a signed ticket verifies to what was signed until it expires, and is refused as expired after |
| Tickets.ScopedRoundTrip | backend/internal/api/desktop.go:681-721 | a scoped ticket is accepted if and only if its scope has no dot and is the expected one and it has not expired; each refusal has its reason |
| Tickets.KindsAreSeparate | backend/internal/api/desktop.go:689-693 | terminal and scoped tickets never pass for each other |
| Tickets.AcceptedIsSealed | backend/internal/api/terminal.go:336-364 | an accepted ticket is a payload under its own signature |
| Tickets.SameClaimsSameTicket | backend/internal/api/desktop.go:689-721 | two accepted tickets with equal payload parts are identical |
| Tickets.SignaturesHaveNoDot | backend/internal/api/terminal.go:331-332 | base64url output has no dot |
| Tickets.IntRoundTrip | backend/internal/api/terminal.go:328-348 | printing and parsing a 64-bit expiry gives it back, without a dot |
| Tickets.JoinUndoesSplit | backend/internal/api/terminal.go:337-355 | joining the parts of a ticket gives the ticket |
| Sessions.AtMostTwoSessions | backend/internal/api/terminal.go:42-49 | however handlers interleave no user is in more than two sessions, and the next is let in if and only if fewer than two are there |
| Sessions.LeavingIsAlwaysPossible | backend/internal/api/terminal.go:151-157 | the counter never underflows |
| Sessions.Counters.Open | backend/internal/api/terminal.go:151-157 | counting in and looking are the two actions of the machine, and the handler is admitted if and only if the counter was below two |
| RateBucket.Counter.Allow | backend/internal/api/terminal.go:380-391 | admits and counts as the specification says |
| RateBucket.TwiceTheLimit | backend/internal/api/terminal.go:369-391 | in any interval no longer than the window at most twice the limit is admitted |
| RateBucket.TwiceTheLimitIsReached | backend/internal/api/terminal.go:369-391 | twice the limit can be admitted within one tick, so the bound is the best one |
| RateBucket.LimitPerWindow | backend/internal/api/terminal.go:369-391 | within T of creation at most limit * (1 + T / window) is admitted |
| RateBucket.RefusalIsEarned | backend/internal/api/terminal.go:386-388 | a refused call would have exceeded the limit over the last window |
| Names.SanitizeLabelValue | backend/internal/jobs/provisioner.go:1125-1150 | the three loops compute the sanitized value |
| Names.SanitizedIsTheMiddle | backend/internal/jobs/provisioner.go:1123-1150 | the value is the stretch from the first to the last letter or digit of the mapped and cut input; at most 63 allowed characters, properly bounded |
| Names.FixedPointsAreExact | backend/internal/jobs/provisioner.go:1123-1150 | sanitizing is idempotent, and its fixed points are exactly the valid values |
| Names.BuildServerName | backend/internal/jobs/provisioner.go:1166-1196 | the branches and the trimming loop compute the specified name |
| Names.NameFitsExactly | backend/internal/jobs/provisioner.go:1164-1196 | a name has at most 63 characters if and only if code, hyphen and id do; it begins with the code and ends in the whole id |
| Names.NameIsExact | backend/internal/jobs/provisioner.go:1164-1196 | between code and id stands the sanitized address, all of it if there is room, else the longest beginning that fits and ends in a letter or digit, and nothing if there is no room for a character |
| Names.NamesAreInjective | backend/internal/jobs/provisioner.go:1166-1196 | names for ids of equal length are equal only if the ids are |
| Names.UpgradeNamesAreNew | backend/internal/jobs/provisioner.go:1198-1200 | a replacement's name differs from the old server's and from other attempts' unless the random ids coincide |
| Names.ComplianceIsExact | backend/internal/jobs/provisioner.go:1164-1196 | a name is an RFC 1123 host name of at most 63 characters if and only if every dot of its address part stands between letters or digits and code, hyphen and id fit |
| Names.UnderscoreBreaksTheName | backend/internal/jobs/provisioner.go:1164-1166 | a mail address whose server name is not a host name |
| EnvFile.Env.EnsureSettings | backend/internal/scripts/heartbeat_hermes.go:130-165 | the loop computes the fold of one upsert per setting and reports a change exactly when the file changed |
| EnvFile.ConvergenceIsExact | backend/internal/scripts/heartbeat_hermes.go:130-165 | every key reads its value, and a second pass changes nothing, if and only if the file ended in a newline or missed no key; then all other lines are kept in order |
| EnvFile.SecondPassConverges | backend/internal/scripts/heartbeat_hermes.go:130-165 | after two passes every key reads its value whatever the file was |
| EnvFile.MissingStaysMissing | backend/internal/scripts/heartbeat_hermes.go:152-158 | a key whose line was glued to another is still missing at the end of the pass |
| EnvFile.OneKey | backend/internal/scripts/heartbeat_hermes.go:152-156 | a line sets at most one key |
| EnvFile.GuardKeysAreWellFormed | backend/internal/scripts/heartbeat_hermes.go:132-151 | the nineteen keys of the guard are distinct and have no equals sign |

## Left out

- executeDowngrade, executeRestore, the teardown of canceled subscriptions and the other reconcilers: they repeat the patterns of the modelled code.
- Root-password storage and DNS updates: their failures are ignored by the code, so nothing firm is promised; the password write of stepCreateServer is kept because its error fails the step.
- HTTP handlers, authentication, audit logs, metrics and the frontend.
- The provider's, Cloudflare's and Stripe's clients: every call is an outcome that may be an error.
- User-triggered deletion during an upgrade, and termination while a user snapshot is being made: both overwrite what the other does; the results assume they do not overlap.
- Codex: setHermesCodexAgentConfig reads and rewrites the configuration without a lock; it is one outcome here, and its effect on the row is the `Overwrite` action of ConfigMerge.
- ConfigSync: the model set by the backend's config.patch RPC before the SSH script runs, the contents of Google credentials (they come from another table), the Telegram lines and SOUL.md of Hermes, and the registration of further models.
- ConfigMerge: the JSON encoding of a configuration; a value is null, a text, or something else.
- JobTable.Table.Execute: `now` is one time for all row writes of a run, and the deadlines of the steps are failures of their calls.
- Codex: the marker's map is modelled for one instance; the handler's SSH probe is one outcome.
- Upgrade.ExecuteUpgrade: the deadlines of the run are failures of its calls; the poll loop is bounded by a number of polls.
- Suspend.SuspensionIsExact: that a resume chooses the suspension's snapshot assumes that its `created_at` is later than that of every older ready system snapshot of the instance; the rest needs no such assumption.
- Suspend.ChoiceIsExact: rests on the same assumption.
- HostCommand: the timeout taken from the environment and from `--timeout`, `\u` escapes, blank characters outside ASCII, and shell lines with expansions, which the shim never produces.
- Tickets: uuid.Parse and HMAC-SHA256 are uninterpreted; the only assumption is that printed ids parse back and have no dot.
- Sessions: the counters live in one backend process, so the cap is proved per process; the 32-bit width of the counter.
- SnapshotCap: the status column of the instance, which the handler reads and the executor resets; any instance may be asked for a snapshot at any time.
- RateBucket: the machine width of the byte counts.
- EnvFile: the values contain no character that is special in a sed replacement, as is the case for the guard's; sync_data_env and the checksum tool are not part of this model.
- Cloud-init templates and the rest of the shell scripts.
