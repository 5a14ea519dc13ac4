# A verified model of the Opsy AMI operator

The operator builds machine images. A `PackerBuilder` object moves through a small state
machine that is kept twice: in the object's stored status and in an in-memory runner. The
operator also drives Kubernetes jobs and EC2 image tags, any call to which may fail, and its
process may stop at any point. This project models that core in Dafny and proves what holds
in every run.

| file | contents |
|---|---|
| `opsy.dfy` | the transition table and the runner |
| `protocol.dfy` | one builder's reconcile as deterministic small steps; failures and the outside world's choices are parameters of the events |
| `protocol_inv.dfy`, `protocol_jobs.dfy` | what each step keeps: the two copies, jobs, rank, progress |
| `world.dfy`, `runs.dfy` | many builders, jobs, EC2, a clock, restarts; results about whole runs |
| `reconciler.dfy` | the handlers as imperative code amid others, each proved to take part in a run of the world |
| `stories.dfy` | runs of a new builder that reach the exceptional states |
| `images.dfy`, `freshness.dfy`, `separation.dfy`, `ownership.dfy` | tags, the latest image, the age checks; no rebuild while an image is fresh; whose tags a builder may touch; the image update in place |
| `active_builds.dfy` | the scan of the builder's jobs |
| `watch.dfy`, `timeout.dfy` | the build watch and `runWithTimeout` as interleaved steps over bounded channels |
| `slices.dfy`, `commands.dfy`, `rendering.dfy` | the command list on shared arrays, its normal form, the shell line |
| `settings.dfy` | how often a build's line sets a variable, as text |
| `shell.dfy`, `script.dfy`, `as_written.dfy`, `job_commands.dfy` | how the shell reads a job's script, echo and all, and exactly when it runs the commands as they are meant; from the flight check to the script |
| `conditions.dfy`, `logscan.dfy`, `status_update.dfy` | the condition list, the log reader, the optimistic status write |

## How to read the protocol

A call has three fates: it landed, it landed but was reported as failed, or it was lost.
`Abandon` cuts a reconcile off after any step; `Restart` empties the runner and drops all
running reconciles. A run is a sequence of worlds joined by events of any builder or of the
environment, in any order. The methods of `reconciler.dfy` work on fields of their own; before
every call others may act (`Others`): other builders on the shared runner and on EC2, jobs that
finish or vanish, and during a watch and the update after it the reconcile's own log reader.
`Valid` says that what has happened so far is a run of the world and that the fields show its
last world, so what holds in every run holds at every moment of this code; `Runs.Operate` says
so for reconciles and restarts, between reconciles and inside them, in any order. `Valid` says
besides that no step the code takes cuts its reconcile off, and that a reconciler none of whose
calls fail (`faultless`) never records a failure without a ground outside; only
`ReconcileKilled` cuts a reconcile off. So a handler that stores nothing when nothing fails
breaks its contract.

Three properties one would expect do not hold of the code as it stands, and are stated with
their exact conditions.

- A job's script need not run the job's commands. The script is
  `echo 'Executing command:' && echo '<command>' && <command>`, so each text stands in it
  twice, the first time inside quotes that the quotes of every variable flag open again. The
  shell reads it as two echoes and then exactly the commands, word for word as they are meant,
  if and only if no variable's name or value holds a single quote, every other text is plain
  and not empty, and the joined commands, put between single quotes, get back there within one
  command (`AsWritten.ScriptRunsAsMeant`). For the last it is enough that each name and value
  could stand unquoted (`AsWritten.EachPassesThrough`). Where the first flag's value is made
  of two plain halves joined by ` && `, the second half begins a command of its own, ahead of
  all others (`Shell.HalfOfValueIsCommand`); where it holds a special character and no quotes,
  as in `f(x)` or `a;b`, the script is no longer a list of commands joined by `&&`
  (`Shell.SpecialValueIsNotRead`).
- A build need not set `ami_id` (or `region`) just once. As text, its line does so if and only
  if no variable's name begins with `ami_id=`, and neither a name and value nor an argument,
  fixed flag or directory contains `-var 'ami_id=`, nor two neighbouring texts between them
  (`Settings.EveryBuildSetsOnce`). As words, where the script runs as meant, it does so if and
  only if no name begins with `ami_id=` and the arguments hold no `-var` followed by a word
  that begins so (`Script.MeantSetsOnce`). Not counted is the form `-var=ami_id=x`, one word,
  which Packer takes as well.
- A success of `runWithTimeout` may be reported as a failure. While the caller waits, it is
  sure to return the operation's own result next if and only if the deadline has not passed
  and the error channel has not been closed.

Assumptions: reads of status and jobs are current; one reconcile runs at a time per builder;
uuids are fresh; only the builder's own reconciles create jobs with its label; nobody edits
status or tags by hand; a timed-out or cancelled call makes no change afterwards; a stamp is
taken at the moment its tagging call takes effect; specs and failure counters do not change
during a run; a job's `finished` flag never goes back, nor does its success or failure. A
listing of images and the verdict or adoption that rests on it are one step, and so are naming a job in
the status and creating it.

Where the documentation and the code differ, the model follows the code. The documentation
says that an adopted image must not be expired (docs/packer-builder.md:126-130); adoption
checks only that the newest image is active. It also shows a default command with a
directory argument (docs/packer-builder.md:110-113); the code adds one only if a directory
is configured.

## Model

| member | source | states |
|---|---|---|
| `Runs.CopiesAgree` | internal/controller/ami/packerbuilder_controller.go:132-163 | in every run the stored state equals the runner's, or is one table edge ahead, or the pair is (AMICreated, Error), or (Initial, AMICreated) after an earlier restart; JobFailed appears in neither copy |
| `Stories.StuckIsReached` | internal/controller/ami/packerbuilder_controller.go:165-195 | a new builder reaches the pair (AMICreated, Error) without a restart: its job succeeds, and then a failed clean-up stores Error where the runner has no edge to follow |
| `Stories.RestartedPairIsReached` | internal/controller/ami/packerbuilder_controller.go:132-140 | a run of a new builder, by way of a job that succeeds, ends with a restart in the pair (Initial, AMICreated) |
| `Runs.StuckUntilRestart` | internal/controller/ami/packerbuilder_controller.go:132-163 | from the pair (AMICreated, Error) no run without a restart ever changes either copy or enters a handler |
| `Runs.RestartFrees` | internal/controller/ami/packerbuilder_controller.go:132-163 | from the stuck pair a restart and then a complete reconcile without faults or waiting exist as a run, and it ends with Error left and both copies equal |
| `ProtocolJobs.FaultFreeProgress` | internal/controller/ami/packerbuilder_controller.go:132-163 | every complete reconcile without faults or waiting ends with both copies equal and the stored state moved on, unless it began in (AMICreated, Error) |
| `ProtocolJobs.CalmReconcileExists` | internal/controller/ami/packerbuilder_controller.go:132-163 | such a reconcile exists from everywhere between reconciles but that pair, a capped failure count, and JobRunning with a job that has neither succeeded nor failed nor vanished, which has to be waited for |
| `Runs.RoundBound` | internal/controller/ami/packerbuilder_controller.go:434-499 | between two stays in Initial the stored state changes at most seven times, whatever fails |
| `ProtocolJobs.StepDescends` | pkg/opsy/opsy.go:35-44 | every change of the stored state that leaves neither the unset state nor Initial goes strictly down in rank |
| `ProtocolJobs.Descent` | internal/controller/ami/packerbuilder_controller.go:434-499 | a stretch of stored states away from Initial changes no more often than its rank drops |
| `Runs.OneUnfinishedJob` | internal/controller/ami/packerbuilder_controller.go:197-228 | a builder never has two unfinished jobs, provided each of its own reconciles that creates one lands a status write before it stops, whatever becomes of other builders' reconciles; between reconciles stored JobCreation means none is unfinished |
| `Stories.DebtDoubles` | internal/controller/ami/packerbuilder_controller.go:197-218 | the proviso is needed: a run of a new builder, cut off once right after creating a job, creates a second one beside it |
| `ProtocolJobs.StepKeepsJobs` | internal/controller/ami/packerbuilder_controller.go:252-288 | each step keeps the invariant that ties stored JobCreation and a passed active-build check to the absence of unfinished jobs |
| `Runs.CompletedMeansSucceeded` | internal/controller/ami/packerbuilder_controller.go:639-675 | in every run, JobCompleted or AMICreated is stored only if the job that the status names was reported as succeeded |
| `Runs.JobsNameTheirBase` | internal/controller/ami/packerbuilder_controller.go:378-394 | with AMI filters set, every job created in any run names the base image found by the flight check that let it through |
| `JobCommands.BuildsRunWithTheirBase` | internal/controller/ami/packerbuilder_controller.go:416-432 | every build of a created job has the job's base image, which is the one the flight check found, as its ami_id; the text of its line sets ami_id once exactly under the condition above |
| `JobCommands.ScriptRunsTheCommands` | pkg/manager_packer/job.go:206-211 | the shell runs the emitted commands of a filtered job as they are meant exactly under the condition above, and the words of each build then set ami_id, and region, once exactly under theirs |
| `JobCommands.ScriptBegins` | pkg/manager_packer/job.go:206-211 | in any job's script that runs as meant the third command is a packer init, the fourth a packer validate, and a later one a packer build |
| `JobCommands.LinesHaveOrders` | pkg/manager_packer/command.go:26-44 | whatever lines a filtered job's commands are rendered to, they are the texts of those commands for some walks of their variables, and there is at least one |
| `Runs.Operate` | internal/controller/ami/packerbuilder_controller.go:94-130 | reconciles and restarts, between reconciles and inside them, in any order and with everybody else at work, keep the relation between the copies at every moment |
| `ProtocolInv.StepKeepsPair` | internal/controller/ami/packerbuilder_controller.go:434-499 | every step of a reconcile, failed or not, keeps the relation between the runner, the stored status and the local copy, phase by phase |
| `World.StepInv` | internal/controller/ami/packerbuilder_controller.go:132-163 | every event of any builder or of the environment keeps that relation for all builders at once |
| `World.OthersKeepCurrent` | pkg/opsy/opsy.go:48-78 | a builder's step does not change what the runner says about any other builder's BuildIDs |
| `Opsy.Targets` | pkg/opsy/opsy.go:35-44 | the table's lists contain exactly the edges of the transition relation |
| `Opsy.Transitions` | pkg/opsy/opsy.go:35-44 | the relation edge by edge |
| `Opsy.OpsyRunner.IsValidTransition` | pkg/opsy/opsy.go:80-91 | true exactly on table edges |
| `Opsy.OpsyRunner.SetState` | pkg/opsy/opsy.go:48-62 | moves the state of one id along a table edge, from Initial when the id is unknown, and otherwise refuses and changes nothing |
| `Opsy.OpsyRunner.GetCurrentState` | pkg/opsy/opsy.go:70-78 | the recorded state, Initial for an unknown id |
| `Reconciler.PackerBuilderReconciler.ReconcileUpdate` | internal/controller/ami/packerbuilder_controller.go:434-499 | success means stored and runner state are the new one, and is certain where no call fails and the table has the edge; failure leaves the store with the old or new status, the runner with the old or new state, and the reconcile over or bound for Error; the status is as it was but for what a log reader captured |
| `Reconciler.PackerBuilderReconciler.Others` | internal/controller/ami/packerbuilder_controller.go:681-688 | what may happen while a call is awaited: a run of others' events, after which the reconcile's state, its entries in the runner and its stored status are as before, jobs have at most finished or vanished, and only a log reader has written to the copy |
| `Reconciler.PackerBuilderReconciler.TransitionToErrorState` | internal/controller/ami/packerbuilder_controller.go:627-637 | ends the reconcile with the stored status unchanged or in Error; in Error, in both copies, where no call fails and the table has the edge |
| `Reconciler.PackerBuilderReconciler.Move` | internal/controller/ami/packerbuilder_controller.go:434-499 | the update a handler ends with, and the error state if it fails: the new state, Error or nothing is stored, and the new state in both copies where no call fails and the table has the edge |
| `Reconciler.PackerBuilderReconciler.CatchRek` | internal/controller/ami/packerbuilder_controller.go:132-163 | the dispatch, amid others, extends the run of the world up to the end of the reconcile without cutting it off |
| `Reconciler.PackerBuilderReconciler.Reconcile` | internal/controller/ami/packerbuilder_controller.go:94-130 | one reconcile, amid others, begins by fetching the status and comes to its end uncut; if none of its own steps is a fault or a wait, and it did not begin in (AMICreated, Error), the stored state has moved on and the runner agrees; where no call fails, none of its steps is a fault |
| `Reconciler.CameThrough` | internal/controller/ami/packerbuilder_controller.go:132-163 | a reconcile recorded from its beginning to its end, none of whose own steps is a fault or a wait, amid anybody else's steps, has moved the stored state on and ends with both copies equal |
| `World.RunOnItsWay` | internal/controller/ami/packerbuilder_controller.go:132-163 | at every moment of such a reconcile the builder is on its way from the state it began in, whatever others do |
| `Reconciler.PackerBuilderReconciler.ReconcileKilled` | internal/controller/ami/packerbuilder_controller.go:94-130 | a reconcile cut off at any of its events, followed by a restart, extends the run of the world and leaves the runner empty |
| `Reconciler.PackerBuilderReconciler.FlightCheck` | internal/controller/ami/packerbuilder_controller.go:252-288 | JobCreation is newly stored only when no job is unfinished, whatever others do, and after a recorded verdict to build that rests on a listing of the builder's images the age check accepted at that moment; where no call fails it ends in JobRunning only if a job was unfinished, in JobCreation, with an adoption, or with a refusal whose ground is recorded |
| `Reconciler.PackerBuilderReconciler.Conclude` | internal/controller/ami/packerbuilder_controller.go:396-414 | records its verdict, which is to build exactly when both checks succeeded; such a verdict rests on a listing of the builder's images that the age check accepts at that moment, and stores JobCreation where no call fails; any other stores nothing and, where no call fails, has a ground in the images or the base image |
| `Reconciler.PackerBuilderReconciler.TryAdoption` | pkg/manager_packer/manager.go:243-261 | goes on without an adoption only if an image is already recorded or none of the builder's is listed at that moment; otherwise it fails, or a recorded adoption ends the reconcile with the state kept |
| `Reconciler.PackerBuilderReconciler.ProcessFlightCheckResults` | internal/controller/ami/packerbuilder_controller.go:378-394 | passes exactly when all results do; the last passed base check decides the base image |
| `Reconciler.PackerBuilderReconciler.AdoptExistingImage` | pkg/manager_packer/manager.go:192-241 | the newest listed image, which is active, is adopted with the base image its tags name and under a new BuildID; the state stays, and the reconcile ends |
| `Reconciler.PackerBuilderReconciler.CreateBuild` | internal/controller/ami/packerbuilder_controller.go:197-228 | at most one job is added, unfinished and named after the status's base image; other jobs only finish or vanish; where no call fails JobRunning is stored with the name of a job that was added or already there |
| `Reconciler.PackerBuilderReconciler.RunningBuild` | internal/controller/ami/packerbuilder_controller.go:501-557 | the watch and the update after it, with the log reader at work beside both, extend the run of the world; where no call fails and the job is decided, JobCompleted or Error is stored in both copies, JobCompleted if the job succeeded |
| `Reconciler.PackerBuilderReconciler.WatchBuild` | internal/controller/ami/packerbuilder_controller.go:639-675 | the watch ends in success only if the job that the status names was reported as succeeded, and as unsuccessful only if it was reported as failed or no longer exists |
| `Reconciler.PackerBuilderReconciler.InitState` | internal/controller/ami/packerbuilder_controller.go:301-326 | a failure count at its cap (3 if not set) stores nothing; otherwise FlightChecks or Error, and FlightChecks in both copies where no call fails |
| `Reconciler.PackerBuilderReconciler.CleanupBuild` | internal/controller/ami/packerbuilder_controller.go:165-195 | Initial is stored only with the key pair and the security group forgotten; Error with whatever could not be deleted still named; or nothing; where no call fails, Initial in both copies |
| `Reconciler.PackerBuilderReconciler.CompleteBuild` | internal/controller/ami/packerbuilder_controller.go:230-239 | stores AMICreated or Error, or nothing; AMICreated in both copies where no call fails |
| `Reconciler.PackerBuilderReconciler.ErrorBuild` | internal/controller/ami/packerbuilder_controller.go:241-250 | stores Initial or Error, or nothing; Initial in both copies where no call fails |
| `ActiveBuilds.IsBuildFinished` | pkg/manager_packer/manager.go:386-393 | a job is finished exactly when it carries a true Complete or Failed condition |
| `ActiveBuilds.GetActiveBuilds` | pkg/manager_packer/manager.go:338-351 | the unfinished jobs in listed order, and the name of the last one |
| `ActiveBuilds.CheckSeesUnfinished` | pkg/manager_packer/manager.go:110-119 | the active builds of a listing, in which finished means a true Complete or Failed condition, are exactly the builder's unfinished jobs |
| `Freshness.NoJobWhileFresh` | internal/controller/ami/packerbuilder_controller.go:272-288 | from the moment a builder stamps an image, no run creates a job for it before the stamp has aged by validFor, while that image stays strictly the builder's newest |
| `Freshness.TaggedIsNewest` | pkg/manager_packer/manager.go:425-453 | a landed tagging call makes its image strictly the builder's newest when the builder's other images were stamped in earlier seconds |
| `Stories.FreshRound` | internal/controller/ami/packerbuilder_controller.go:501-557 | such runs exist: a new builder's build stamps an image, completes the round with its job's success, cleans up, and the next flight check says no |
| `Stories.FreshRunExists` | internal/controller/ami/packerbuilder_controller.go:501-557 | one such run, from a world given outright and in a notation of stamps that reads back |
| `Freshness.ExpiredStaysAllowed` | pkg/manager_ami/ami.go:269-271 | once the time is past the stamp of the builder's strictly newest image plus validFor, every later listing of the same run lets a build through, as long as the newest stamp is no younger |
| `Freshness.CheckFollowsNewest` | pkg/manager_packer/manager.go:172-190 | with a strictly newest image the age check allows a build exactly when the time is past that image's stamp plus validFor, or the image is not active |
| `Freshness.TaggingGuards` | pkg/manager_packer/manager.go:425-453 | a tagging call that lands, even if reported as failed, is enough to start that protection |
| `Freshness.GuardStep` | pkg/manager_packer/manager.go:313-336 | each step of any builder or of the environment keeps the image stamped, active and unthreatened |
| `Separation.TagsAreSafe` | pkg/manager_packer/manager.go:263-287 | in any run, with all builders at work, an image stays its builder's and no step of another builder changes any of its tags, unless it is deleted or another builder's log reports it |
| `Separation.TaggedImageStaysFound` | pkg/manager_packer/manager.go:172-190 | from the moment a tagging call lands, every later listing of the same builder contains the image |
| `Images.TaggedImageIsFound` | pkg/manager_packer/manager.go:263-287 | filters built with fewer options accept every image tagged with more, whatever tags it had before |
| `Images.FiltersSeparate` | pkg/manager_packer/manager.go:263-287 | one image cannot match filters of two builders that differ in cluster, name, repository or branch |
| `Images.BuildTagsAndFilters` | pkg/manager_packer/manager.go:263-287 | fills in exactly the tags the options ask for, each with its own value: cluster, name, repository, branch, base image, job and build id, stamp and status |
| `Images.FindLatestImage` | pkg/manager_ami/ami.go:219-258 | the two nested loops compute the scan whose meaning LatestMeaning states |
| `Images.LatestMeaning` | pkg/manager_ami/ami.go:219-258 | succeeds exactly on a non-empty list of readable images, with the earliest of the newest; otherwise names the first unreadable image, or reports none; never a missing image without an error |
| `Images.StampMeaning` | pkg/manager_ami/ami.go:226-245 | an image's time is what its first create-timestamp tag says, failing that its creation date, failing that the zero time |
| `Images.ExistColumnIsDead` | pkg/manager_ami/ami.go:160-165 | the branch for a missing latest image is never taken |
| `Images.OppositeVerdicts` | pkg/manager_ami/ami.go:34-50 | the PackerBuilder and AMIRefresh tables disagree on every list and time except when the newest image is young and inactive, where both pass |
| `Images.BuildVerdict` | pkg/manager_ami/ami.go:133-195 | a build is refused exactly when the newest image is readable, active, and no older than validFor |
| `Images.BuildStaysAllowed` | pkg/manager_ami/ami.go:269-271 | for a fixed list of images: once allowed, a build stays allowed |
| `Images.IsImageActive` | pkg/manager_ami/ami.go:260-267 | true exactly when some tag says status active |
| `Ownership.Ec2Client.HandleAMIUpdates` | pkg/manager_packer/manager.go:366-384 | on success the image carries the full tag set and is the only active one of its identity and base image, and its siblings are deprecated; on any failure it is left alone or fully tagged, and in no family of the builder is another image newly active |
| `Ownership.Ec2Client.DeprecateOldAMIs` | pkg/manager_packer/manager.go:313-336 | touches only status tags of family members other than the excluded image; on success all of those are deprecated and can no longer be launched by everybody |
| `Ownership.Ec2Client.DeprecateAMI` | pkg/manager_packer/manager.go:289-311 | drops the launch permission and deprecates one image; an image whose tags changed has lost the permission |
| `Ownership.Ec2Client.TagAMI` | pkg/manager_packer/manager.go:425-453 | writes the full tag set on one existing image, or changes nothing |
| `Ownership.Ec2Client.UpdateInTurn` | pkg/manager_packer/logstream.go:135-147 | any sequence of a builder's updates over any images and base images, each retried to success: starting from at most one active image per base image, there is never more than one between updates nor more than two at any moment |
| `BuildWatch.NoClosedChannelIsUsed` | internal/controller/ami/packerbuilder_controller.go:328-376 | in every interleaving nothing is sent on a closed channel and the consumer meets no closed one |
| `BuildWatch.DoneMeans` | internal/controller/ami/packerbuilder_controller.go:639-675 | the watcher is done only after it sent the result of a job that is over, sent an error that ends it, or saw the cancellation; the log streamer only at the end of the logs or after its error |
| `BuildWatch.NeverBlocked` | internal/controller/ami/packerbuilder_controller.go:501-557 | if the consumer left by receiving and the watch delivers only jobs, every pending send has room |
| `BuildWatch.EverybodyCanFinish` | internal/controller/ami/packerbuilder_controller.go:352-373 | from there both producers can finish and all channels be closed |
| `BuildWatch.LeavingWithoutReceivingBlocks` | internal/controller/ami/packerbuilder_controller.go:528-550 | leaving by the ticker can block a producer |
| `BuildWatch.OtherObjectsBlock` | internal/controller/ami/packerbuilder_controller.go:655-659 | an object that is not a job can block the watcher even after a receive |
| `BuildWatch.BlockedForever` | internal/controller/ami/packerbuilder_controller.go:352-373 | a blocked producer stays blocked and the channels are never closed |
| `RunWithTimeout.OnlyRealResults` | pkg/manager_packer/manager.go:395-423 | a success is returned only if the operation succeeded; pending sends have room and open channels |
| `RunWithTimeout.NobodyStuck` | pkg/manager_packer/manager.go:395-423 | the goroutine and, after the deadline or the end, the caller always have a step |
| `RunWithTimeout.FastSuccessCanBeLost` | pkg/manager_packer/manager.go:402-413 | without any deadline a success can be reported as a failure |
| `RunWithTimeout.LostExactlyAfterClose` | pkg/manager_packer/manager.go:402-422 | after any schedule that leaves the caller waiting, it is sure to return the operation's own result next if and only if no deadline has passed and the error channel has not been closed |
| `Slices.MoveCommandToIndex` | pkg/manager_packer/command.go:108-112 | the in-place double append is removal and insertion on the same slice, and touches no spare capacity |
| `Slices.InsertAt` | pkg/manager_packer/command.go:93-94 | the nested append is insertion, in place or in a new array as capacity demands |
| `Slices.Append` | pkg/manager_packer/command.go:108-112 | append of elements of the same array concatenates, in place exactly while the capacity lasts |
| `Slices.MoveConserves` | pkg/manager_packer/command.go:108-112 | a move conserves the elements, places the moved one and keeps the others' order |
| `Commands.EnsureCommandAt` | pkg/manager_packer/command.go:65-97 | the first command of the kind, or a default one, stands at the index and the rest keep their order |
| `Commands.FindCommandIndex` | pkg/manager_packer/command.go:99-106 | the first index of the kind, or -1 |
| `Commands.EnsureDefaultCommands` | pkg/manager_packer/command.go:46-63 | the list becomes init, validate, the user's other commands in order and a build if none was there, filled in; the branch for a build before index 2 is never taken |
| `Commands.UpdateCommand` | pkg/manager_packer/command.go:114-128 | fills in one command and no other |
| `Commands.NormalStarts` | pkg/manager_packer/command.go:46-63 | the list starts with init and validate and holds a build after them |
| `Commands.ShapeConserves` | pkg/manager_packer/command.go:46-63 | the user's commands are conserved, only missing kinds are added, and all but the first init and validate keep their order |
| `Commands.AddedAreBare` | pkg/manager_packer/command.go:46-97 | a kind that was missing is added without arguments, flags or variables |
| `Commands.UpdatedFrame` | pkg/manager_packer/command.go:114-128 | filling in changes only an empty directory, to the configured one with a slash, and, with filters, the variables ami_id and region of builds, to the base image and the region |
| `Commands.Idempotent` | pkg/manager_packer/command.go:46-63 | normalising twice is normalising once, directories and variables included |
| `Commands.EmittedForJob` | pkg/manager_packer/command.go:26-44 | a job runs init, validate, the commands before the first build, then every build in order; only builds follow a build, and there is one |
| `Commands.EmittedMeaning` | pkg/manager_packer/command.go:30-40 | the emitted commands are those before the first build and then all builds |
| `Rendering.ConstructCommand` | pkg/manager_packer/command.go:26-44 | the shell line joins one rendering of each emitted command of the normalised list, in order; it begins with a packer init and a packer validate and ends with a packer build |
| `Rendering.CommandString` | api/ami/v1alpha1/packerbuilder_types.go:198-212 | a command's text for some walk of its variables; it begins with packer and the command's own kind, and ends with the directory if there is one |
| `Rendering.LinesBegin` | pkg/manager_packer/command.go:26-51 | whatever the user's commands, the lines of a job begin with a packer init, then a packer validate, and end with a packer build |
| `Rendering.BuildOtherFlags` | api/ami/v1alpha1/packerbuilder_types.go:221-237 | the fixed flags, each exactly when it is asked for, in order |
| `Rendering.BuildFlags` | api/ami/v1alpha1/packerbuilder_types.go:214-238 | one flag per variable in some order, then the fixed flags |
| `Rendering.BuildVariables` | pkg/manager_packer/command.go:121-127 | a filtered build carries one flag that sets ami_id to the base image, one that sets region, and every other variable once |
| `Settings.EveryBuildSetsOnce` | api/ami/v1alpha1/packerbuilder_types.go:198-238 | the line of every build of a filtered job, for every walk of its variables, contains the opening of an ami_id setting, and of a region setting, exactly once if and only if its texts leave the name alone |
| `Settings.OnceJoin` | api/ami/v1alpha1/packerbuilder_types.go:198-212 | texts joined by blanks contain it once if and only if one of them does, no other does, and no two neighbours do between them |
| `AsWritten.ScriptRunsAsMeant` | pkg/manager_packer/job.go:206-211 | the shell reads a job's script as two echoes and then exactly the commands, word for word, if and only if every text stands for itself and the copy in the echo gets back to its quotes |
| `AsWritten.EachPassesThrough` | pkg/manager_packer/job.go:206-211 | for the copy it is enough that every name and value could stand unquoted within one command |
| `AsWritten.OnlyQuotedKept` | pkg/manager_packer/job.go:206-211 | reading that loses no double quote keeps blanks and special characters inside single quotes only, and no single quote |
| `Shell.FlagReadAsWritten` | api/ami/v1alpha1/packerbuilder_types.go:214-219 | a variable flag is read as the two words meant, and passed over in the echo, if and only if name and value hold no single quote and could stand unquoted within one command |
| `Shell.TextReadAsWritten` | api/ami/v1alpha1/packerbuilder_types.go:198-212 | any other text is read as itself, and passed over in the echo, if and only if it is plain and not empty |
| `Shell.PassesMeaning` | pkg/manager_packer/job.go:206-211 | a text without quotes could stand unquoted within one command if and only if it holds no ampersand and no special character |
| `Shell.ScriptReads` | pkg/manager_packer/job.go:206-211 | of lines that are each the words of one command and together get through the echo's quotes the shell reads two echoes and then exactly those commands |
| `Shell.HalfOfValueIsCommand` | pkg/manager_packer/job.go:206-211 | a value with two ampersands between plain texts, wherever the first flag of the script stands, makes its second half the beginning of a command before all of the job's |
| `Shell.SpecialValueIsNotRead` | pkg/manager_packer/job.go:206-211 | with a special character in an otherwise unquoted value the script is no list of commands joined by `&&` |
| `Script.ScriptReadsTexts` | pkg/manager_packer/job.go:206-211 | commands whose texts all close their quotes are read text by text after the two echoes |
| `Script.MeantSetsOnce` | api/ami/v1alpha1/packerbuilder_types.go:198-238 | the words meant of a build set one of its variables exactly once if and only if no name begins with its name and an equals sign and the arguments do not set it |
| `Script.TextsSetOnce` | api/ami/v1alpha1/packerbuilder_types.go:198-238 | the words of a build whose texts close their quotes set one of its variables exactly once if and only if its own flag does so once, no other text does, and no two texts do between them |
| `StatusUpdate.ApiObject.Update` | pkg/status/status.go:57-81 | success leaves the caller's status and the last spec anybody wrote; at most five attempts; a conflict only if on each of the five others wrote between the read and the write, and then nothing of the caller's was written; any other failure is that of a call that failed |
| `Conditions.ConditionList.SetCondition` | pkg/cond/cond.go:44-77 | after any calls from empty the list has one entry per type, newest first, showing the map of all calls |
| `Conditions.FoldMeaning` | pkg/cond/cond.go:44-77 | that map holds, for exactly the types ever set, a condition of that type with the values and the time of the last call that changed anything |
| `Conditions.SortNewestFirst` | pkg/cond/cond.go:71-73 | a permutation with the newest first, ties in any order |
| `LogScan.LogReader.ProcessLogLine` | pkg/manager_packer/logstream.go:121-149 | keeps each field the capture of its pattern's first matching line, and tries the update, for the image of the second pattern, exactly when all four have been seen |
| `LogScan.LogReader.ProcessLogStream` | pkg/manager_packer/logstream.go:45-79 | over any prefix read, the update is tried on exactly the lines from the completing one through the first success, always for the same image; how the stream ended is told, and only a cancellation or a broken stream is an error |
| `LogScan.FirstMatchMeaning` | pkg/manager_packer/logstream.go:124-127 | the first matching line of a pattern |

## Left out

- AWS, Kubernetes, Slack and logging: each call is a choice of outcome over an abstract store or tag map.
- The AMIRefresher controller and the EKS manager: linear cloud calls.
- The ticker's refetch of the builder while the log reader writes to it: an unsynchronised overwrite. `logscan.dfy` gives the reader a status of its own; in the protocol its captures and image updates are steps of their own beside the watch and the update after it.
- Deletion of a builder during a run: the watch may end because of it (`Gone`), but the object does not disappear from the world.
- The failed-job count: a stored number read by `init`; nothing in the repository updates it.
- Job specifications, CRDs, charts, finalizers, events and configuration loading.
- Regular expressions and RFC 3339 text (section 5.6): abstract partial functions; stamps are whole seconds.
- EC2 filter wildcards: filter values are compared literally.
- Nil pointers in listed tags: EC2 returns none.
- Pointers in the condition list and Go maps inside commands: values, so aliasing between two entries is not captured.
- Conditions.SortNewestFirst: stands for the library's unstable sort by its contract; callers use only that contract.
- Rendering.ConstructCommand: does not write the command to the stored status; that write is part of `Create` in the protocol, which may fail there.
- Reconciler.PackerBuilderReconciler.FlightCheck: which base image the builder's own AMI filters select is left open; the builder's images and their ages are those of the world.
- Shell syntax beyond blanks, quotes and `&&`: a script that uses more of it does not count as read. A special character outside quotes counts as such wherever it stands, even where a shell would take it for itself.
- Flags of Packer: only `-var` and the word after it count as a setting; `-var=name=value` in one word does not.
- `DefaultState` of the runner, which nothing in the repository calls.
