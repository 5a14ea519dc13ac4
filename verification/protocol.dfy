// One builder's reconcile as small steps (internal/controller/ami/packerbuilder_controller.go).
//
// `Step` is deterministic: everything the outside world decides (did a call land, did the
// job succeed, which uuid was drawn) is a parameter of the event. A reconcile may be cut
// off after any step (`Abandon`); the whole process may restart (see World).
module Protocol {
  import opened Options
  import opened Opsy

  type ImageId = string // "" is a status field that was never set
  type JobId = string

  // The fields of PackerBuilder.Status that the protocol reads.
  // `keyPair` and `group` name the temporary AWS resources of the last build.
  datatype Status = Status(buildId: Id, state: State, jobId: JobId, built: ImageId, base: ImageId,
                           keyPair: string, group: string)
  {
    // The status with what a build log may set taken from `log`.
    function Captured(log: Status): Status {
      this.(built := log.built, base := log.base, keyPair := log.keyPair, group := log.group)
    }
  }

  const NoStatus := Status("", NoState, "", "", "", "", "")

  // The fields of PackerBuilder.Spec and the stored job counters that the protocol reads.
  datatype Spec = Spec(cluster: string, name: string, repo: string, branch: string,
                       filtered: bool, validFor: int,
                       failedJobs: Option<int>, maxFailedJobs: Option<int>)
  {
    predicate Capped() { failedJobs.GetOr(0) >= maxFailedJobs.GetOr(3) }
  }

  // A Kubernetes job: has isBuildFinished become true, and which base image its command names.
  datatype Job = Job(finished: bool, base: ImageId)

  // The fate of a call that changes something outside: it took effect and said so, it took
  // effect but was reported as failed, or it had no effect and was reported as failed.
  datatype Call = Landed | LandedUnseen | Lost

  // Where a reconcile stands. `fallback` marks the update made by transitionToErrorState.
  datatype Phase =
    | Idle
    | Booting
    | Syncing
    | Handling
    | Checked // flightCheck: no active build was found
    | Cleared // flightCheck: there is no image to adopt
    | Adopting // flightCheck: an image is being adopted
    | Writing(fallback: bool)
    | Notifying(fallback: bool)
    | Setting(fallback: bool)
    | Patching(fallback: bool)

  // The image update (tagAMI, then deprecateOldAMIs) in flight, if any.
  datatype Upd =
    | NoUpd
    | Tagging(img: ImageId)
    | Listing(keep: ImageId)
    | Retiring(keep: ImageId, rest: seq<ImageId>)

  datatype Builder = Builder(
    spec: Spec,
    stored: Status, // the API server's copy
    pb: Status, // the running reconcile's copy
    phase: Phase,
    upd: Upd,
    reading: bool, // does the log reader still run after the watch has ended?
    jobs: map<JobId, Job>,
    // History: the jobs ever reported as succeeded, and as failed; the base image of the
    // last flight check; and whether the running reconcile created a job but has not landed
    // a status write since.
    succeeded: set<JobId>,
    failed: set<JobId>,
    found: Option<ImageId>,
    owes: bool)

  datatype CreateOutcome =
    | SetupFailed(landed: bool) // building the command or job failed; was the job id stored before that?
    | Skipped // the existing-job lookup answered anything but NotFound
    | NotMade
    | Made
    | MadeUnseen

  datatype WatchOutcome =
    | Succeeded
    | Unsuccessful // the job failed or no longer exists
    | Trouble // a failed call or a broken watch
    | Gone // builder deleted or context cancelled

  datatype Event =
    | Begin(newId: Id)
    | BootCondition(landed: bool)
    | BootState(call: Call)
    | Sync
    | InitWait
    | InitGo
    | ActiveCheck(seen: bool)
    | NoAdoption
    | Adopt(img: ImageId, imgBase: ImageId, newId: Id, call: Call)
    | Verdict(pass: bool, baseFound: Option<ImageId>)
    | Create(jobId: JobId, outcome: CreateOutcome)
    | Capture(log: Status)
    | StartUpdate
    | TagCall(call: Call)
    | ListCall(listed: Option<seq<ImageId>>)
    | RetireCall(call: Call)
    | UpdateDone
    | Watch(watched: WatchOutcome)
    | Complete
    | Cleanup(keyPairGone: bool, groupGone: bool)
    | Recover
    | Unknown
    | WriteCall(call: Call)
    | NotifyCall(ok: bool)
    | SetRunner
    | PatchCall(ok: bool)
    | Abandon

  datatype Config = Config(states: map<Id, State>, b: Builder)

  function Unfinished(jobs: map<JobId, Job>): set<JobId> {
    set j | j in jobs && !jobs[j].finished
  }

  // reconcileUpdate's notification switch sends nothing for these two states.
  predicate Notifies(s: State) { s != Initial && s != FlightChecks }

  // A reconcile that returns also stops its log reader and image update: the watch is
  // cancelled.
  function End(b: Builder): Builder { b.(phase := Idle, upd := NoUpd, reading := false) }

  // Enter reconcileUpdate.
  function Update(b: Builder, target: State, fallback: bool): Builder {
    b.(pb := b.pb.(state := target), phase := Writing(fallback))
  }

  // A handler's error path: transitionToErrorState, whose own failure ends the reconcile.
  function Fail(b: Builder, fallback: bool): Builder {
    if fallback then End(b) else Update(b, Error, true)
  }

  function Handler(b: Builder): Option<State> {
    if b.phase.Handling? then Some(b.pb.state) else None
  }

  // The log reader is at work: during the watch, and during the update that follows it.
  predicate Reading(b: Builder) { b.reading || Handler(b) == Some(JobRunning) }

  // cleanupBuild's deletions: of the key pair, then of the security group.
  function CleanedUp(b: Builder, keyPairGone: bool, groupGone: bool): Builder {
    if b.pb.keyPair != "" && !keyPairGone then Update(b, Error, true)
    else
      var b' := b.(pb := b.pb.(keyPair := ""));
      if b.pb.group != "" && !groupGone then Update(b', Error, true)
      else Update(b'.(pb := b'.pb.(group := "")), Initial, false)
  }

  // A verdict on the job that the status names needs its ground in that job.
  predicate WatchSees(b: Builder, watched: WatchOutcome) {
    && (watched.Succeeded? ==> b.pb.jobId in b.succeeded)
    && (watched.Unsuccessful? ==> b.pb.jobId in b.failed || b.pb.jobId !in b.jobs)
  }

  predicate Enabled(c: Config, e: Event) {
    var b := c.b;
    match e
    case Begin(newId) => b.phase.Idle? && newId != "" && newId !in c.states
    case BootCondition(_) => b.phase.Booting?
    case BootState(_) => b.phase.Booting?
    case Sync => b.phase.Syncing?
    case InitWait => Handler(b) == Some(Initial) && b.spec.Capped()
    case InitGo => Handler(b) == Some(Initial) && !b.spec.Capped()
    case ActiveCheck(_) => Handler(b) == Some(FlightChecks)
    case NoAdoption => b.phase.Checked?
    case Adopt(img, _, newId, _) => b.phase.Checked? && b.pb.built == "" && newId != "" && newId !in c.states
    case Verdict(pass, base) =>
      (b.phase.Cleared? || (b.phase.Checked? && !pass)) && (pass && b.spec.filtered ==> base.Some?)
    case Create(id, o) => Handler(b) == Some(JobCreation) && (o.Made? || o.MadeUnseen? ==> id !in b.jobs)
    case Capture(_) => Reading(b) && b.upd.NoUpd?
    case StartUpdate => Reading(b) && b.upd.NoUpd?
    case TagCall(_) => b.upd.Tagging?
    case ListCall(_) => b.upd.Listing?
    case RetireCall(_) => b.upd.Retiring? && b.upd.rest != []
    case UpdateDone => b.upd.Retiring? && b.upd.rest == []
    case Watch(w) => Handler(b) == Some(JobRunning) && WatchSees(b, w)
    case Complete => Handler(b) == Some(JobCompleted)
    case Cleanup(_, _) => Handler(b) == Some(AMICreated)
    case Recover => Handler(b) == Some(Error)
    case Unknown => Handler(b) == Some(JobFailed) || Handler(b) == Some(NoState)
    case WriteCall(_) => b.phase.Writing?
    case NotifyCall(ok) => b.phase.Notifying? && (Notifies(b.pb.state) || ok)
    case SetRunner => b.phase.Setting?
    case PatchCall(_) => b.phase.Patching?
    case Abandon => !b.phase.Idle?
  }

  function Step(c: Config, e: Event): Config
    requires Enabled(c, e)
  {
    if e.Sync? then SyncStep(c)
    else if e.SetRunner? then SetRunnerStep(c)
    else c.(b := Local(c, e))
  }

  // catchRek: bring the runner to the stored state, or fall back to Error.
  function SyncStep(c: Config): Config {
    var b := c.b;
    var m := Current(c.states, b.pb.buildId);
    if m == b.pb.state then c.(b := b.(phase := Handling))
    else if Edge(m, b.pb.state) then Config(c.states[b.pb.buildId := b.pb.state], b.(phase := Handling))
    else c.(b := Update(b, Error, true))
  }

  function SetRunnerStep(c: Config): Config
    requires c.b.phase.Setting?
  {
    var b := c.b;
    if Edge(Current(c.states, b.pb.buildId), b.pb.state)
    then Config(c.states[b.pb.buildId := b.pb.state], b.(phase := Patching(b.phase.fallback)))
    else c.(b := Fail(b, b.phase.fallback))
  }

  // Steps that leave the runner alone.
  function Local(c: Config, e: Event): Builder
    requires Enabled(c, e) && !e.Sync? && !e.SetRunner?
  {
    var b := c.b;
    match e
    case Begin(newId) =>
      var pb := if b.stored.buildId == "" then b.stored.(buildId := newId) else b.stored;
      b.(pb := pb, phase := if pb.state == NoState then Booting else Syncing)
    case BootCondition(landed) => if landed then b.(stored := b.pb) else b
    case BootState(call) =>
      var pb := b.pb.(state := Initial);
      b.(pb := pb, stored := if call.Lost? then b.stored else pb, phase := if call.Landed? then Syncing else Idle)
    case InitWait => End(b)
    case InitGo => Update(b, FlightChecks, false)
    case ActiveCheck(seen) =>
      if seen && Unfinished(b.jobs) == {} then b.(phase := Checked) else Update(b, JobRunning, false)
    case NoAdoption => b.(phase := Cleared)
    case Adopt(img, imgBase, newId, call) =>
      var pb := b.pb.(built := img, base := imgBase, buildId := newId);
      var b' := b.(pb := pb, stored := if call.Lost? then b.stored else pb);
      if call.Landed? then b'.(phase := Adopting, upd := Tagging(img)) else End(b')
    case Verdict(pass, base) =>
      var pb := if base.Some? then b.pb.(base := base.value) else b.pb;
      var b' := b.(pb := pb, found := base);
      if pass then Update(b', JobCreation, false) else End(b')
    case Create(id, outcome) =>
      var pb := b.pb.(jobId := id);
      var b' := b.(pb := pb, stored := if outcome == SetupFailed(false) then b.stored else pb);
      (match outcome
       case SetupFailed(_) => Update(b', Error, true)
       case Skipped => Update(b', JobRunning, false)
       case NotMade => Update(b', Error, true)
       case Made => Update(b'.(jobs := b.jobs[id := Job(false, b.pb.base)], owes := true), JobRunning, false)
       case MadeUnseen => Update(b'.(jobs := b.jobs[id := Job(false, b.pb.base)], owes := true), Error, true))
    case Capture(log) => b.(pb := b.pb.Captured(log))
    case StartUpdate => b.(upd := Tagging(b.pb.built))
    case TagCall(call) => if call.Landed? then b.(upd := Listing(b.upd.img)) else UpdateOver(b)
    case ListCall(listed) =>
      if listed.Some? then b.(upd := Retiring(b.upd.keep, listed.value)) else UpdateOver(b)
    case RetireCall(call) =>
      if b.upd.rest[0] == b.upd.keep || call.Landed?
      then b.(upd := Retiring(b.upd.keep, b.upd.rest[1..]))
      else UpdateOver(b)
    case UpdateDone => UpdateOver(b)
    case Watch(w) =>
      (match w
       case Succeeded => Update(b.(reading := true), JobCompleted, false)
       case Unsuccessful => Update(b.(reading := true), Error, true)
       case Trouble => Update(b.(reading := true), Error, true)
       case Gone => End(b))
    case Complete => Update(b, AMICreated, false)
    case Cleanup(keyPairGone, groupGone) => CleanedUp(b, keyPairGone, groupGone)
    case Recover => Update(b, Initial, false)
    case Unknown => End(b)
    case WriteCall(call) =>
      var b' := if call.Lost? then b else b.(stored := b.pb, owes := false);
      if call.Landed? then b'.(phase := Notifying(b.phase.fallback)) else Fail(b', b.phase.fallback)
    case NotifyCall(ok) => if ok then b.(phase := Setting(b.phase.fallback)) else Fail(b, b.phase.fallback)
    case PatchCall(ok) => if ok then End(b.(pb := b.stored)) else Fail(b, b.phase.fallback)
    case Abandon => End(b)
  }

  // The update's goroutine is over; an adoption then ends the reconcile (its result is
  // `Success: false`, so flightCheck requeues).
  function UpdateOver(b: Builder): Builder {
    if b.phase.Adopting? then End(b) else b.(upd := NoUpd)
  }
}
