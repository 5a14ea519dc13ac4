// What every step of one builder's reconcile keeps.
module ProtocolInv {
  import opened Options
  import opened Opsy
  import opened Protocol

  // The only ways the runner's state `m` and the stored state `s` may differ.
  predicate PairOK(m: State, s: State, restarted: bool) {
    if s == NoState then m == Initial
    else
      && s != JobFailed && m != JobFailed && m != NoState
      && (|| m == s
          || Edge(m, s)
          || (m == Initial && s == AMICreated && restarted)
          || (m == AMICreated && s == Error))
  }

  predicate CInv(c: Config, restarted: bool) {
    var b := c.b;
    var m := Current(c.states, b.stored.buildId);
    && "" !in c.states
    && (b.stored.buildId == "" ==> b.stored.state == NoState)
    && PairOK(m, b.stored.state, restarted)
    && PhaseInv(c, m)
    && (b.reading ==> Tail(b))
  }

  // The log reader outlives the watch only during the update that ends the reconcile.
  predicate Tail(b: Builder) {
    && (b.phase.Writing? || b.phase.Notifying? || b.phase.Setting? || b.phase.Patching?)
    && (b.pb.state == JobCompleted || b.pb.state == Error)
    && b.stored.state != JobCreation
  }

  // Where the local copy stands, phase by phase.
  predicate PhaseInv(c: Config, m: State) {
    var b := c.b;
    match b.phase
    case Idle => true
    case Booting =>
      && b.pb.state == NoState == b.stored.state && b.pb.buildId != ""
      && (b.stored.buildId == "" || b.stored.buildId == b.pb.buildId)
      && Current(c.states, b.pb.buildId) == Initial
    case Syncing => SameId(b) && b.pb == b.stored
    case Handling => SameId(b) && b.pb.state == b.stored.state == m
    case Checked => SameId(b) && b.pb.state == b.stored.state == m == FlightChecks
    case Cleared => SameId(b) && b.pb.state == b.stored.state == m == FlightChecks
    case Adopting => SameId(b) && b.pb.state == b.stored.state == FlightChecks
    case Writing(fallback) =>
      && SameId(b)
      && (if fallback then b.pb.state == Error
          else Edge(m, b.pb.state) && b.pb.state != JobFailed && m == b.stored.state)
    case Notifying(fallback) => SameId(b) && Written(b, m, fallback)
    case Setting(fallback) => SameId(b) && Written(b, m, fallback)
    case Patching(_) => SameId(b) && b.pb.state == b.stored.state == m
  }

  predicate SameId(b: Builder) {
    b.pb.buildId == b.stored.buildId != "" && b.stored.state != NoState
  }

  // The new state is stored but not yet in the runner.
  predicate Written(b: Builder, m: State, fallback: bool) {
    && b.pb.state == b.stored.state
    && (if fallback then b.pb.state == Error else Edge(m, b.pb.state))
  }

  // Steps outside the handlers: the start of a reconcile, the runner and the image update.
  predicate Outside(e: Event) { Boots(e) || ImageStep(e) || e.Sync? || e.SetRunner? }

  predicate Boots(e: Event) { e.Begin? || e.BootCondition? || e.BootState? || e.Adopt? }

  predicate ImageStep(e: Event) {
    e.Capture? || e.StartUpdate? || e.TagCall? || e.ListCall? || e.RetireCall? || e.UpdateDone?
  }

  // Steps inside reconcileUpdate, and the end of a reconcile.
  predicate Updating(e: Event) { e.WriteCall? || e.NotifyCall? || e.PatchCall? || e.Abandon? }

  // Handlers that may end the reconcile or go on without an update.
  predicate Deciding(e: Event) { e.InitWait? || e.NoAdoption? || e.Unknown? || e.Verdict? || e.ActiveCheck? || e.Create? }

  lemma StepKeepsPair(c: Config, e: Event, restarted: bool)
    requires CInv(c, restarted) && Enabled(c, e)
    ensures CInv(Step(c, e), restarted)
  {
    hide *;
    if e.Sync? {
      SyncKeepsPair(c, restarted);
    } else if e.SetRunner? {
      SetRunnerKeepsPair(c, restarted);
    } else if Boots(e) {
      BootKeepsPair(c, e, restarted);
    } else if ImageStep(e) {
      ImageStepKeepsPair(c, e, restarted);
    } else if Updating(e) {
      UpdateKeepsPair(c, e, restarted);
    } else if Deciding(e) {
      DecisionKeepsPair(c, e, restarted);
    } else if e.Cleanup? {
      CleanupKeepsPair(c, e.keyPairGone, e.groupGone, restarted);
    } else {
      HandlerKeepsPair(c, e, restarted);
    }
  }

  lemma SyncKeepsPair(c: Config, restarted: bool)
    requires CInv(c, restarted) && Enabled(c, Sync)
    ensures CInv(Step(c, Sync), restarted)
  {}

  lemma SetRunnerKeepsPair(c: Config, restarted: bool)
    requires CInv(c, restarted) && Enabled(c, SetRunner)
    ensures CInv(Step(c, SetRunner), restarted)
  {}

  lemma BootKeepsPair(c: Config, e: Event, restarted: bool)
    requires CInv(c, restarted) && Enabled(c, e) && Boots(e)
    ensures CInv(Step(c, e), restarted)
  {}

  lemma ImageStepKeepsPair(c: Config, e: Event, restarted: bool)
    requires CInv(c, restarted) && Enabled(c, e) && ImageStep(e)
    ensures CInv(Step(c, e), restarted)
  {
    hide Step, Enabled;
    ImageStepFrame(c, e);
  }

  lemma UpdateKeepsPair(c: Config, e: Event, restarted: bool)
    requires CInv(c, restarted) && Enabled(c, e) && Updating(e)
    ensures CInv(Step(c, e), restarted)
  {
    hide *;
    match e
    case WriteCall(call) => WriteKeepsPair(c, call, restarted);
    case NotifyCall(ok) => NotifyKeepsPair(c, ok, restarted);
    case PatchCall(ok) => PatchKeepsPair(c, ok, restarted);
    case Abandon => AbandonKeepsPair(c, restarted);
    case _ => NotUpdating(e);
  }

  lemma NotUpdating(e: Event)
    requires !e.WriteCall? && !e.NotifyCall? && !e.PatchCall? && !e.Abandon?
    ensures !Updating(e)
  {}

  lemma WriteKeepsPair(c: Config, call: Call, restarted: bool)
    requires CInv(c, restarted) && Enabled(c, WriteCall(call))
    ensures CInv(Step(c, WriteCall(call)), restarted)
  {}

  lemma NotifyKeepsPair(c: Config, ok: bool, restarted: bool)
    requires CInv(c, restarted) && Enabled(c, NotifyCall(ok))
    ensures CInv(Step(c, NotifyCall(ok)), restarted)
  {}

  lemma PatchKeepsPair(c: Config, ok: bool, restarted: bool)
    requires CInv(c, restarted) && Enabled(c, PatchCall(ok))
    ensures CInv(Step(c, PatchCall(ok)), restarted)
  {}

  lemma AbandonKeepsPair(c: Config, restarted: bool)
    requires CInv(c, restarted) && Enabled(c, Abandon)
    ensures CInv(Step(c, Abandon), restarted)
  {}

  lemma DecisionKeepsPair(c: Config, e: Event, restarted: bool)
    requires CInv(c, restarted) && Enabled(c, e) && Deciding(e)
    ensures CInv(Step(c, e), restarted)
  {
    hide CInv, Enabled, Step;
    match e
    case Verdict(pass, base) => VerdictKeepsPair(c, pass, base, restarted);
    case ActiveCheck(seen) => ActiveCheckKeepsPair(c, seen, restarted);
    case Create(id, outcome) => CreateKeepsPair(c, id, outcome, restarted);
    case _ => IdlingKeepsPair(c, e, restarted);
  }

  lemma VerdictKeepsPair(c: Config, pass: bool, base: Option<ImageId>, restarted: bool)
    requires CInv(c, restarted) && Enabled(c, Verdict(pass, base))
    ensures CInv(Step(c, Verdict(pass, base)), restarted)
  {}

  lemma ActiveCheckKeepsPair(c: Config, seen: bool, restarted: bool)
    requires CInv(c, restarted) && Enabled(c, ActiveCheck(seen))
    ensures CInv(Step(c, ActiveCheck(seen)), restarted)
  {}

  lemma CreateKeepsPair(c: Config, id: JobId, outcome: CreateOutcome, restarted: bool)
    requires CInv(c, restarted) && Enabled(c, Create(id, outcome))
    ensures CInv(Step(c, Create(id, outcome)), restarted)
  {}

  lemma IdlingKeepsPair(c: Config, e: Event, restarted: bool)
    requires CInv(c, restarted) && Enabled(c, e) && (e.InitWait? || e.NoAdoption? || e.Unknown?)
    ensures CInv(Step(c, e), restarted)
  {}

  lemma HandlerKeepsPair(c: Config, e: Event, restarted: bool)
    requires CInv(c, restarted) && Enabled(c, e)
    requires !Boots(e) && !ImageStep(e) && !Updating(e) && !Deciding(e) && !e.Sync? && !e.SetRunner? && !e.Cleanup?
    ensures CInv(Step(c, e), restarted)
  {}

  lemma CleanupKeepsPair(c: Config, keyPairGone: bool, groupGone: bool, restarted: bool)
    requires CInv(c, restarted) && Enabled(c, Cleanup(keyPairGone, groupGone))
    ensures CInv(Step(c, Cleanup(keyPairGone, groupGone)), restarted)
  {}

  // A step touches the runner only at the reconcile's own BuildID.
  lemma StepFrame(c: Config, e: Event, id: Id)
    requires Enabled(c, e) && id != c.b.pb.buildId
    ensures Current(Step(c, e).states, id) == Current(c.states, id)
    ensures id in Step(c, e).states ==> id in c.states
  {}

  // A step adds at most the reconcile's own BuildID to the runner, never with JobFailed.
  lemma RunnerEntries(c: Config, e: Event, restarted: bool)
    requires CInv(c, restarted) && Enabled(c, e)
    ensures var states := Step(c, e).states;
      forall id :: id in states ==>
        || (id in c.states && states[id] == c.states[id])
        || (id == c.b.pb.buildId != "" && states[id] != JobFailed)
  {}

  // The BuildIDs in play after a step were in play before, or drawn by it.
  lemma StepIds(c: Config, e: Event, restarted: bool)
    requires CInv(c, restarted) && Enabled(c, e)
    ensures InPlay(c, e, Step(c, e).b.stored.buildId) && InPlay(c, e, Step(c, e).b.pb.buildId)
  {
    if ImageStep(e) {
      ImageStepFrame(c, e);
    } else if e.PatchCall? {
      PatchIds(c, e.ok, restarted);
    } else if e.WriteCall? {
      WriteIds(c, e.call);
    } else if e.Create? {
      CreateIds(c, e.jobId, e.outcome);
    } else if e.Cleanup? {
      CleanupIds(c, e.keyPairGone, e.groupGone);
    } else if !Boots(e) {
      OtherIds(c, e);
    }
  }

  lemma PatchIds(c: Config, ok: bool, restarted: bool)
    requires CInv(c, restarted) && Enabled(c, PatchCall(ok))
    ensures Step(c, PatchCall(ok)).b.pb.buildId == Step(c, PatchCall(ok)).b.stored.buildId == c.b.stored.buildId
  {}

  lemma WriteIds(c: Config, call: Call)
    requires Enabled(c, WriteCall(call))
    ensures var b := Step(c, WriteCall(call)).b;
      b.pb.buildId == c.b.pb.buildId && (b.stored == c.b.stored || b.stored == c.b.pb)
  {}

  lemma CreateIds(c: Config, id: JobId, outcome: CreateOutcome)
    requires Enabled(c, Create(id, outcome))
    ensures var b := Step(c, Create(id, outcome)).b;
      b.pb.buildId == c.b.pb.buildId && (b.stored == c.b.stored || b.stored.buildId == c.b.pb.buildId)
  {}

  lemma CleanupIds(c: Config, keyPairGone: bool, groupGone: bool)
    requires Enabled(c, Cleanup(keyPairGone, groupGone))
    ensures var b := Step(c, Cleanup(keyPairGone, groupGone)).b; b.pb.buildId == c.b.pb.buildId && b.stored == c.b.stored
  {}

  lemma OtherIds(c: Config, e: Event)
    requires Enabled(c, e) && !Boots(e) && !ImageStep(e) && !e.Create? && !e.Cleanup? && !e.WriteCall? && !e.PatchCall?
    ensures Step(c, e).b.pb.buildId == c.b.pb.buildId && Step(c, e).b.stored == c.b.stored
  {}

  // An image step leaves everything else of the builder alone, except that the log reader
  // may capture what it reads, and that it ends the reconcile when an adoption is over.
  lemma ImageStepFrame(c: Config, e: Event)
    requires Enabled(c, e) && ImageStep(e)
    ensures var b := Step(c, e).b;
      && Step(c, e).states == c.states
      && b.stored == c.b.stored && b.jobs == c.b.jobs && b.found == c.b.found && b.owes == c.b.owes && b.spec == c.b.spec
      && b.pb == c.b.pb.Captured(b.pb) && b.succeeded == c.b.succeeded && b.failed == c.b.failed
      && (b.pb == c.b.pb || Reading(c.b))
      && ((b.phase == c.b.phase && b.reading == c.b.reading)
          || (c.b.phase.Adopting? && b.phase.Idle? && b.upd.NoUpd? && !b.reading))
  {}

  lemma StepKeepsSpec(c: Config, e: Event)
    requires Enabled(c, e)
    ensures Step(c, e).b.spec == c.b.spec
  {
    if ImageStep(e) {
      ImageStepFrame(c, e);
    } else if e.Create? {
      CreateKeepsSpec(c, e.jobId, e.outcome);
    } else if e.Cleanup? {
      CleanupKeepsSpec(c, e.keyPairGone, e.groupGone);
    }
  }

  lemma CreateKeepsSpec(c: Config, id: JobId, outcome: CreateOutcome)
    requires Enabled(c, Create(id, outcome))
    ensures Step(c, Create(id, outcome)).b.spec == c.b.spec
  {}

  lemma CleanupKeepsSpec(c: Config, keyPairGone: bool, groupGone: bool)
    requires Enabled(c, Cleanup(keyPairGone, groupGone))
    ensures Step(c, Cleanup(keyPairGone, groupGone)).b.spec == c.b.spec
  {}

  predicate InPlay(c: Config, e: Event, id: Id) {
    || id == c.b.stored.buildId || id == c.b.pb.buildId
    || (e.Begin? && id == e.newId) || (e.Adopt? && id == e.newId)
  }

  // The invariant reads the runner only at the builder's own BuildIDs.
  lemma CInvFrame(c: Config, states: map<Id, State>, restarted: bool)
    requires CInv(c, restarted) && "" !in states
    requires Current(states, c.b.stored.buildId) == Current(c.states, c.b.stored.buildId)
    requires Current(states, c.b.pb.buildId) == Current(c.states, c.b.pb.buildId)
    ensures CInv(Config(states, c.b), restarted)
  {}
}
