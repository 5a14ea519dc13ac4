// Jobs, rounds and progress of one builder: properties of single steps that World turns
// into properties of whole runs.
module ProtocolJobs {
  import opened Options
  import opened Opsy
  import opened Protocol
  import opened ProtocolInv

  // ---------------------------------------------------------------- unfinished jobs

  predicate AtMostOne<T(==)>(s: set<T>) { forall x, y :: x in s && y in s ==> x == y }

  // A reconcile that created a job must land a status write before it stops.
  predicate NoDebt(b: Builder) { b.phase.Idle? ==> !b.owes }

  // Stored JobCreation means that no job is unfinished, except between creating the job
  // and landing the write that follows.
  predicate JobsInv(b: Builder) {
    var unfinished := Unfinished(b.jobs);
    && AtMostOne(unfinished)
    && (b.stored.state == JobCreation && !b.owes ==> unfinished == {})
    && (b.phase.Checked? || b.phase.Cleared? ==> unfinished == {})
    && (b.phase.Writing? && b.pb.state == JobCreation ==> unfinished == {})
    && (b.owes ==> b.phase.Writing? && (b.pb.state == JobRunning || b.pb.state == Error))
  }

  lemma StepKeepsJobs(c: Config, e: Event, restarted: bool)
    requires CInv(c, restarted) && Enabled(c, e)
    requires JobsInv(c.b) && NoDebt(Step(c, e).b)
    ensures JobsInv(Step(c, e).b)
  {
    hide *;
    if e.Create? {
      CreateKeepsJobs(c, e, restarted);
    } else if ImageStep(e) {
      ImageKeepsJobs(c, e, restarted);
    } else if e.Sync? || e.SetRunner? {
      RunnerKeepsJobs(c, e, restarted);
    } else if Boots(e) {
      BootKeepsJobs(c, e, restarted);
    } else if e.WriteCall? {
      WriteKeepsJobs(c, e, restarted);
    } else if Updating(e) {
      UpdateKeepsJobs(c, e, restarted);
    } else {
      HandlerKeepsJobs(c, e, restarted);
    }
  }

  lemma CreateKeepsJobs(c: Config, e: Event, restarted: bool)
    requires CInv(c, restarted) && Enabled(c, e) && JobsInv(c.b) && e.Create?
    ensures JobsInv(Step(c, e).b)
  {
    if e.outcome.Made? || e.outcome.MadeUnseen? {
      assert Unfinished(Step(c, e).b.jobs) == {e.jobId};
    }
  }

  lemma BootKeepsJobs(c: Config, e: Event, restarted: bool)
    requires CInv(c, restarted) && Enabled(c, e) && JobsInv(c.b) && Boots(e)
    ensures JobsInv(Step(c, e).b)
  {}

  lemma RunnerKeepsJobs(c: Config, e: Event, restarted: bool)
    requires CInv(c, restarted) && Enabled(c, e) && JobsInv(c.b) && (e.Sync? || e.SetRunner?)
    ensures JobsInv(Step(c, e).b)
  {}

  lemma ImageKeepsJobs(c: Config, e: Event, restarted: bool)
    requires CInv(c, restarted) && Enabled(c, e) && JobsInv(c.b) && ImageStep(e)
    ensures JobsInv(Step(c, e).b)
  {
    hide Step, Enabled;
    ImageStepFrame(c, e);
  }

  lemma WriteKeepsJobs(c: Config, e: Event, restarted: bool)
    requires CInv(c, restarted) && Enabled(c, e) && JobsInv(c.b) && e.WriteCall? && NoDebt(Step(c, e).b)
    ensures JobsInv(Step(c, e).b)
  {}

  lemma UpdateKeepsJobs(c: Config, e: Event, restarted: bool)
    requires CInv(c, restarted) && Enabled(c, e) && JobsInv(c.b) && Updating(e) && !e.WriteCall? && NoDebt(Step(c, e).b)
    ensures JobsInv(Step(c, e).b)
  {}

  lemma HandlerKeepsJobs(c: Config, e: Event, restarted: bool)
    requires CInv(c, restarted) && Enabled(c, e) && JobsInv(c.b)
    requires !e.Create? && !Boots(e) && !ImageStep(e) && !Updating(e) && !e.Sync? && !e.SetRunner?
    ensures JobsInv(Step(c, e).b)
  {}

  // A build counts as completed only if the job that the status names has succeeded.
  predicate Earned(s: Status, succeeded: set<JobId>) {
    s.state == JobCompleted || s.state == AMICreated ==> s.jobId in succeeded
  }

  predicate EarnedInv(b: Builder) { Earned(b.stored, b.succeeded) && Earned(b.pb, b.succeeded) }

  lemma StepKeepsEarned(c: Config, e: Event)
    requires Enabled(c, e) && EarnedInv(c.b)
    ensures EarnedInv(Step(c, e).b)
  {
    hide *;
    if ImageStep(e) {
      ImageKeepsEarned(c, e);
    } else if Boots(e) {
      BootKeepsEarned(c, e);
    } else if e.Create? {
      CreateKeepsEarned(c, e.jobId, e.outcome);
    } else if Updating(e) {
      UpdateKeepsEarned(c, e);
    } else if e.Cleanup? {
      CleanupKeepsEarned(c, e.keyPairGone, e.groupGone);
    } else {
      HandlerKeepsEarned(c, e);
    }
  }

  lemma CleanupKeepsEarned(c: Config, keyPairGone: bool, groupGone: bool)
    requires Enabled(c, Cleanup(keyPairGone, groupGone)) && EarnedInv(c.b)
    ensures EarnedInv(Step(c, Cleanup(keyPairGone, groupGone)).b)
  {}

  lemma CreateKeepsEarned(c: Config, id: JobId, outcome: CreateOutcome)
    requires Enabled(c, Create(id, outcome)) && EarnedInv(c.b)
    ensures EarnedInv(Step(c, Create(id, outcome)).b)
  {}

  lemma ImageKeepsEarned(c: Config, e: Event)
    requires Enabled(c, e) && EarnedInv(c.b) && ImageStep(e)
    ensures EarnedInv(Step(c, e).b)
  {
    hide Step, Enabled;
    ImageStepFrame(c, e);
  }

  lemma BootKeepsEarned(c: Config, e: Event)
    requires Enabled(c, e) && EarnedInv(c.b) && Boots(e)
    ensures EarnedInv(Step(c, e).b)
  {}

  lemma UpdateKeepsEarned(c: Config, e: Event)
    requires Enabled(c, e) && EarnedInv(c.b) && Updating(e)
    ensures EarnedInv(Step(c, e).b)
  {}

  lemma HandlerKeepsEarned(c: Config, e: Event)
    requires Enabled(c, e) && EarnedInv(c.b) && !ImageStep(e) && !Boots(e) && !e.Create? && !Updating(e) && !e.Cleanup?
    ensures EarnedInv(Step(c, e).b)
  {}

  // ---------------------------------------------------------------- the base image of a job

  // With AMI filters set, the base image on its way to a job is the one found by the
  // flight check that let the job through.
  predicate BaseInv(b: Builder) {
    b.spec.filtered ==>
      && (b.stored.state == JobCreation ==> b.found == Some(b.stored.base))
      && (b.phase.Writing? && b.pb.state == JobCreation ==> b.found == Some(b.pb.base))
      && (b.phase.Handling? && b.pb.state == JobCreation ==> b.pb.base == b.stored.base)
  }

  lemma StepKeepsBase(c: Config, e: Event, restarted: bool)
    requires CInv(c, restarted) && Enabled(c, e) && BaseInv(c.b)
    ensures BaseInv(Step(c, e).b)
  {
    hide *;
    if ImageStep(e) {
      ImageKeepsBase(c, e, restarted);
    } else if e.Sync? || e.SetRunner? {
      RunnerKeepsBase(c, e, restarted);
    } else if Boots(e) {
      BootKeepsBase(c, e, restarted);
    } else if e.WriteCall? {
      WriteKeepsBase(c, e, restarted);
    } else if e.Create? {
      CreateKeepsBase(c, e.jobId, e.outcome, restarted);
    } else if Updating(e) {
      UpdateKeepsBase(c, e, restarted);
    } else {
      HandlerKeepsBase(c, e, restarted);
    }
  }

  lemma BootKeepsBase(c: Config, e: Event, restarted: bool)
    requires CInv(c, restarted) && Enabled(c, e) && BaseInv(c.b) && Boots(e)
    ensures BaseInv(Step(c, e).b)
  {}

  lemma RunnerKeepsBase(c: Config, e: Event, restarted: bool)
    requires CInv(c, restarted) && Enabled(c, e) && BaseInv(c.b) && (e.Sync? || e.SetRunner?)
    ensures BaseInv(Step(c, e).b)
  {}

  lemma ImageKeepsBase(c: Config, e: Event, restarted: bool)
    requires CInv(c, restarted) && Enabled(c, e) && BaseInv(c.b) && ImageStep(e)
    ensures BaseInv(Step(c, e).b)
  {
    hide Step, Enabled;
    ImageStepFrame(c, e);
  }

  lemma WriteKeepsBase(c: Config, e: Event, restarted: bool)
    requires CInv(c, restarted) && Enabled(c, e) && BaseInv(c.b) && e.WriteCall?
    ensures BaseInv(Step(c, e).b)
  {}

  lemma CreateKeepsBase(c: Config, id: JobId, outcome: CreateOutcome, restarted: bool)
    requires CInv(c, restarted) && Enabled(c, Create(id, outcome)) && BaseInv(c.b)
    ensures BaseInv(Step(c, Create(id, outcome)).b)
  {}

  lemma UpdateKeepsBase(c: Config, e: Event, restarted: bool)
    requires CInv(c, restarted) && Enabled(c, e) && BaseInv(c.b) && Updating(e) && !e.WriteCall?
    ensures BaseInv(Step(c, e).b)
  {}

  lemma HandlerKeepsBase(c: Config, e: Event, restarted: bool)
    requires CInv(c, restarted) && Enabled(c, e) && BaseInv(c.b)
    requires !Boots(e) && !ImageStep(e) && !e.Sync? && !e.SetRunner? && !Updating(e) && !e.Create?
    ensures BaseInv(Step(c, e).b)
  {}

  lemma CreatedJobNamesFoundBase(c: Config, e: Event, restarted: bool)
    requires CInv(c, restarted) && Enabled(c, e) && BaseInv(c.b) && c.b.spec.filtered
    requires e.Create? && (e.outcome.Made? || e.outcome.MadeUnseen?)
    ensures e.jobId in Step(c, e).b.jobs && c.b.found == Some(Step(c, e).b.jobs[e.jobId].base)
  {}

  // ---------------------------------------------------------------- image updates

  // An image update runs only inside an adoption or in a log reader.
  predicate UpdInv(b: Builder) { !b.upd.NoUpd? ==> b.phase.Adopting? || Reading(b) }

  lemma StepKeepsUpd(c: Config, e: Event, restarted: bool)
    requires CInv(c, restarted) && Enabled(c, e) && UpdInv(c.b)
    ensures UpdInv(Step(c, e).b)
  {
    hide *;
    if ImageStep(e) {
      ImageKeepsUpd(c, e, restarted);
    } else if Outside(e) {
      BootKeepsUpd(c, e, restarted);
    } else if Updating(e) {
      UpdateKeepsUpd(c, e, restarted);
    } else {
      HandlerKeepsUpd(c, e, restarted);
    }
  }

  lemma ImageKeepsUpd(c: Config, e: Event, restarted: bool)
    requires CInv(c, restarted) && Enabled(c, e) && UpdInv(c.b) && ImageStep(e)
    ensures UpdInv(Step(c, e).b)
  {}

  lemma BootKeepsUpd(c: Config, e: Event, restarted: bool)
    requires CInv(c, restarted) && Enabled(c, e) && UpdInv(c.b) && Outside(e) && !ImageStep(e)
    ensures UpdInv(Step(c, e).b)
  {}

  lemma UpdateKeepsUpd(c: Config, e: Event, restarted: bool)
    requires CInv(c, restarted) && Enabled(c, e) && UpdInv(c.b) && Updating(e)
    ensures UpdInv(Step(c, e).b)
  {}

  lemma HandlerKeepsUpd(c: Config, e: Event, restarted: bool)
    requires CInv(c, restarted) && Enabled(c, e) && UpdInv(c.b) && !Outside(e) && !Updating(e)
    ensures UpdInv(Step(c, e).b)
  {}

  // ---------------------------------------------------------------- rounds

  // How one step may change the stored state: from the unset state to Initial, from
  // Initial to anything, otherwise strictly down.
  predicate Moves(s: State, s': State) {
    || s == s'
    || (s == NoState && s' == Initial)
    || (s == Initial && s' != NoState)
    || (s != NoState && Rank(s') < Rank(s))
  }

  lemma StepDescends(c: Config, e: Event, restarted: bool)
    requires CInv(c, restarted) && Enabled(c, e)
    ensures Moves(c.b.stored.state, Step(c, e).b.stored.state)
  {
    if e.Create? {
      CreateStoresState(c, e.jobId, e.outcome);
    } else if e.Cleanup? {
      CleanupStoresState(c, e.keyPairGone, e.groupGone);
    } else if !e.WriteCall? && !Boots(e) {
      StoredStateFrame(c, e);
    }
  }

  lemma CleanupStoresState(c: Config, keyPairGone: bool, groupGone: bool)
    requires Enabled(c, Cleanup(keyPairGone, groupGone))
    ensures Step(c, Cleanup(keyPairGone, groupGone)).b.stored == c.b.stored
  {}

  lemma CreateStoresState(c: Config, id: JobId, outcome: CreateOutcome)
    requires Enabled(c, Create(id, outcome)) && c.b.pb.state == c.b.stored.state
    ensures Step(c, Create(id, outcome)).b.stored.state == c.b.stored.state
  {}

  // Only a status write, the first writes of a new builder and an adoption touch it.
  lemma StoredStateFrame(c: Config, e: Event)
    requires Enabled(c, e) && !e.WriteCall? && !Boots(e) && !e.Create? && !e.Cleanup?
    ensures Step(c, e).b.stored.state == c.b.stored.state
  {}

  function Changes(trace: seq<State>): nat {
    if |trace| < 2 then 0
    else Changes(trace[..|trace| - 1]) + (if trace[|trace| - 1] != trace[|trace| - 2] then 1 else 0)
  }

  // A trace that stays away from Initial until (at most) its end changes no more often
  // than its rank drops.
  lemma {:induction false} Descent(trace: seq<State>)
    requires |trace| > 0 && trace[0] != NoState
    requires forall i :: 0 <= i < |trace| - 1 ==> trace[i] != Initial && Moves(trace[i], trace[i + 1])
    ensures Changes(trace) + Rank(trace[|trace| - 1]) <= Rank(trace[0])
    ensures trace[|trace| - 1] != NoState
  {
    if |trace| > 1 {
      var before := trace[..|trace| - 1];
      Descent(before);
      assert before[|before| - 1] == trace[|trace| - 2];
    }
  }

  // One round: it starts by leaving Initial and is over when the state is Initial again.
  lemma RoundIsShort(trace: seq<State>)
    requires |trace| > 1 && trace[0] == Initial
    requires forall i :: 1 <= i < |trace| - 1 ==> trace[i] != Initial
    requires forall i :: 0 <= i < |trace| - 1 ==> Moves(trace[i], trace[i + 1])
    ensures Changes(trace) <= 7
  {
    Descent(trace[1..]);
    ChangesTail(trace);
  }

  lemma {:induction false} ChangesTail(trace: seq<State>)
    requires |trace| > 1
    ensures Changes(trace) == Changes(trace[1..]) + (if trace[0] != trace[1] then 1 else 0)
  {
    if |trace| > 2 {
      var n := |trace| - 1;
      ChangesTail(trace[..n]);
      assert trace[..n][1..] == trace[1..][..n - 1];
      assert trace[1..][n - 1] == trace[n] && trace[1..][n - 2] == trace[n - 1];
    } else {
      assert trace[..1] == [trace[0]] && trace[1..] == [trace[1]];
    }
  }

  // ---------------------------------------------------------------- being stuck

  // The runner says AMICreated, the store says Error: the table has no edge between them.
  predicate StuckPair(c: Config) {
    Current(c.states, c.b.stored.buildId) == AMICreated && c.b.stored.state == Error
  }

  predicate Stuck(c: Config) {
    && StuckPair(c)
    && (match c.b.phase
        case Idle => true
        case Syncing => true
        case Writing(fallback) => fallback
        case Notifying(fallback) => fallback
        case Setting(fallback) => fallback
        case _ => false)
  }

  // No handler ever runs again, and both copies stay as they are.
  lemma StuckStays(c: Config, e: Event, restarted: bool)
    requires CInv(c, restarted) && Stuck(c) && Enabled(c, e)
    ensures Stuck(Step(c, e))
  {
    assert e.Begin? || e.Sync? || e.SetRunner? || Updating(e) || ImageStep(e) by {
      OnlyTheseWhenStuck(c, e);
    }
    if Updating(e) {
      UpdateStaysStuck(c, e, restarted);
    }
  }

  lemma OnlyTheseWhenStuck(c: Config, e: Event)
    requires Stuck(c) && Enabled(c, e)
    ensures e.Begin? || e.Sync? || e.SetRunner? || Updating(e) || ImageStep(e)
  {}

  lemma UpdateStaysStuck(c: Config, e: Event, restarted: bool)
    requires CInv(c, restarted) && Stuck(c) && Enabled(c, e) && Updating(e)
    ensures Stuck(Step(c, e))
  {
    hide CInv, Stuck, Enabled, Step;
    match e
    case WriteCall(call) => WriteStaysStuck(c, call, restarted);
    case PatchCall(ok) => PatchesNotStuck(c, ok);
    case _ => OtherUpdateStaysStuck(c, e);
  }

  lemma WriteStaysStuck(c: Config, call: Call, restarted: bool)
    requires CInv(c, restarted) && Stuck(c) && Enabled(c, WriteCall(call))
    ensures Stuck(Step(c, WriteCall(call)))
  {}

  lemma PatchesNotStuck(c: Config, ok: bool)
    requires Enabled(c, PatchCall(ok))
    ensures !Stuck(c)
  {}

  lemma OtherUpdateStaysStuck(c: Config, e: Event)
    requires Stuck(c) && Enabled(c, e) && (e.NotifyCall? || e.Abandon?)
    ensures Stuck(Step(c, e))
  {}

  // ---------------------------------------------------------------- progress without faults

  // The event is no fault, and no decision to wait for the world (a capped failure count,
  // a flight check that says no, an adoption, a cancelled watch).
  predicate Calm(e: Event) {
    match e
    case BootCondition(landed) => landed
    case BootState(call) => call.Landed?
    case InitWait => false
    case ActiveCheck(seen) => seen
    case Adopt(_, _, _, _) => false
    case Verdict(pass, _) => pass
    case Create(_, outcome) => outcome.Made? || outcome.Skipped?
    case Watch(watched) => watched.Succeeded? || watched.Unsuccessful?
    case Cleanup(keyPairGone, groupGone) => keyPairGone && groupGone
    case WriteCall(call) => call.Landed?
    case NotifyCall(ok) => ok
    case PatchCall(ok) => ok
    case Abandon => false
    case _ => true
  }

  // A reconcile that began with stored state `s0` is on its way to a later one.
  predicate OnItsWay(c: Config, s0: State) {
    var b := c.b;
    var s := b.stored.state;
    var m := Current(c.states, b.stored.buildId);
    var now := if s0 == NoState then Initial else s0;
    match b.phase
    case Idle => s != s0 && s == m
    case Booting => s == s0 == NoState
    case Syncing => s == now && !StuckPair(c)
    case Handling => s == now
    case Checked => s == now
    case Cleared => s == now
    case Adopting => false
    case Writing(_) => s == now && b.pb.state != s0 && b.pb.state != NoState && Edge(m, b.pb.state)
    case Notifying(_) => s == b.pb.state != s0 && Edge(m, s)
    case Setting(_) => s == b.pb.state != s0 && Edge(m, s)
    case Patching(_) => s == m != s0
  }

  lemma CalmStep(c: Config, e: Event, restarted: bool, s0: State)
    requires CInv(c, restarted) && Enabled(c, e) && Calm(e)
    requires if e.Begin? then c.b.stored.state == s0 && !StuckPair(c) else OnItsWay(c, s0)
    ensures OnItsWay(Step(c, e), s0)
  {
    hide *;
    if ImageStep(e) {
      CalmImage(c, e, restarted, s0);
    } else if Outside(e) {
      CalmBoot(c, e, restarted, s0);
    } else if Updating(e) {
      CalmUpdate(c, e, restarted, s0);
    } else if e.Cleanup? {
      CalmCleanup(c, e.keyPairGone, e.groupGone, restarted, s0);
    } else if Deciding(e) {
      CalmDecision(c, e, restarted, s0);
    } else {
      CalmHandler(c, e, restarted, s0);
    }
  }

  lemma CalmBoot(c: Config, e: Event, restarted: bool, s0: State)
    requires CInv(c, restarted) && Enabled(c, e) && Calm(e) && Outside(e) && !ImageStep(e)
    requires if e.Begin? then c.b.stored.state == s0 && !StuckPair(c) else OnItsWay(c, s0)
    ensures OnItsWay(Step(c, e), s0)
  {}

  lemma CalmImage(c: Config, e: Event, restarted: bool, s0: State)
    requires CInv(c, restarted) && Enabled(c, e) && Calm(e) && ImageStep(e)
    requires if e.Begin? then c.b.stored.state == s0 && !StuckPair(c) else OnItsWay(c, s0)
    ensures OnItsWay(Step(c, e), s0)
  {
    hide Step, Enabled;
    ImageStepFrame(c, e);
  }

  lemma CalmUpdate(c: Config, e: Event, restarted: bool, s0: State)
    requires CInv(c, restarted) && Enabled(c, e) && Calm(e) && Updating(e)
    requires if e.Begin? then c.b.stored.state == s0 && !StuckPair(c) else OnItsWay(c, s0)
    ensures OnItsWay(Step(c, e), s0)
  {}

  lemma CalmCleanup(c: Config, keyPairGone: bool, groupGone: bool, restarted: bool, s0: State)
    requires var e := Cleanup(keyPairGone, groupGone); CInv(c, restarted) && Enabled(c, e) && Calm(e)
    requires OnItsWay(c, s0)
    ensures OnItsWay(Step(c, Cleanup(keyPairGone, groupGone)), s0)
  {}

  lemma CalmDecision(c: Config, e: Event, restarted: bool, s0: State)
    requires CInv(c, restarted) && Enabled(c, e) && Calm(e) && Deciding(e)
    requires if e.Begin? then c.b.stored.state == s0 && !StuckPair(c) else OnItsWay(c, s0)
    ensures OnItsWay(Step(c, e), s0)
  {}

  lemma CalmHandler(c: Config, e: Event, restarted: bool, s0: State)
    requires CInv(c, restarted) && Enabled(c, e) && Calm(e)
    requires !Outside(e) && !Updating(e) && !e.Cleanup? && !Deciding(e)
    requires if e.Begin? then c.b.stored.state == s0 && !StuckPair(c) else OnItsWay(c, s0)
    ensures OnItsWay(Step(c, e), s0)
  {}

  function Replay(c: Config, es: seq<Event>): Option<Config> {
    if es == [] then Some(c)
    else
      match Replay(c, es[..|es| - 1])
      case None => None
      case Some(d) => if Enabled(d, es[|es| - 1]) then Some(Step(d, es[|es| - 1])) else None
  }

  lemma ReplayKeeps(c: Config, es: seq<Event>, restarted: bool)
    requires CInv(c, restarted) && Replay(c, es).Some?
    ensures CInv(Replay(c, es).value, restarted)
  {
    if es != [] {
      var init := es[..|es| - 1];
      ReplayKeeps(c, init, restarted);
      StepKeepsPair(Replay(c, init).value, es[|es| - 1], restarted);
    }
  }

  // Every complete reconcile without faults or waiting ends with both copies equal and
  // the stored state moved on, unless it began in the stuck pair.
  lemma {:induction false} FaultFreeProgress(c: Config, es: seq<Event>, restarted: bool)
    requires CInv(c, restarted) && c.b.phase.Idle? && !StuckPair(c)
    requires |es| > 0 && Replay(c, es).Some?
    requires forall i :: 0 <= i < |es| ==> Calm(es[i]) && (es[i].Begin? <==> i == 0)
    ensures OnItsWay(Replay(c, es).value, c.b.stored.state)
    ensures var d := Replay(c, es).value;
      d.b.phase.Idle? ==>
        d.b.stored.state != c.b.stored.state && Current(d.states, d.b.stored.buildId) == d.b.stored.state
  {
    var init := es[..|es| - 1];
    ReplayKeeps(c, init, restarted);
    if |es| > 1 {
      FaultFreeProgress(c, init, restarted);
    } else {
      assert Replay(c, []) == Some(c) && init == [];
    }
    CalmStep(Replay(c, init).value, es[|es| - 1], restarted, c.b.stored.state);
  }

  // ---------------------------------------------------------------- such a reconcile exists

  // What to do next for a reconcile without faults or waiting.
  function NextCalm(b: Builder, jobId: JobId): Event {
    match b.phase
    case Booting => BootState(Landed)
    case Syncing => Sync
    case Checked => NoAdoption
    case Cleared => Verdict(true, Some(b.pb.base))
    case Writing(_) => WriteCall(Landed)
    case Notifying(_) => NotifyCall(true)
    case Setting(_) => SetRunner
    case Patching(_) => PatchCall(true)
    case _ =>
      (match b.pb.state
       case Initial => InitGo
       case FlightChecks => ActiveCheck(true)
       case JobCreation => Create(jobId, Made)
       case JobRunning => Watch(if b.pb.jobId in b.succeeded then Succeeded else Unsuccessful)
       case JobCompleted => Complete
       case AMICreated => Cleanup(true, true)
       case _ => Recover)
  }

  function Left(phase: Phase): nat {
    match phase
    case Idle => 0
    case Patching(_) => 1
    case Setting(_) => 2
    case Notifying(_) => 3
    case Writing(_) => 4
    case Cleared => 5
    case Checked => 6
    case Adopting => 7
    case Handling => 8
    case Syncing => 9
    case Booting => 10
  }

  // The watch has something to see: the job succeeded, failed or no longer exists.
  predicate Decided(b: Builder, jobId: JobId) { jobId in b.succeeded || jobId in b.failed || jobId !in b.jobs }

  // Event `e` is a calm step that leaves fewer steps to go.
  predicate WayOn(c: Config, e: Event, jobId: JobId, s0: State) {
    && Enabled(c, e) && Calm(e) && !e.Begin? && !e.Adopt? && !ImageStep(e)
    && (s0 != FlightChecks ==> !e.NoAdoption? && !e.Verdict?)
    && var b := Step(c, e).b;
    && Left(b.phase) < Left(c.b.phase) && b.spec == c.b.spec
    && (Left(b.phase) > 4 ==> jobId !in b.jobs && (s0 == JobRunning ==> Decided(b, b.pb.jobId)))
  }

  // A reconcile that is under way always has such a step.
  lemma CalmWayOn(c: Config, jobId: JobId, restarted: bool, s0: State)
    requires CInv(c, restarted) && OnItsWay(c, s0) && !c.b.phase.Idle? && (Left(c.b.phase) > 4 ==> jobId !in c.b.jobs)
    requires Left(c.b.phase) > 4 && s0 == JobRunning ==> Decided(c.b, c.b.pb.jobId)
    requires s0 == NoState || s0 == Initial ==> !c.b.spec.Capped()
    ensures WayOn(c, NextCalm(c.b, jobId), jobId, s0)
  {
    hide WayOn, CInv, OnItsWay, NextCalm, Step, Enabled;
    match c.b.phase
    case Handling => HandlerWayOn(c, jobId, restarted, s0);
    case Writing(_) => PublishWayOn(c, jobId, restarted, s0);
    case Notifying(_) => PublishWayOn(c, jobId, restarted, s0);
    case Setting(_) => CommitWayOn(c, jobId, restarted, s0);
    case Patching(_) => CommitWayOn(c, jobId, restarted, s0);
    case _ => OtherWayOn(c, jobId, restarted, s0);
  }

  lemma HandlerWayOn(c: Config, jobId: JobId, restarted: bool, s0: State)
    requires CInv(c, restarted) && OnItsWay(c, s0) && c.b.phase.Handling? && jobId !in c.b.jobs
    requires s0 == JobRunning ==> Decided(c.b, c.b.pb.jobId)
    requires s0 == NoState || s0 == Initial ==> !c.b.spec.Capped()
    ensures WayOn(c, NextCalm(c.b, jobId), jobId, s0)
  {}

  lemma PublishWayOn(c: Config, jobId: JobId, restarted: bool, s0: State)
    requires CInv(c, restarted) && OnItsWay(c, s0) && (c.b.phase.Writing? || c.b.phase.Notifying?)
    ensures WayOn(c, NextCalm(c.b, jobId), jobId, s0)
  {}

  lemma CommitWayOn(c: Config, jobId: JobId, restarted: bool, s0: State)
    requires CInv(c, restarted) && OnItsWay(c, s0) && (c.b.phase.Setting? || c.b.phase.Patching?)
    ensures WayOn(c, NextCalm(c.b, jobId), jobId, s0)
  {}

  lemma OtherWayOn(c: Config, jobId: JobId, restarted: bool, s0: State)
    requires CInv(c, restarted) && OnItsWay(c, s0) && Left(c.b.phase) > 4 && !c.b.phase.Handling? && jobId !in c.b.jobs
    requires s0 == JobRunning ==> Decided(c.b, c.b.pb.jobId)
    ensures WayOn(c, NextCalm(c.b, jobId), jobId, s0)
  {}

  predicate CalmReconcile(es: seq<Event>) {
    |es| > 0 && forall i :: 0 <= i < |es| ==> Calm(es[i]) && (es[i].Begin? <==> i == 0)
  }

  // Steps that ask nothing of EC2.
  predicate NoImages(es: seq<Event>) {
    forall i :: 0 <= i < |es| ==> !es[i].NoAdoption? && !es[i].Verdict? && !es[i].Adopt? && !ImageStep(es[i])
  }

  // From everywhere between reconciles but the stuck pair, a capped failure count and a job
  // still to be waited for, a complete reconcile without faults or waiting exists, and it
  // makes progress.
  lemma CalmReconcileExists(c: Config, newId: Id, jobId: JobId, restarted: bool) returns (es: seq<Event>)
    requires CInv(c, restarted) && c.b.phase.Idle? && !StuckPair(c)
    requires newId != "" && newId !in c.states && jobId !in c.b.jobs
    requires c.b.stored.state == NoState || c.b.stored.state == Initial ==> !c.b.spec.Capped()
    requires c.b.stored.state == JobRunning ==> Decided(c.b, c.b.stored.jobId)
    ensures CalmReconcile(es) && es[0] == Begin(newId) && Replay(c, es).Some?
    ensures c.b.stored.state != FlightChecks ==> NoImages(es)
    ensures var d := Replay(c, es).value;
      d.b.phase.Idle? && d.b.stored.state != c.b.stored.state && Current(d.states, d.b.stored.buildId) == d.b.stored.state
  {
    var s0 := c.b.stored.state;
    es := [Begin(newId)];
    var d := Step(c, es[0]);
    assert es[..0] == [] && Replay(c, []) == Some(c) && Replay(c, es) == Some(d);
    StepKeepsPair(c, es[0], restarted);
    CalmStep(c, es[0], restarted, s0);
    hide CInv, OnItsWay, NextCalm, Step, Enabled, Replay, Calm, ImageStep;
    while !d.b.phase.Idle?
      invariant Replay(c, es) == Some(d) && CInv(d, restarted) && OnItsWay(d, s0) && d.b.spec == c.b.spec
      invariant CalmReconcile(es) && es[0] == Begin(newId) && (s0 != FlightChecks ==> NoImages(es))
      invariant Left(d.b.phase) > 4 ==> jobId !in d.b.jobs && (s0 == JobRunning ==> Decided(d.b, d.b.pb.jobId))
      decreases Left(d.b.phase)
    {
      var e := NextCalm(d.b, jobId);
      CalmWayOn(d, jobId, restarted, s0);
      ReplayMore(c, es, e);
      StepKeepsPair(d, e, restarted);
      CalmStep(d, e, restarted, s0);
      d, es := Step(d, e), es + [e];
    }
    Arrived(d, s0);
  }

  lemma Arrived(d: Config, s0: State)
    requires d.b.phase.Idle? && OnItsWay(d, s0)
    ensures d.b.stored.state != s0 && Current(d.states, d.b.stored.buildId) == d.b.stored.state
  {}

  lemma ReplayMore(c: Config, es: seq<Event>, e: Event)
    requires Replay(c, es).Some? && Enabled(Replay(c, es).value, e)
    ensures Replay(c, es + [e]) == Some(Step(Replay(c, es).value, e))
  {
    assert (es + [e])[..|es + [e]| - 1] == es;
  }
}
