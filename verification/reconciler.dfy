// The reconciler as the program writes it: handlers that assign status fields one by one
// and call out to a world that may refuse, and that never stands still: before every call,
// other builders, the cluster, EC2 and (during a watch) the reconcile's own log reader may
// do whatever they like (`Others`). Every method is proved to take part in a run of World:
// at every point in between, `ws` and `evs` are such a run and it ends in the present.
module Reconciler {
  import opened Options
  import opened Opsy
  import opened Protocol
  import opened ProtocolInv
  import opened ProtocolJobs
  import opened Images
  import opened World

  // ---------------------------------------------------------------- what others may do

  // Jobs may finish and be deleted.
  predicate Outlived(before: map<JobId, Job>, after: map<JobId, Job>) {
    forall j :: j in after ==> j in before && (after[j] == before[j] || after[j] == before[j].(finished := true))
  }

  // Equal, but for what a log reader may have captured while it was at work.
  predicate Alike(reading: bool, s: Status, t: Status) { if reading then s.Captured(t) == t else s == t }

  lemma AlikeAgree(reading: bool, s: Status, t: Status)
    ensures Alike(reading, s, t) ==> s.state == t.state && s.buildId == t.buildId
  {}

  lemma OutlivedTwice(a: map<JobId, Job>, b: map<JobId, Job>, c: map<JobId, Job>)
    requires Outlived(a, b) && Outlived(b, c)
    ensures Outlived(a, c)
  {}

  // How a builder may have changed while its reconcile was waiting for a call.
  predicate Rely(before: Builder, after: Builder) {
    && after == before.(pb := after.pb, upd := after.upd, jobs := after.jobs, succeeded := after.succeeded, failed := after.failed)
    && Alike(Reading(before), before.pb, after.pb)
    && (!Reading(before) ==> after.upd == before.upd)
    && Outlived(before.jobs, after.jobs)
    && before.succeeded <= after.succeeded && before.failed <= after.failed
  }

  // A move of anybody but the reconcile itself; its log reader counts as somebody else.
  predicate ByOthers(w: World, ev: WorldEvent, n: Name) {
    && !ev.Restart?
    && (ev.Of? && ev.n == n ==> ImageStep(ev.e) && n in w.builders && Reading(w.builders[n]))
  }

  lemma OthersMove(env: Env, w: World, ev: WorldEvent, n: Name)
    requires Inv(w) && CanHappen(env, w, ev) && n in w.builders && ByOthers(w, ev, n)
    ensures var w', b := Apply(env, w, ev), w.builders[n];
      && n in w'.builders && Rely(b, w'.builders[n])
      && Current(w'.states, b.stored.buildId) == Current(w.states, b.stored.buildId)
      && Current(w'.states, b.pb.buildId) == Current(w.states, b.pb.buildId)
  {
    if ev.Of? && ev.n == n {
      assert BuilderInv(w, n);
      ReaderMoves(ConfigOf(w, n), ev.e, w.restarted);
      hide Step, Enabled;
    } else {
      OthersLeaveAlone(env, w, ev, n);
      if ev.Of? {
        OthersKeepCurrent(env, w, ev, n);
      }
    }
  }

  lemma ReaderMoves(c: Config, e: Event, restarted: bool)
    requires CInv(c, restarted) && Enabled(c, e) && ImageStep(e) && Reading(c.b)
    ensures Rely(c.b, Step(c, e).b) && Step(c, e).states == c.states
  {
    ImageStepFrame(c, e);
    hide Step, Enabled;
  }

  lemma OthersLeaveAlone(env: Env, w: World, ev: WorldEvent, n: Name)
    requires CanHappen(env, w, ev) && n in w.builders && !ev.Restart? && (ev.Of? ==> ev.n != n)
    ensures n in Apply(env, w, ev).builders && Rely(w.builders[n], Apply(env, w, ev).builders[n])
    ensures ev.Of? || Apply(env, w, ev).states == w.states
  {
    hide Step, Enabled;
  }

  // What a reconcile's own step does to the world.
  lemma OwnMove(env: Env, w: World, n: Name, e: Event, seen: seq<Image>)
    requires n in w.builders && Enabled(ConfigOf(w, n), e) && Consistent(env, w, w.builders[n], e, seen)
    ensures CanHappen(env, w, Of(n, e, seen))
    ensures var w' := Apply(env, w, Of(n, e, seen));
      && n in w'.builders && ConfigOf(w', n) == Step(ConfigOf(w, n), e) && w'.ec2 == Ec2After(env, w, w.builders[n], e)
  {
    hide Step, Enabled, Consistent, Ec2After;
  }

  lemma RelyTwice(a: Builder, b: Builder, c: Builder)
    requires Rely(a, b) && Rely(b, c)
    ensures Rely(a, c)
  {}

  // ---------------------------------------------------------------- the reconcile's own steps

  predicate Own(ev: WorldEvent, n: Name) { ev.Of? && ev.n == n }

  // A step that reports a failure for which there is no ground outside: a call failed.
  // (What the log reader does is not the reconcile's own doing.)
  predicate Faulty(env: Env, w: World, b: Builder, e: Event, seen: seq<Image>) {
    match e
    case BootCondition(landed) => !landed
    case BootState(call) => call != Landed
    case ActiveCheck(looked) => !looked
    case Adopt(_, _, _, call) => call != Landed
    case Verdict(pass, base) => !pass && !Founded(env, w, b, base, seen)
    case Create(id, outcome) => outcome != Made && (outcome != Skipped || id !in b.jobs)
    case TagCall(call) => b.phase == Adopting && call != Landed && (b.upd.Tagging? ==> b.upd.img in w.ec2)
    case ListCall(listed) => b.phase == Adopting && listed == None
    case RetireCall(call) =>
      b.phase == Adopting && call != Landed && (b.upd.Retiring? && b.upd.rest != [] ==> b.upd.rest[0] in w.ec2)
    case Watch(watched) => watched == Trouble || (watched == Gone && Decided(b, b.pb.jobId))
    case Cleanup(keyPairGone, groupGone) => !keyPairGone || !groupGone
    case WriteCall(call) => call != Landed
    case NotifyCall(ok) => !ok
    case PatchCall(ok) => !ok
    case _ => false
  }

  // Why a flight check may say no: no base image was found, or the builder's images, as
  // listed at that moment, forbid it: the age check does, or none is recorded as built and
  // the newest one listed cannot be adopted.
  predicate Founded(env: Env, w: World, b: Builder, base: Option<ImageId>, seen: seq<Image>) {
    || (b.spec.filtered && base == None)
    || (IsListing(seen, w.ec2, IdentityFilter(b.spec))
        && (|| !AMIChecks(env.parse, seen, w.now, b.spec.validFor, PackerBuilderCheck).0
            || (b.pb.built == "" && seen != [] && !NewestIsActive(env.parse, seen))))
  }

  predicate NewestIsActive(parse: Parse, seen: seq<Image>) {
    var latest := LatestOf(parse, seen).index;
    latest.Some? && latest.value < |seen| && Tag(StatusKey, ACTIVE) in seen[latest.value].tags
  }

  // What the reconcile's own steps are like: it is never cut off, and where no call fails
  // (`faultless`) none of them says that one did.
  predicate Honest(env: Env, faultless: bool, w: World, n: Name, e: Event, seen: seq<Image>) {
    n in w.builders && e != Abandon && (faultless ==> !Faulty(env, w, w.builders[n], e, seen))
  }

  // All own steps of a run are honest, and after step `begun` it has neither a restart nor
  // another beginning of a reconcile.
  ghost predicate Proper(env: Env, faultless: bool, n: Name, ws: seq<World>, evs: seq<WorldEvent>, begun: nat) {
    && |ws| == |evs| + 1 && begun <= |evs|
    && (forall i :: 0 <= i < |evs| && Own(evs[i], n) ==> Honest(env, faultless, ws[i], n, evs[i].e, evs[i].seen))
    && (forall i :: begun < i < |evs| ==> evs[i] != Restart && (Own(evs[i], n) ==> !evs[i].e.Begin?))
  }

  lemma ProperMore(env: Env, faultless: bool, n: Name, ws: seq<World>, evs: seq<WorldEvent>, begun: nat,
                   w: World, ev: WorldEvent, begun': nat)
    requires Proper(env, faultless, n, ws, evs, begun)
    requires Own(ev, n) ==> Honest(env, faultless, ws[|ws| - 1], n, ev.e, ev.seen)
    requires begun' == if ev == Restart || (Own(ev, n) && ev.e.Begin?) then |evs| else begun
    ensures Proper(env, faultless, n, ws + [w], evs + [ev], begun')
  {
    hide Honest;
  }

  lemma ProperBefore(env: Env, faultless: bool, n: Name, ws: seq<World>, evs: seq<WorldEvent>, begun: nat, k: nat)
    requires Proper(env, faultless, n, ws, evs, begun) && k <= |evs|
    ensures Proper(env, faultless, n, ws[..k + 1], evs[..k], if begun < k then begun else k)
  {
    hide Honest;
  }

  // A decision to wait for the world: the failure count, the flight check or an adoption says
  // so, or the job is not decided when the builder goes away.
  predicate Waits(e: Event) { e.InitWait? || (e.Verdict? && !e.pass) || e.Adopt? || (e.Watch? && e.watched.Gone?) }

  // A reconcile that has ended without a fault or a wait has moved the stored state on, and
  // the runner agrees.
  lemma CameThrough(env: Env, faultless: bool, n: Name, ws: seq<World>, evs: seq<WorldEvent>, begun: nat)
    requires IsRun(env, ws, evs) && Inv(ws[0]) && Proper(env, faultless, n, ws, evs, begun)
    requires begun < |evs| && Own(evs[begun], n) && evs[begun].e.Begin?
    requires n in ws[begun].builders && !StuckPair(ConfigOf(ws[begun], n))
    requires n in ws[|evs|].builders && ws[|evs|].builders[n].phase == Idle
    requires forall i :: begun < i < |evs| && Own(evs[i], n) ==> Calm(evs[i].e)
    ensures var b := ws[|evs|].builders[n];
      b.stored.state != ws[begun].builders[n].stored.state && Current(ws[|evs|].states, b.stored.buildId) == b.stored.state
  {
    hide Honest, Calm, StuckPair, Inv, IsRun;
    RunOnItsWay(env, ws, evs, n, begun, |evs|);
  }

  lemma NoFaultNoWait(env: Env, n: Name, ws: seq<World>, evs: seq<WorldEvent>, begun: nat)
    requires Proper(env, true, n, ws, evs, begun)
    requires forall i :: begun < i < |evs| && Own(evs[i], n) ==> !Waits(evs[i].e)
    ensures forall i :: begun < i < |evs| && Own(evs[i], n) ==> Calm(evs[i].e)
  {
    forall i | begun < i < |evs| && Own(evs[i], n) ensures Calm(evs[i].e) {
      CalmIfHonest(env, ws[i], n, evs[i].e, evs[i].seen);
    }
  }

  lemma CalmIfHonest(env: Env, w: World, n: Name, e: Event, seen: seq<Image>)
    requires Honest(env, true, w, n, e, seen) && !Waits(e)
    ensures Calm(e)
  {}

  lemma EarlierMoment(env: Env, faultless: bool, n: Name, ws: seq<World>, evs: seq<WorldEvent>, begun: nat, last: nat, at: nat)
    returns (w: World, start: nat)
    requires IsRun(env, ws, evs) && Inv(ws[0]) && Proper(env, faultless, n, ws, evs, begun)
    requires last <= at < |ws| && n in ws[last].builders
    ensures |ws| == |evs| + 1 && w == ws[at] == ws[..at + 1][at] && ws[..at + 1][0] == ws[0]
    ensures IsRun(env, ws[..at + 1], evs[..at]) && Inv(w)
    ensures Proper(env, faultless, n, ws[..at + 1], evs[..at], start)
    ensures n in w.builders && w.builders[n].spec == ws[last].builders[n].spec
  {
    assert |ws| == |evs| + 1;
    hide *;
    RunInv(env, ws, evs, at);
    RunBegins(env, ws, evs, at);
    RunOnward(env, ws, evs, n, last, at);
    ProperBefore(env, faultless, n, ws, evs, begun, at);
    w, start := ws[at], if begun < at then begun else at;
  }

  // Steps of others, the log reader among them, are no steps of the reconcile's own.
  lemma OtherIsProper(env: Env, faultless: bool, n: Name, ws: seq<World>, evs: seq<WorldEvent>, begun: nat, w: World, ev: WorldEvent)
    requires Proper(env, faultless, n, ws, evs, begun) && Inv(ws[|ws| - 1]) && ByOthers(ws[|ws| - 1], ev, n)
    ensures Proper(env, faultless, n, ws + [w], evs + [ev], begun)
  {
    if Own(ev, n) {
      ReaderIsHonest(env, faultless, ws[|ws| - 1], n, ev.e, ev.seen);
    }
    hide Proper, Inv, Honest;
    ProperMore(env, faultless, n, ws, evs, begun, w, ev, begun);
  }

  lemma ReaderIsHonest(env: Env, faultless: bool, w: World, n: Name, e: Event, seen: seq<Image>)
    requires Inv(w) && n in w.builders && Reading(w.builders[n]) && ImageStep(e)
    ensures Honest(env, faultless, w, n, e, seen) && !e.Begin?
  {
    assert BuilderInv(w, n);
  }

  lemma TagIsHonest(env: Env, faultless: bool, w: World, n: Name, call: Call, seen: seq<Image>)
    requires n in w.builders && w.builders[n].upd.Tagging?
    requires faultless && w.builders[n].upd.img in w.ec2 ==> call == Landed
    ensures Honest(env, faultless, w, n, TagCall(call), seen)
  {}

  lemma TagTakesEffect(env: Env, w: World, b: Builder, call: Call)
    requires b.upd.Tagging? && (call != Lost ==> b.upd.img in w.ec2)
    ensures var e := TagCall(call);
      && Enabled(Config(w.states, b), e) && Consistent(env, w, b, e, [])
      && Ec2After(env, w, b, e) ==
         (if call == Lost then w.ec2 else Retag(w.ec2, b.upd.img, TagsFor(b.spec, b.pb, Everything, env.format(w.now))))
      && var c := Step(Config(w.states, b), e);
      && c.states == w.states && c.b == b.(phase := c.b.phase, upd := c.b.upd, reading := c.b.reading)
  {
    hide TagsFor;
  }

  lemma UpdateIsHonest(env: Env, faultless: bool, w: World, n: Name, e: Event)
    requires n in w.builders && (e.WriteCall? || e.NotifyCall? || e.SetRunner? || e.PatchCall?)
    requires faultless ==> e == WriteCall(Landed) || e == NotifyCall(true) || e == SetRunner || e == PatchCall(true)
    ensures Honest(env, faultless, w, n, e, [])
  {}

  lemma VerdictStep(c: Config, pass: bool, base: Option<ImageId>)
    requires c.b.phase == Cleared || (c.b.phase == Checked && !pass)
    requires pass && c.b.spec.filtered ==> base.Some?
    ensures Enabled(c, Verdict(pass, base))
    ensures var b := c.b.(pb := if base.Some? then c.b.pb.(base := base.value) else c.b.pb, found := base);
      Step(c, Verdict(pass, base)) == c.(b := if pass then Update(b, JobCreation, false) else End(b))
  {}

  // The steps of reconcileUpdate.
  lemma WriteStep(c: Config, call: Call, fallback: bool)
    requires c.b.phase == Writing(fallback)
    ensures Enabled(c, WriteCall(call))
    ensures var b := if call == Lost then c.b else c.b.(stored := c.b.pb, owes := false);
      Step(c, WriteCall(call)) == c.(b := if call == Landed then b.(phase := Notifying(fallback)) else Fail(b, fallback))
  {}

  lemma NotifyStep(c: Config, ok: bool, fallback: bool)
    requires c.b.phase == Notifying(fallback) && (Notifies(c.b.pb.state) || ok)
    ensures Enabled(c, NotifyCall(ok))
    ensures Step(c, NotifyCall(ok)) == c.(b := if ok then c.b.(phase := Setting(fallback)) else Fail(c.b, fallback))
  {}

  lemma SetStep(c: Config, fallback: bool)
    requires c.b.phase == Setting(fallback)
    ensures Enabled(c, SetRunner)
    ensures Step(c, SetRunner) ==
      if Edge(Current(c.states, c.b.pb.buildId), c.b.pb.state)
      then Config(c.states[c.b.pb.buildId := c.b.pb.state], c.b.(phase := Patching(fallback)))
      else c.(b := Fail(c.b, fallback))
  {}

  lemma PatchStep(c: Config, ok: bool, fallback: bool)
    requires c.b.phase == Patching(fallback)
    ensures Enabled(c, PatchCall(ok))
    ensures Step(c, PatchCall(ok)) == c.(b := if ok then End(c.b.(pb := c.b.stored)) else Fail(c.b, fallback))
  {}

  lemma ListIsHonest(env: Env, faultless: bool, w: World, n: Name, listed: Option<seq<ImageId>>, seen: seq<Image>)
    requires n in w.builders && (faultless ==> listed.Some?)
    ensures Honest(env, faultless, w, n, ListCall(listed), seen)
  {}

  lemma RetireIsHonest(env: Env, faultless: bool, w: World, n: Name, call: Call, seen: seq<Image>)
    requires n in w.builders && w.builders[n].upd.Retiring? && w.builders[n].upd.rest != []
    requires faultless && w.builders[n].upd.rest[0] in w.ec2 ==> call == Landed
    ensures Honest(env, faultless, w, n, RetireCall(call), seen)
  {}

  lemma AdoptIsHonest(env: Env, faultless: bool, w: World, n: Name, e: Event, seen: seq<Image>)
    requires n in w.builders && e.Adopt? && (faultless ==> e.call == Landed)
    ensures Honest(env, faultless, w, n, e, seen)
  {}

  lemma VerdictIsHonest(env: Env, faultless: bool, w: World, n: Name, pass: bool, base: Option<ImageId>, seen: seq<Image>)
    requires n in w.builders && (faultless && !pass ==> Founded(env, w, w.builders[n], base, seen))
    ensures Honest(env, faultless, w, n, Verdict(pass, base), seen)
  {}

  // ---------------------------------------------------------------- flight check results

  // One flight check's result; `isBase` says that its message contains "Base AMI".
  datatype CheckResult = CheckResult(success: bool, isBase: bool, name: ImageId)

  // The base image after a fold over check results that began with `base`.
  function LastBase(results: seq<CheckResult>, base: ImageId): ImageId {
    if results == [] then base
    else
      var last := results[|results| - 1];
      if last.success && last.isBase then last.name else LastBase(results[..|results| - 1], base)
  }

  lemma LastBaseOfTwo(a: CheckResult, b: CheckResult, base: ImageId)
    requires !b.isBase
    ensures LastBase([a, b], base) == if a.success && a.isBase then a.name else base
  {
    assert [a, b][..1] == [a] && [a][..0] == [];
    assert LastBase([a], base) == if a.success && a.isBase then a.name else base;
  }

  class PackerBuilderReconciler {
    const n: Name
    const env: Env
    const spec: Spec
    const runner: OpsyRunner // shared by all reconciles
    const faultless: bool // does no call of the reconcile fail?
    var pb: Status // the reconcile's copy, which its log reader writes to as well
    var stored: Status // what the API server holds
    var jobs: map<JobId, Job> // the cluster's jobs of this builder
    var ec2: Ec2
    var world: World // all of the above and everything else, for others to act on
    // What has happened so far.
    var ws: seq<World>
    var evs: seq<WorldEvent>
    ghost var begun: nat // which of the events began the reconcile

    ghost function B(): Builder
      requires n in world.builders
      reads this
    {
      world.builders[n]
    }

    // A run leads to the present world, and the reconcile's own steps in it are honest.
    ghost predicate History()
      reads this
    {
      && |ws| == |evs| + 1 && ws[|ws| - 1] == world && IsRun(env, ws, evs) && Inv(ws[0]) && Inv(world)
      && Proper(env, faultless, n, ws, evs, begun)
    }

    // What has happened stays, and no reconcile begins.
    twostate predicate Onward()
      reads this
    {
      old(ws) <= ws && old(evs) <= evs && begun == old(begun)
    }

    ghost predicate Valid()
      reads this, runner
    {
      && History() && n in world.builders
      && world.states == runner.states && world.ec2 == ec2
      && B().spec == spec && B().pb == pb && B().stored == stored && B().jobs == jobs
    }

    // Step `e` may be taken, and the fields already show what comes of it.
    ghost predicate Ready(e: Event, seen: seq<Image>)
      reads this, runner
    {
      && History() && n in world.builders && B().spec == spec
      && Enabled(ConfigOf(world, n), e) && Consistent(env, world, B(), e, seen) && Honest(env, faultless, world, n, e, seen)
      && ec2 == Ec2After(env, world, B(), e)
      && var c := Step(ConfigOf(world, n), e);
      && c.states == runner.states && c.b.spec == spec
      && c.b.pb == pb && c.b.stored == stored && c.b.jobs == jobs
    }

    // Step `e` was decided and takes effect with the reconcileUpdate that follows at once.
    ghost predicate Pending(e: Event, seen: seq<Image>, target: State, fallback: bool)
      reads this, runner
    {
      && History() && n in world.builders && B().spec == spec
      && Enabled(ConfigOf(world, n), e) && Consistent(env, world, B(), e, seen) && Honest(env, faultless, world, n, e, seen)
      && ec2 == Ec2After(env, world, B(), e)
      && var c := Step(ConfigOf(world, n), e);
      && c.states == runner.states && c.b.spec == spec
      && c.b.pb == pb.(state := target) && c.b.stored == stored && c.b.jobs == jobs
      && c.b.phase == Writing(fallback) && c.b.reading == Reading(B()) && !e.Begin?
    }

    // A stage of reconcileUpdate failed: the fallback ends the reconcile, any other update
    // goes on to the error state.
    ghost predicate Stopped(failure: Event, fallback: bool)
      reads this, runner
    {
      if fallback then Valid() && B().phase == Idle else Pending(failure, [], Error, true)
    }

    constructor (n: Name, env: Env, runner: OpsyRunner, world: World, faultless: bool)
      requires Inv(world) && n in world.builders && runner.states == world.states
      ensures Valid() && this.n == n && this.env == env && this.runner == runner && this.world == world
      ensures this.faultless == faultless && ws == [world] && evs == []
    {
      var b := world.builders[n];
      this.n, this.env, this.spec, this.runner, this.world := n, env, b.spec, runner, world;
      pb, stored, jobs, ec2 := b.pb, b.stored, b.jobs, world.ec2;
      ws, evs, begun := [world], [], 0;
      this.faultless := faultless;
    }

    // Whatever goes on outside while the reconcile waits.
    method Others()
      requires Valid()
      modifies this`world, this`pb, this`jobs, this`ec2, this`ws, this`evs, runner
      ensures Valid() && Onward() && Rely(old(B()), B())
      ensures Current(runner.states, stored.buildId) == Current(old(runner.states), stored.buildId)
      ensures Current(runner.states, pb.buildId) == Current(old(runner.states), pb.buildId)
    {
      hide Inv, IsRun, Proper;
      var moves: int := *;
      for i := 0 to if moves < 0 then 0 else moves
        invariant Valid() && Onward() && Rely(old(B()), B())
        invariant Current(runner.states, stored.buildId) == Current(old(runner.states), stored.buildId)
        invariant Current(runner.states, pb.buildId) == Current(old(runner.states), pb.buildId)
      {
        ghost var before := B();
        OneMove();
        RelyTwice(old(B()), before, B());
      }
    }

    method OneMove()
      requires Valid()
      modifies this`world, this`pb, this`jobs, this`ec2, this`ws, this`evs, runner
      ensures Valid() && Onward() && Rely(old(B()), B())
      ensures Current(runner.states, stored.buildId) == Current(old(runner.states), stored.buildId)
      ensures Current(runner.states, pb.buildId) == Current(old(runner.states), pb.buildId)
    {
      hide Inv, IsRun, Proper, CanHappen, Apply, ByOthers, Reading;
      var ev: WorldEvent := *;
      if CanHappen(env, world, ev) && ByOthers(world, ev, n) {
        OthersMove(env, world, ev, n);
        OtherIsProper(env, faultless, n, ws, evs, begun, Apply(env, world, ev), ev);
        StepInv(env, world, ev);
        RunMore(env, ws, evs, ev);
        world := Apply(env, world, ev);
        runner.states, ec2 := world.states, world.ec2;
        pb, jobs := world.builders[n].pb, world.builders[n].jobs;
        ws, evs := ws + [world], evs + [ev];
      }
    }

    // The reconcile's own step.
    method Record(e: Event, seen: seq<Image>)
      requires Ready(e, seen)
      modifies this`world, this`ws, this`evs, this`begun
      ensures Valid() && old(ws) < ws && old(evs) < evs && begun == if e.Begin? then |old(evs)| else old(begun)
      ensures evs[|old(evs)|..] == [Of(n, e, seen)] && B() == Step(ConfigOf(old(world), n), e).b
    {
      hide Inv, IsRun, Proper, Step, Enabled, Honest, Apply, CanHappen, Consistent, Ec2After;
      OwnMove(env, world, n, e, seen);
      StepInv(env, world, Of(n, e, seen));
      RunMore(env, ws, evs, Of(n, e, seen));
      ghost var latest := if e.Begin? then |evs| else begun;
      ProperMore(env, faultless, n, ws, evs, begun, Apply(env, world, Of(n, e, seen)), Of(n, e, seen), latest);
      begun := latest;
      world := Apply(env, world, Of(n, e, seen));
      ws, evs := ws + [world], evs + [Of(n, e, seen)];
    }

    // ---------------------------------------------------------------- reconcileUpdate

    // What a call leaves as it was: the past, the copy but for the log reader's captures,
    // and the jobs but for those that finish or vanish.
    twostate predicate Kept()
      requires old(n in world.builders)
      reads this
    {
      Onward() && Alike(old(Reading(B())), old(pb), pb) && Outlived(old(jobs), jobs)
    }

    // How a call fares.
    method Answer() returns (call: Call)
      ensures faultless ==> call == Landed
    {
      call := *;
      if faultless {
        call := Landed;
      }
    }

    method Succeeds() returns (ok: bool)
      ensures faultless ==> ok
    {
      ok := *;
      ok := ok || faultless;
    }

    // SetCondition's write of the whole status.
    method WriteStatus() returns (call: Call)
      modifies this`stored
      ensures faultless ==> call == Landed
      ensures stored == if call.Lost? then old(stored) else pb
    {
      call := Answer();
      if call != Lost {
        stored := pb;
      }
    }

    method SetCondition(fallback: bool) returns (ok: bool, failure: Event)
      requires Valid() && B().phase == Writing(fallback)
      modifies this, runner
      ensures Kept() && Current(runner.states, pb.buildId) == Current(old(runner.states), pb.buildId)
      ensures if ok then Valid() && B().phase == Notifying(fallback) && stored == pb
              else Stopped(failure, fallback) && (stored == old(stored) || stored == pb)
      ensures ok || !fallback ==> Reading(B()) == old(Reading(B()))
      ensures faultless ==> ok
    {
      hide Inv, IsRun, Proper, Honest, Step, Enabled, Consistent, Ec2After;
      Others();
      var call := WriteStatus();
      failure := WriteCall(call);
      UpdateIsHonest(env, faultless, world, n, failure);
      WriteStep(ConfigOf(world, n), call, fallback);
      QuietStep(env, world, B(), failure);
      ok := call == Landed;
      if ok || fallback {
        Record(failure, []);
      }
    }

    method Notify(fallback: bool) returns (ok: bool, failure: Event)
      requires Valid() && B().phase == Notifying(fallback)
      modifies this, runner
      ensures Kept() && Current(runner.states, pb.buildId) == Current(old(runner.states), pb.buildId)
      ensures stored == old(stored)
      ensures if ok then Valid() && B().phase == Setting(fallback) else Stopped(failure, fallback)
      ensures old(pb).state == Initial || old(pb).state == FlightChecks ==> ok
      ensures ok || !fallback ==> Reading(B()) == old(Reading(B()))
      ensures faultless ==> ok
    {
      hide Inv, IsRun, Proper, Honest, Step, Enabled, Consistent, Ec2After;
      Others();
      ok := true;
      if Notifies(pb.state) {
        ok := Succeeds();
      }
      failure := NotifyCall(ok);
      UpdateIsHonest(env, faultless, world, n, failure);
      NotifyStep(ConfigOf(world, n), ok, fallback);
      QuietStep(env, world, B(), failure);
      if ok || fallback {
        Record(failure, []);
      }
    }

    method MoveRunner(fallback: bool) returns (ok: bool, failure: Event)
      requires Valid() && B().phase == Setting(fallback)
      modifies this, runner
      ensures Kept() && stored == old(stored)
      ensures ok == Edge(Current(old(runner.states), old(pb).buildId), old(pb).state)
      ensures Current(runner.states, pb.buildId) == if ok then pb.state else Current(old(runner.states), pb.buildId)
      ensures if ok then Valid() && B().phase == Patching(fallback) else Stopped(failure, fallback)
      ensures ok || !fallback ==> Reading(B()) == old(Reading(B()))
    {
      hide Inv, IsRun, Proper, Honest, Step, Enabled, Edge, Consistent, Ec2After;
      Others();
      ok := runner.SetState(pb.buildId, pb.state);
      failure := SetRunner;
      UpdateIsHonest(env, faultless, world, n, failure);
      SetStep(ConfigOf(world, n), fallback);
      QuietStep(env, world, B(), failure);
      if ok || fallback {
        Record(failure, []);
      }
    }

    // The patch is empty: it is computed against the very copy it is applied to. The
    // server's answer overwrites that copy.
    method Patch(fallback: bool) returns (ok: bool, failure: Event)
      requires Valid() && B().phase == Patching(fallback)
      modifies this, runner
      ensures Onward() && Outlived(old(jobs), jobs) && stored == old(stored)
      ensures Current(runner.states, old(pb).buildId) == Current(old(runner.states), old(pb).buildId)
      ensures if ok then Valid() && B().phase == Idle && pb == stored else Stopped(failure, fallback)
      ensures !ok ==> Alike(old(Reading(B())), old(pb), pb)
      ensures !ok && !fallback ==> Reading(B()) == old(Reading(B()))
      ensures faultless ==> ok
    {
      hide Inv, IsRun, Proper, Honest, Step, Enabled, Consistent, Ec2After, Stopped;
      Others();
      ok, failure := PatchNow(fallback);
    }

    method PatchNow(fallback: bool) returns (ok: bool, failure: Event)
      requires Valid() && B().phase == Patching(fallback)
      modifies this`pb, this`world, this`ws, this`evs, this`begun
      ensures Onward()
      ensures if ok then Valid() && B().phase == Idle && pb == stored else Stopped(failure, fallback) && pb == old(pb)
      ensures !ok && !fallback ==> Reading(B()) == old(Reading(B()))
      ensures faultless ==> ok
    {
      hide Inv, IsRun, Proper, Honest, Step, Enabled, Consistent, Ec2After;
      ok := Succeeds();
      failure := PatchCall(ok);
      PatchStep(ConfigOf(world, n), ok, fallback);
      UpdateIsHonest(env, faultless, world, n, failure);
      QuietStep(env, world, B(), failure);
      if ok {
        pb := stored;
      }
      if ok || fallback {
        Record(failure, []);
      }
    }

    // Write and announce.
    method Publish(fallback: bool) returns (ok: bool, failure: Event)
      requires Valid() && B().phase == Writing(fallback)
      modifies this, runner
      ensures Kept() && Current(runner.states, pb.buildId) == Current(old(runner.states), pb.buildId)
      ensures if ok then Valid() && B().phase == Setting(fallback) && Alike(old(Reading(B())), stored, old(pb))
              else Stopped(failure, fallback) && (stored == old(stored) || Alike(old(Reading(B())), stored, old(pb)))
      ensures ok || !fallback ==> Reading(B()) == old(Reading(B()))
      ensures faultless ==> ok
    {
      hide Inv, IsRun, Proper, Step, Enabled, Honest, Consistent, Ec2After, Stopped, Reading;
      ok, failure := SetCondition(fallback);
      if ok {
        ok, failure := Notify(fallback);
      }
    }

    // Move the runner, then patch.
    method Commit(fallback: bool) returns (ok: bool, failure: Event)
      requires Valid() && B().phase == Setting(fallback)
      modifies this, runner
      ensures Onward() && Outlived(old(jobs), jobs) && stored == old(stored)
      ensures ok ==> Valid() && B().phase == Idle && pb == stored
                     && Edge(Current(old(runner.states), old(pb).buildId), old(pb).state)
                     && Current(runner.states, old(pb).buildId) == old(pb).state
      ensures !ok ==> Stopped(failure, fallback) && Alike(old(Reading(B())), old(pb), pb)
      ensures !ok ==> Current(runner.states, pb.buildId) == Current(old(runner.states), pb.buildId)
                      || Current(runner.states, pb.buildId) == pb.state
      ensures !ok && !fallback ==> Reading(B()) == old(Reading(B()))
      ensures faultless && Edge(Current(old(runner.states), old(pb).buildId), old(pb).state) ==> ok
    {
      hide Inv, IsRun, Proper, Step, Enabled, Honest, Consistent, Ec2After, Stopped, Reading, Edge;
      ok, failure := MoveRunner(fallback);
      if ok {
        ok, failure := Patch(fallback);
      }
    }

    // The update of a reconcile that has decided on step `e`. On success the new state is
    // stored and in the runner. On failure the store has the old or the new status, the
    // runner the old or the new state, and the reconcile is over or bound for Error.
    method ReconcileUpdate(newState: State, e: Event, seen: seq<Image>, fallback: bool) returns (ok: bool, failure: Event)
      requires Pending(e, seen, newState, fallback)
      modifies this, runner
      ensures Onward() && old(evs) < evs && evs[|old(evs)|] == Of(n, e, seen) && Outlived(old(jobs), jobs)
      ensures ok ==> Valid() && B().phase == Idle && pb == stored
                     && Alike(old(Reading(B())), stored, old(pb).(state := newState))
                     && Current(runner.states, old(pb).buildId) == newState
      ensures !ok ==> Stopped(failure, fallback) && Alike(old(Reading(B())), pb, old(pb).(state := newState))
      ensures !ok ==> stored == old(stored) || Alike(old(Reading(B())), stored, old(pb).(state := newState))
      ensures !ok ==> Current(runner.states, pb.buildId) == Current(old(runner.states), pb.buildId)
                      || Current(runner.states, pb.buildId) == newState
      ensures !ok && !fallback ==> Reading(B()) == old(Reading(B()))
      ensures faultless && Edge(Current(old(runner.states), old(pb).buildId), newState) ==> ok
    {
      hide Inv, IsRun, Proper, Step, Enabled, Honest, Consistent, Ec2After, Stopped;
      pb := pb.(state := newState);
      Record(e, seen);
      ok, failure := CarryOut(fallback);
    }

    method CarryOut(fallback: bool) returns (ok: bool, failure: Event)
      requires Valid() && B().phase == Writing(fallback)
      modifies this, runner
      ensures Onward() && Outlived(old(jobs), jobs)
      ensures ok ==> Valid() && B().phase == Idle && pb == stored && Alike(old(Reading(B())), stored, old(pb))
                     && Current(runner.states, old(pb).buildId) == old(pb).state
      ensures !ok ==> Stopped(failure, fallback) && Alike(old(Reading(B())), pb, old(pb))
      ensures !ok ==> stored == old(stored) || Alike(old(Reading(B())), stored, old(pb))
      ensures !ok ==> Current(runner.states, pb.buildId) == Current(old(runner.states), pb.buildId)
                      || Current(runner.states, pb.buildId) == pb.state
      ensures !ok && !fallback ==> Reading(B()) == old(Reading(B()))
      ensures faultless && Edge(Current(old(runner.states), old(pb).buildId), old(pb).state) ==> ok
    {
      hide Inv, IsRun, Proper, Step, Enabled, Honest, Consistent, Ec2After, Stopped, Reading, Edge;
      ok, failure := Publish(fallback);
      if ok {
        ok, failure := Commit(fallback);
      }
    }

    method TransitionToErrorState(e: Event)
      requires Pending(e, [], Error, true)
      modifies this, runner
      ensures Valid() && B().phase == Idle && Onward() && old(evs) < evs && evs[|old(evs)|] == Of(n, e, [])
      ensures Outlived(old(jobs), jobs)
      ensures stored == old(stored) || Alike(old(Reading(B())), stored, old(pb).(state := Error))
      ensures faultless && Edge(Current(old(runner.states), old(pb).buildId), Error) ==>
        Alike(old(Reading(B())), stored, old(pb).(state := Error)) && Current(runner.states, old(pb).buildId) == Error
    {
      var ok, failure := ReconcileUpdate(Error, e, [], true);
    }

    // The shape of every handler's end: one update, and the error state if it fails.
    method Move(newState: State, e: Event, seen: seq<Image>)
      requires Pending(e, seen, newState, false)
      modifies this, runner
      ensures Valid() && B().phase == Idle && Onward() && old(evs) < evs && evs[|old(evs)|] == Of(n, e, seen)
      ensures Outlived(old(jobs), jobs)
      ensures || stored == old(stored)
              || Alike(old(Reading(B())), stored, old(pb).(state := newState))
              || Alike(old(Reading(B())), stored, old(pb).(state := Error))
      ensures faultless && Edge(Current(old(runner.states), old(pb).buildId), newState) ==>
        Alike(old(Reading(B())), stored, old(pb).(state := newState)) && Current(runner.states, old(pb).buildId) == newState
    {
      hide Inv, IsRun, Proper, Step, Enabled, Honest, Consistent, Ec2After, Reading;
      var ok, failure := ReconcileUpdate(newState, e, seen, false);
      if !ok {
        TransitionToErrorState(failure);
      }
    }

    // ---------------------------------------------------------------- the handlers

    // A status is stored, and the runner agrees with it.
    ghost predicate Reached(status: Status)
      reads this, runner
    {
      stored == status && Current(runner.states, status.buildId) == status.state
    }

    method InitState()
      requires Valid() && Handler(B()) == Some(Initial)
      modifies this, runner
      ensures Valid() && B().phase == Idle && Onward() && old(evs) < evs
      ensures stored == old(stored) || stored == old(pb).(state := FlightChecks) || stored == old(pb).(state := Error)
      ensures if spec.failedJobs.GetOr(0) >= spec.maxFailedJobs.GetOr(3)
              then stored == old(stored) && runner.states == old(runner.states)
              else faultless ==> Reached(old(pb).(state := FlightChecks))
    {
      hide Inv, IsRun, Proper, Consistent, Ec2After;
      var maxFailed := spec.maxFailedJobs.GetOr(3);
      var failed := spec.failedJobs.GetOr(0);
      if failed >= maxFailed {
        QuietStep(env, world, B(), InitWait);
        Record(InitWait, []);
        return;
      }
      NoReader(world, n);
      HandlerState(world, n);
      QuietStep(env, world, B(), InitGo);
      Move(FlightChecks, InitGo, []);
    }

    // Folds the results: all must pass, and a passed base check fixes the base image.
    method ProcessFlightCheckResults(results: seq<CheckResult>) returns (all: bool)
      modifies this`pb
      ensures all <==> forall i :: 0 <= i < |results| ==> results[i].success
      ensures pb == old(pb).(base := LastBase(results, old(pb).base))
    {
      all := true;
      for i := 0 to |results|
        invariant all <==> forall j :: 0 <= j < i ==> results[j].success
        invariant pb == old(pb).(base := LastBase(results[..i], old(pb).base))
      {
        assert results[..i + 1][..i] == results[..i];
        if !results[i].success {
          all := false;
        } else {
          if results[i].isBase {
            pb := pb.(base := results[i].name);
          }
        }
      }
      assert results[..|results|] == results;
    }

    // Event `i` is a flight check's verdict to build; it rests on a listing of the builder's
    // images, made at that moment, that the age check accepts.
    ghost predicate Allowed(i: nat)
      reads this
    {
      && i < |evs| && i < |ws| && evs[i].Of? && evs[i].n == n && evs[i].e.Verdict? && evs[i].e.pass
      && IsListing(evs[i].seen, ws[i].ec2, IdentityFilter(spec))
      && AMIChecks(env.parse, evs[i].seen, ws[i].now, spec.validFor, PackerBuilderCheck).0
    }

    // Event `i` is a flight check's verdict not to build, for one of the reasons there may be.
    ghost predicate Refused(i: nat)
      reads this
    {
      && i < |evs| && i < |ws| && Own(evs[i], n) && evs[i].e.Verdict? && !evs[i].e.pass && n in ws[i].builders
      && Founded(env, ws[i], ws[i].builders[n], evs[i].e.baseFound, evs[i].seen)
    }

    ghost predicate AdoptedAt(i: nat)
      reads this
    {
      i < |evs| && Own(evs[i], n) && evs[i].e.Adopt?
    }

    // Is the builder free of unfinished jobs, as far as they could be looked at?
    method ActiveBuildCheck() returns (looked: bool, clear: bool)
      requires Valid() && Handler(B()) == Some(FlightChecks)
      modifies this, runner
      ensures Kept() && stored == old(stored) && pb == old(pb)
      ensures clear ==> Valid() && B().phase == Checked && old(evs) < evs && Unfinished(jobs) == {}
      ensures !clear ==> Pending(ActiveCheck(looked), [], JobRunning, false) && !Reading(B())
      ensures Current(runner.states, pb.buildId) == Current(old(runner.states), pb.buildId)
      ensures faultless && !clear ==> Unfinished(old(jobs)) != {}
    {
      hide Inv, IsRun, Proper, Consistent, Ec2After;
      NoReader(world, n);
      Others();
      looked := Succeeds(); // could the builder and its jobs be read in time?
      clear := looked && Unfinished(jobs) == {};
      QuietStep(env, world, B(), ActiveCheck(looked));
      if clear {
        Record(ActiveCheck(true), []);
      }
    }

    // JobCreation is newly stored only after a look at the jobs found none unfinished, and
    // after a verdict to build.
    method FlightCheck()
      requires Valid() && Handler(B()) == Some(FlightChecks)
      modifies this, runner
      ensures Valid() && B().phase == Idle && Onward() && old(evs) < evs && Outlived(old(jobs), jobs)
      ensures stored.state == JobCreation ==>
        stored == old(stored) || (Unfinished(jobs) == {} && exists i :: |old(evs)| <= i < |evs| && Allowed(i))
      ensures faultless ==>
        || (Reached(old(pb).(state := JobRunning)) && Unfinished(old(jobs)) != {})
        || (Reached(stored) && stored.state == JobCreation)
        || (exists i :: |old(evs)| <= i < |evs| && (Refused(i) || AdoptedAt(i)))
    {
      hide Inv, IsRun, Proper, Consistent, Ec2After, Step, Enabled, Honest, Allowed, Refused, AdoptedAt;
      HandlerState(world, n);
      var looked, clear := ActiveBuildCheck();
      hide Reached;
      if !clear {
        GoOnRunning(looked);
        return;
      }
      // Others can finish jobs but start none.
      ghost var seen := jobs;
      PerformFlightChecks();
      StayFinished(seen, jobs);
    }

    method GoOnRunning(looked: bool)
      requires Pending(ActiveCheck(looked), [], JobRunning, false) && !Reading(B())
      modifies this, runner
      ensures Valid() && B().phase == Idle && Onward() && old(evs) < evs && Outlived(old(jobs), jobs)
      ensures stored == old(stored) || stored.state == JobRunning || stored.state == Error
      ensures faultless && Current(old(runner.states), old(pb).buildId) == FlightChecks ==> Reached(old(pb).(state := JobRunning))
    {
      hide Inv, IsRun, Proper, Consistent, Ec2After, Step, Enabled, Honest, Reading, Outlived;
      Move(JobRunning, ActiveCheck(looked), []);
    }

    method PerformFlightChecks()
      requires Valid() && B().phase == Checked
      modifies this, runner
      ensures Valid() && B().phase == Idle && Onward() && old(evs) < evs && Outlived(old(jobs), jobs)
      ensures stored.state == JobCreation ==> stored == old(stored) || exists i :: |old(evs)| <= i < |evs| && Allowed(i)
      ensures faultless ==>
        || (Reached(stored) && stored.state == JobCreation)
        || (exists i :: |old(evs)| <= i < |evs| && (Refused(i) || AdoptedAt(i)))
    {
      hide Inv, IsRun, Proper, IsListing, AMIChecks, Step, Enabled, Honest, Allowed, Refused;
      var baseResult := BaseAMIExists();
      var latestResult, seen, over := LatestAMIDoesNotExistOrExpired();
      if !over {
        Conclude(baseResult, latestResult, seen);
      }
    }

    method BaseAMIExists() returns (result: CheckResult)
      ensures result.success && spec.filtered ==> result.isBase
      ensures !result.success ==> spec.filtered
      ensures !spec.filtered ==> !result.isBase
    {
      if !spec.filtered {
        return CheckResult(true, false, "");
      }
      var found: bool := *;
      var name: ImageId := *;
      return CheckResult(found, true, name);
    }

    // A verdict that lets a job through rests on the images listed at that moment.
    method Conclude(baseResult: CheckResult, latestResult: CheckResult, seen: seq<Image>)
      requires Valid() && (B().phase == Cleared || (B().phase == Checked && !latestResult.success)) && !latestResult.isBase
      requires baseResult.success && spec.filtered ==> baseResult.isBase
      requires !baseResult.success ==> spec.filtered
      requires faultless && !latestResult.success ==> CannotAdopt(seen) || Forbidden(seen)
      requires latestResult.success ==>
        && IsListing(seen, ec2, IdentityFilter(spec))
        && AMIChecks(env.parse, seen, world.now, spec.validFor, PackerBuilderCheck).0
      modifies this, runner
      ensures Valid() && B().phase == Idle && Onward() && old(evs) < evs && Outlived(old(jobs), jobs)
      ensures evs[|old(evs)|].Of? && evs[|old(evs)|].n == n && evs[|old(evs)|].e.Verdict?
      ensures evs[|old(evs)|].e.pass <==> baseResult.success && latestResult.success
      ensures if evs[|old(evs)|].e.pass then Allowed(|old(evs)|) else stored == old(stored)
      ensures evs[|old(evs)|].e.pass && faultless ==> Reached(stored) && stored.state == JobCreation
      ensures !evs[|old(evs)|].e.pass && faultless ==> Refused(|old(evs)|)
    {
      hide Inv, IsRun, Proper, Honest, NewestIsActive, IsListing, AMIChecks, Step, Enabled;
      NoReader(world, n);
      CheckingState(world, n);
      var passed, base := Judge(baseResult, latestResult);
      VerdictIsHonest(env, faultless, world, n, passed, base, seen);
      VerdictStep(ConfigOf(world, n), passed, base);
      hide Founded;
      if passed {
        Approve(base, seen);
      } else {
        Refuse(base, seen);
      }
    }

    // The verdict, and the base image to build on.
    method Judge(baseResult: CheckResult, latestResult: CheckResult) returns (passed: bool, base: Option<ImageId>)
      requires !latestResult.isBase
      modifies this`pb
      ensures passed <==> baseResult.success && latestResult.success
      ensures base == if baseResult.success && baseResult.isBase then Some(baseResult.name) else None
      ensures pb == if base.Some? then old(pb).(base := base.value) else old(pb)
    {
      var results := [baseResult, latestResult];
      LastBaseOfTwo(baseResult, latestResult, pb.base);
      passed := ProcessFlightCheckResults(results);
      assert passed <==> results[0].success && results[1].success;
      base := if baseResult.success && baseResult.isBase then Some(baseResult.name) else None;
    }

    // Since `before` an adoption was tried.
    ghost predicate Adopted(before: seq<WorldEvent>)
      reads this
    {
      before < evs && exists i :: |before| <= i < |evs| && AdoptedAt(i)
    }

    // The age check does not let a build through, on the images listed at this moment.
    ghost predicate Forbidden(seen: seq<Image>)
      reads this
    {
      IsListing(seen, ec2, IdentityFilter(spec)) && !AMIChecks(env.parse, seen, world.now, spec.validFor, PackerBuilderCheck).0
    }

    method Refuse(base: Option<ImageId>, seen: seq<Image>)
      requires Ready(Verdict(false, base), seen) && (faultless ==> Founded(env, world, B(), base, seen))
      modifies this, runner
      ensures Valid() && B().phase == Idle && Onward() && old(evs) < evs && stored == old(stored) && jobs == old(jobs)
      ensures evs == old(evs) + [Of(n, Verdict(false, base), seen)] && (faultless ==> Refused(|old(evs)|))
    {
      hide Inv, IsRun, Proper, Honest, Founded, Consistent;
      Record(Verdict(false, base), seen);
    }

    method Approve(base: Option<ImageId>, seen: seq<Image>)
      requires Pending(Verdict(true, base), seen, JobCreation, false) && !Reading(B())
      requires Current(runner.states, pb.buildId) == FlightChecks
      modifies this, runner
      ensures Valid() && B().phase == Idle && Onward() && old(evs) < evs && Outlived(old(jobs), jobs)
      ensures evs[|old(evs)|] == Of(n, Verdict(true, base), seen) && Allowed(|old(evs)|)
      ensures faultless ==> Reached(stored) && stored.state == JobCreation
    {
      hide Inv, IsRun, Proper, Step, Enabled, Honest, IsListing, AMIChecks;
      Move(JobCreation, Verdict(true, base), seen);
    }

    // `over`: the reconcile has ended with an adoption.
    method LatestAMIDoesNotExistOrExpired() returns (result: CheckResult, seen: seq<Image>, over: bool)
      requires Valid() && B().phase == Checked
      modifies this, runner
      ensures Valid() && Onward() && Outlived(old(jobs), jobs) && !result.isBase
      ensures over ==> B().phase == Idle && Adopted(old(evs)) && (stored == old(stored) || stored.state == FlightChecks)
      ensures !over ==> B().phase == Cleared || (B().phase == Checked && !result.success)
      ensures !over ==> pb == old(pb) && stored == old(stored)
      ensures !over && result.success ==>
        && IsListing(seen, ec2, IdentityFilter(spec))
        && AMIChecks(env.parse, seen, world.now, spec.validFor, PackerBuilderCheck).0
      ensures faultless && !over && !result.success ==> CannotAdopt(seen) || Forbidden(seen)
    {
      hide Inv, IsRun, Proper, IsListing, AMIChecks, Step, Enabled, Honest;
      result, seen := CheckResult(false, false, ""), [];
      var ok;
      ok, over, seen := AdoptionProcessor();
      if over || !ok {
        return;
      }
      NoReader(world, n);
      Others();
      var listed := ListOwn();
      var inTime := Succeeds();
      seen := listed.GetOr([]);
      if listed.Some? && inTime && AMIChecks(env.parse, listed.value, world.now, spec.validFor, PackerBuilderCheck).0 {
        result := CheckResult(true, false, "");
      }
    }

    // The images listed at this moment keep the builder from going on without an adoption, and
    // from adopting.
    ghost predicate CannotAdopt(seen: seq<Image>)
      reads this
    {
      IsListing(seen, ec2, IdentityFilter(spec)) && pb.built == "" && seen != [] && !NewestIsActive(env.parse, seen)
    }

    // The timeout around it may turn a result into a failure.
    method AdoptionProcessor() returns (ok: bool, over: bool, seen: seq<Image>)
      requires Valid() && B().phase == Checked
      modifies this, runner
      ensures Valid() && Onward() && Outlived(old(jobs), jobs)
      ensures over ==> B().phase == Idle && Adopted(old(evs)) && (stored == old(stored) || stored.state == FlightChecks)
      ensures !over ==> B().phase == Cleared || (B().phase == Checked && !ok)
      ensures !over ==> pb == old(pb) && stored == old(stored)
      ensures faultless && !over && !ok ==> CannotAdopt(seen)
    {
      ok, over, seen := TryAdoption();
      var inTime := Succeeds();
      ok := ok && inTime;
    }

    // Goes on only if an image is recorded already or none is listed.
    method TryAdoption() returns (ok: bool, over: bool, seen: seq<Image>)
      requires Valid() && B().phase == Checked
      modifies this, runner
      ensures Valid() && Onward() && Outlived(old(jobs), jobs)
      ensures over ==> B().phase == Idle && Adopted(old(evs)) && (stored == old(stored) || stored.state == FlightChecks)
      ensures !over ==> B().phase == Cleared || (B().phase == Checked && !ok)
      ensures !over ==> pb == old(pb) && stored == old(stored)
      ensures !over && ok ==> evs != [] && evs[|evs| - 1] == Of(n, NoAdoption, [])
      ensures !over && ok ==> pb.built != "" || IsListing([], ec2, IdentityFilter(spec))
      ensures faultless && !over && !ok ==> CannotAdopt(seen)
    {
      hide Inv, IsRun, Proper, IsListing, LatestOf, Step, Enabled, Honest;
      NoReader(world, n);
      if pb.built != "" {
        NothingToAdopt();
        return true, false, [];
      }
      ok, over, seen := AdoptListed();
    }

    // Adopts the newest of the images now listed, if it can.
    method AdoptListed() returns (ok: bool, over: bool, seen: seq<Image>)
      requires Valid() && B().phase == Checked && !B().reading && pb.built == ""
      modifies this, runner
      ensures Valid() && Onward() && Outlived(old(jobs), jobs)
      ensures over ==> B().phase == Idle && Adopted(old(evs)) && (stored == old(stored) || stored.state == FlightChecks)
      ensures !over ==> B().phase == Cleared || (B().phase == Checked && !ok)
      ensures !over ==> pb == old(pb) && stored == old(stored)
      ensures !over && ok ==> evs != [] && evs[|evs| - 1] == Of(n, NoAdoption, []) && IsListing([], ec2, IdentityFilter(spec))
      ensures faultless && !over && !ok ==> CannotAdopt(seen)
    {
      hide Inv, IsRun, Proper, IsListing, LatestOf, Step, Enabled, Honest, NewestIsActive, IdentityFilter;
      CheckingState(world, n);
      Others();
      var listed := ListOwn();
      ok, over, seen := false, false, listed.GetOr([]);
      if listed.Some? {
        ghost var before := evs;
        ok, over := AdoptFrom(seen);
        assert over ==> AdoptedAt(|before|);
      }
    }

    method ListOwn() returns (listed: Option<seq<Image>>)
      ensures listed.Some? ==> IsListing(listed.value, ec2, IdentityFilter(spec))
      ensures faultless ==> listed.Some?
    {
      hide IsListing;
      var filter := BuildTagsAndFilters(spec, pb, IdentityOnly, "");
      IdentityIgnoresStatus(spec, pb, NoStatus);
      listed := DescribeImages(filter);
    }

    method AdoptFrom(seen: seq<Image>) returns (ok: bool, over: bool)
      requires Valid() && B().phase == Checked && !B().reading && pb.built == "" && pb.state == FlightChecks
      requires IsListing(seen, ec2, IdentityFilter(spec))
      modifies this, runner
      ensures Valid() && Onward() && Outlived(old(jobs), jobs)
      ensures over ==> B().phase == Idle && old(evs) < evs && AdoptedAt(|old(evs)|)
      ensures over ==> stored == old(stored) || stored.state == FlightChecks
      ensures !over && ok ==> B().phase == Cleared && seen == [] && evs != [] && evs[|evs| - 1] == Of(n, NoAdoption, [])
      ensures !over && !ok ==> B().phase == Checked && CannotAdopt(seen)
      ensures !over ==> pb == old(pb) && stored == old(stored) && ec2 == old(ec2)
    {
      hide Inv, IsRun, Proper, IsListing, LatestOf, Step, Enabled, Honest, NewestIsActive, IdentityFilter;
      if seen == [] {
        NothingToAdopt();
        return true, false;
      }
      var latest := LatestActive(seen);
      if latest.None? {
        return false, false;
      }
      AdoptExistingImage(latest.value, seen);
      return false, true;
    }

    method NothingToAdopt()
      requires Valid() && B().phase == Checked && !B().reading
      requires pb.built != "" || IsListing([], ec2, IdentityFilter(spec))
      modifies this`world, this`ws, this`evs, this`begun
      ensures Valid() && Onward() && old(evs) < evs && evs[|evs| - 1] == Of(n, NoAdoption, [])
      ensures B().phase == Cleared
    {
      hide Inv, IsRun, Proper, IsListing, LatestOf;
      Record(NoAdoption, []);
    }

    // The newest image, if all images are readable and it is active.
    method LatestActive(seen: seq<Image>) returns (latest: Option<nat>)
      ensures latest.None? ==> !NewestIsActive(env.parse, seen)
      ensures latest.Some? ==>
        && LatestOf(env.parse, seen).index == latest && latest.value < |seen|
        && Tag(StatusKey, ACTIVE) in seen[latest.value].tags
    {
      hide LatestOf;
      LatestMeaning(env.parse, seen);
      var index, _, err := FindLatestImage(env.parse, seen);
      if err.Some? {
        return None;
      }
      var active := IsImageActive(seen[index.value]);
      return if active then index else None;
    }

    // The newest of the builder's images, which is active, becomes its built image.
    method AdoptExistingImage(latest: nat, seen: seq<Image>)
      requires Valid() && B().phase == Checked && pb.built == "" && !B().reading
      requires IsListing(seen, ec2, IdentityFilter(spec)) && LatestOf(env.parse, seen).index == Some(latest)
      requires latest < |seen| && Tag(StatusKey, ACTIVE) in seen[latest].tags
      modifies this, runner
      ensures Valid() && B().phase == Idle && Onward() && old(evs) < evs && Outlived(old(jobs), jobs)
      ensures evs[|old(evs)|].Of? && evs[|old(evs)|].n == n && evs[|old(evs)|].e.Adopt? && evs[|old(evs)|].e.img == seen[latest].id
      ensures stored == old(stored)
           || (stored.built == seen[latest].id && stored.buildId != old(pb).buildId && stored.state == old(pb).state
               && stored.base == FirstTag(seen[latest].tags, BaseAMI).GetOr(""))
    {
      hide Inv, IsRun, Proper, IsListing, LatestOf, Step, Enabled, Honest;
      var ok := RecordAdoption(latest, seen);
      if ok {
        HandleAMIUpdates();
      }
    }

    method RecordAdoption(latest: nat, seen: seq<Image>) returns (ok: bool)
      requires Valid() && B().phase == Checked && pb.built == "" && !B().reading
      requires IsListing(seen, ec2, IdentityFilter(spec)) && LatestOf(env.parse, seen).index == Some(latest)
      requires latest < |seen| && Tag(StatusKey, ACTIVE) in seen[latest].tags
      modifies this
      ensures Valid() && Onward() && old(evs) < evs && jobs == old(jobs)
      ensures evs[|old(evs)|].Of? && evs[|old(evs)|].n == n && evs[|old(evs)|].e.Adopt? && evs[|old(evs)|].e.img == seen[latest].id
      ensures stored == old(stored)
           || (stored.built == seen[latest].id && stored.buildId != old(pb).buildId && stored.state == old(pb).state
               && stored.base == FirstTag(seen[latest].tags, BaseAMI).GetOr(""))
      ensures if ok then B().phase == Adopting && B().upd == Tagging(pb.built) && !B().reading else B().phase == Idle
    {
      hide Inv, IsRun, Proper, Honest, IsListing, LatestOf, IdentityFilter, FirstTag;
      var base, newId, call := TakeOver(seen[latest]);
      AdoptIsHonest(env, faultless, world, n, Adopt(seen[latest].id, base, newId, call), seen);
      Record(Adopt(seen[latest].id, base, newId, call), seen);
      ok := call == Landed;
    }

    // The status with the adopted image and a new BuildID is written.
    method TakeOver(image: Image) returns (base: ImageId, newId: Id, call: Call)
      requires Valid()
      modifies this`pb, this`stored
      ensures base == FirstTag(image.tags, BaseAMI).GetOr("") && newId != "" && newId !in world.owner && newId !in world.states
      ensures pb == old(pb).(built := image.id, base := base, buildId := newId) && newId != old(pb).buildId
      ensures faultless ==> call == Landed
      ensures stored == if call.Lost? then old(stored) else pb
    {
      hide Inv, IsRun, Proper, FirstTag;
      pb := pb.(built := image.id);
      base := GetBaseAMIID(image);
      pb := pb.(base := base);
      newId := NewId();
      NewIdDiffers(world, n, newId);
      pb := pb.(buildId := newId);
      call := WriteStatus();
    }

    method GetBaseAMIID(image: Image) returns (base: ImageId)
      ensures base == FirstTag(image.tags, BaseAMI).GetOr("")
    {
      for i := 0 to |image.tags|
        invariant FirstTag(image.tags, BaseAMI) == FirstTag(image.tags[i..], BaseAMI)
      {
        if image.tags[i].key == BaseAMI {
          return image.tags[i].value;
        }
      }
      return "";
    }

    // tagAMI and deprecateOldAMIs for an adopted image.
    method HandleAMIUpdates()
      requires Valid() && B().phase == Adopting && B().upd == Tagging(pb.built) && !B().reading
      modifies this, runner
      ensures Valid() && B().phase == Idle && Onward() && old(evs) < evs && Outlived(old(jobs), jobs)
      ensures stored == old(stored)
    {
      hide Inv, IsRun, Proper, IsListing, Step, Enabled, Honest;
      var image := pb.built;
      var ok := TagAMI(image);
      if ok {
        DeprecateOldAMIs(image);
      }
    }

    method TagAMI(amiId: ImageId) returns (ok: bool)
      requires Valid() && B().phase == Adopting && B().upd == Tagging(amiId) && !B().reading
      modifies this, runner
      ensures Valid() && Onward() && old(evs) < evs && Outlived(old(jobs), jobs) && stored == old(stored)
      ensures if ok then B().phase == Adopting && B().upd == Listing(amiId) && !B().reading else B().phase == Idle
    {
      hide Inv, IsRun, Proper, Honest, IsListing, TagsFor, Retag;
      Others();
      var tagged := PutTags(amiId);
      hide Ec2After, Consistent;
      Record(TagCall(tagged), []);
      ok := tagged == Landed;
    }

    method PutTags(amiId: ImageId) returns (tagged: Call)
      requires Valid() && B().phase == Adopting && B().upd == Tagging(amiId)
      modifies this`ec2
      ensures Ready(TagCall(tagged), [])
    {
      hide Inv, IsRun, Proper, Honest, IsListing, TagsFor, Retag, Step, Enabled, Consistent, Ec2After;
      var tags := BuildTagsAndFilters(spec, pb, Everything, env.format(world.now));
      tagged := CreateTags(amiId, tags);
      TagIsHonest(env, faultless, world, n, tagged, []);
      TagTakesEffect(env, world, B(), tagged);
    }

    method DeprecateOldAMIs(excludeAMI: ImageId)
      requires Valid() && B().phase == Adopting && B().upd == Listing(excludeAMI) && !B().reading
      modifies this, runner
      ensures Valid() && B().phase == Idle && Onward() && old(evs) < evs && Outlived(old(jobs), jobs)
      ensures stored == old(stored)
    {
      hide Inv, IsRun, Proper, IsListing, TagsFor, Step, Enabled, Honest;
      var ids := ListOldAMIs(excludeAMI);
      if ids.Some? {
        DeprecateListed(excludeAMI, ids.value);
      }
    }

    method ListOldAMIs(excludeAMI: ImageId) returns (ids: Option<seq<ImageId>>)
      requires Valid() && B().phase == Adopting && B().upd == Listing(excludeAMI) && !B().reading
      modifies this, runner
      ensures Valid() && Onward() && old(evs) < evs && Outlived(old(jobs), jobs) && stored == old(stored)
      ensures match ids
              case None => B().phase == Idle
              case Some(listed) => B().phase == Adopting && B().upd == Retiring(excludeAMI, listed) && !B().reading
    {
      hide Inv, IsRun, Proper, IsListing, TagsFor;
      hide Honest;
      Others();
      var filter := BuildTagsAndFilters(spec, pb, WithBase, "");
      var listed := DescribeImages(filter);
      ids := if listed.Some? then Some(Ids(listed.value)) else None;
      ListIsHonest(env, faultless, world, n, ids, listed.GetOr([]));
      Record(ListCall(ids), listed.GetOr([]));
    }

    method DeprecateListed(excludeAMI: ImageId, ids: seq<ImageId>)
      requires Valid() && B().phase == Adopting && B().upd == Retiring(excludeAMI, ids) && !B().reading
      modifies this, runner
      ensures Valid() && B().phase == Idle && Onward() && old(evs) < evs && Outlived(old(jobs), jobs)
      ensures stored == old(stored)
    {
      hide Inv, IsRun, Proper, IsListing, Consistent, Ec2After;
      for i := 0 to |ids|
        invariant Valid() && Onward() && Outlived(old(jobs), jobs) && stored == old(stored)
        invariant B().phase == Adopting && B().upd == Retiring(excludeAMI, ids[i..]) && !B().reading
      {
        assert ids[i..][0] == ids[i] && ids[i..][1..] == ids[i + 1..];
        var ok := DeprecateNext(excludeAMI, ids[i..]);
        if !ok {
          return;
        }
      }
      QuietStep(env, world, B(), UpdateDone);
      Record(UpdateDone, []);
    }

    method DeprecateNext(excludeAMI: ImageId, rest: seq<ImageId>) returns (ok: bool)
      requires Valid() && B().phase == Adopting && B().upd == Retiring(excludeAMI, rest) && !B().reading && rest != []
      modifies this, runner
      ensures Valid() && Onward() && old(evs) < evs && Outlived(old(jobs), jobs) && stored == old(stored)
      ensures if ok then B().phase == Adopting && B().upd == Retiring(excludeAMI, rest[1..]) && !B().reading else B().phase == Idle
    {
      hide Inv, IsRun, Proper, Honest, IsListing, Retag;
      Others();
      var call := DeprecateUnless(excludeAMI, rest);
      hide Ec2After, Consistent;
      Record(RetireCall(call), []);
      ok := call == Landed;
    }

    method DeprecateUnless(excludeAMI: ImageId, rest: seq<ImageId>) returns (call: Call)
      requires Valid() && B().phase == Adopting && B().upd == Retiring(excludeAMI, rest) && rest != []
      modifies this`ec2
      ensures Ready(RetireCall(call), []) && (rest[0] == excludeAMI ==> call == Landed)
    {
      hide Inv, IsRun, Proper, Honest, IsListing, Retag;
      call := Landed;
      if rest[0] != excludeAMI {
        call := DeprecateAMI(rest[0]);
      }
      RetireIsHonest(env, faultless, world, n, call, []);
    }

    // Dropping the launch permission comes first and may fail on its own.
    method DeprecateAMI(amiId: ImageId) returns (call: Call)
      modifies this`ec2
      ensures call != Lost ==> amiId in old(ec2) && ec2 == Retag(old(ec2), amiId, map[StatusKey := DEPRECATED])
      ensures call == Lost ==> ec2 == old(ec2)
      ensures faultless && amiId in old(ec2) ==> call == Landed
    {
      var modified := Succeeds();
      if !modified {
        return Lost;
      }
      call := CreateTags(amiId, map[StatusKey := DEPRECATED]);
    }

    // At most one job is added: an unfinished one named after the status's base image.
    method CreateBuild()
      requires Valid() && Handler(B()) == Some(JobCreation)
      modifies this, runner
      ensures Valid() && B().phase == Idle && Onward() && old(evs) < evs
      ensures Outlived(old(jobs), jobs) || exists id :: Added(old(jobs), id, Job(false, old(pb).base), jobs)
      ensures faultless ==> exists id :: Reached(old(pb).(jobId := id, state := JobRunning))
                                        && (id in old(jobs) || Added(old(jobs), id, Job(false, old(pb).base), jobs))
    {
      hide Inv, IsRun, Proper, Consistent, Ec2After, Step, Enabled, Honest, Outlived, Edge;
      HandlerState(world, n);
      var jobId, outcome := SetupJob();
      ghost var before := jobs;
      LeaveCreation(jobId, outcome);
      CreatedAndOutlived(old(jobs), old(pb).base, jobId, before, jobs);
      assert faultless ==> Reached(old(pb).(jobId := jobId, state := JobRunning));
    }

    method LeaveCreation(jobId: JobId, outcome: CreateOutcome)
      requires var well := outcome.Skipped? || outcome.Made?;
        Pending(Create(jobId, outcome), [], if well then JobRunning else Error, !well) && !Reading(B())
      modifies this, runner
      ensures Valid() && B().phase == Idle && Onward() && old(evs) < evs && Outlived(old(jobs), jobs)
      ensures (outcome.Skipped? || outcome.Made?) && faultless && Current(old(runner.states), old(pb).buildId) == JobCreation ==>
        Reached(old(pb).(state := JobRunning))
    {
      hide Inv, IsRun, Proper, Consistent, Ec2After, Step, Enabled, Honest, Reading, Outlived;
      if outcome.SetupFailed? || outcome.NotMade? || outcome.MadeUnseen? {
        TransitionToErrorState(Create(jobId, outcome));
      } else {
        Move(JobRunning, Create(jobId, outcome), []);
      }
    }

    // The status with the new job's name is written, then the job is created unless the
    // lookup before finds anything but nothing.
    method SetupJob() returns (jobId: JobId, outcome: CreateOutcome)
      requires Valid() && Handler(B()) == Some(JobCreation)
      modifies this, runner
      ensures Onward()
      ensures var well := outcome.Skipped? || outcome.Made?;
        Pending(Create(jobId, outcome), [], if well then JobRunning else Error, !well) && !Reading(B())
      ensures Outlived(old(jobs), jobs) || MadeOver(old(jobs), jobId, Job(false, old(pb).base), jobs)
      ensures pb == old(pb).(jobId := jobId) && Current(runner.states, pb.buildId) == Current(old(runner.states), pb.buildId)
      ensures faultless ==> jobId in jobs && (outcome.Skipped? || outcome.Made?)
    {
      hide Inv, IsRun, Proper, Consistent, Ec2After, Outlived;
      var call;
      jobId, call := NameJob();
      var built := Succeeds();
      outcome := SetupFailed(call != Lost);
      if call == Landed && built {
        outcome := CreateJob(jobId);
      }
      QuietStep(env, world, B(), Create(jobId, outcome));
    }

    method NameJob() returns (jobId: JobId, call: Call)
      requires Valid() && Handler(B()) == Some(JobCreation)
      modifies this, runner
      ensures Onward() && Outlived(old(jobs), jobs) && pb.base == old(pb).base
      ensures History() && n in world.builders && world.states == runner.states && world.ec2 == ec2
      ensures Handler(B()) == Some(JobCreation) && !B().reading && B().spec == spec && B().jobs == jobs
      ensures pb == B().pb.(jobId := jobId) && stored == if call.Lost? then B().stored else pb
      ensures faultless ==> call == Landed
      ensures pb == old(pb).(jobId := jobId) && Current(runner.states, pb.buildId) == Current(old(runner.states), pb.buildId)
    {
      hide Inv, IsRun, Proper;
      NoReader(world, n);
      Others();
      jobId := *;
      pb := pb.(jobId := jobId);
      call := WriteStatus();
    }

    // The job is created only if the lookup says that there is none.
    method CreateJob(jobId: JobId) returns (outcome: CreateOutcome)
      modifies this`jobs
      ensures !outcome.SetupFailed?
      ensures faultless ==> outcome == if jobId in old(jobs) then Skipped else Made
      ensures outcome.Made? || outcome.MadeUnseen? ==> jobId !in old(jobs) && jobs == old(jobs)[jobId := Job(false, pb.base)]
      ensures outcome.Skipped? || outcome.NotMade? ==> jobs == old(jobs)
    {
      var found := Succeeds();
      var notFound := found && jobId !in jobs; // a failed lookup is no NotFound
      var made := Answer();
      if !notFound {
        return Skipped;
      }
      if made == Lost {
        return NotMade;
      }
      jobs := jobs[jobId := Job(false, pb.base)];
      return if made == LandedUnseen then MadeUnseen else Made;
    }

    // The build watch, with the log reader among the others. A success is seen only of the
    // job that the status names.
    method RunningBuild()
      requires Valid() && Handler(B()) == Some(JobRunning)
      modifies this, runner
      ensures Valid() && B().phase == Idle && Onward() && old(evs) < evs && Outlived(old(jobs), jobs)
      ensures faultless && Decided(old(B()), old(pb).jobId) ==>
        && (stored.state == JobCompleted || stored.state == Error) && Reached(stored)
        && (old(pb).jobId in old(B()).succeeded ==> stored.state == JobCompleted)
    {
      hide Inv, IsRun, Proper, Consistent, Ec2After, Step, Enabled, Honest, Alike, Reading, Outlived, Decided;
      HandlerState(world, n);
      var outcome := WatchBuild();
      AlikeAgree(old(Reading(B())), old(pb), pb);
      ghost var left := jobs;
      FollowResult(outcome);
      OutlivedTwice(old(jobs), left, jobs);
    }

    method FollowResult(outcome: WatchOutcome)
      requires outcome == Succeeded ==> Pending(Watch(outcome), [], JobCompleted, false)
      requires outcome == Gone ==> Ready(Watch(outcome), []) && Step(ConfigOf(world, n), Watch(outcome)).b.phase == Idle
      requires outcome != Succeeded && outcome != Gone ==> Pending(Watch(outcome), [], Error, true)
      modifies this, runner
      ensures Valid() && B().phase == Idle && Onward() && old(evs) < evs && Outlived(old(jobs), jobs)
      ensures faultless && Current(old(runner.states), old(pb).buildId) == JobRunning && outcome != Gone ==>
        Reached(stored) && stored.state == if outcome == Succeeded then JobCompleted else Error
    {
      hide Inv, IsRun, Proper, Consistent, Ec2After, Step, Enabled, Honest, Alike, Reading;
      match outcome
      case Gone => Record(Watch(outcome), []);
      case Succeeded =>
        Move(JobCompleted, Watch(outcome), []);
        AlikeAgree(old(Reading(B())), stored, old(pb).(state := JobCompleted));
      case _ =>
        TransitionToErrorState(Watch(outcome));
        AlikeAgree(old(Reading(B())), stored, old(pb).(state := Error));
    }

    method WatchBuild() returns (outcome: WatchOutcome)
      requires Valid() && Handler(B()) == Some(JobRunning)
      modifies this, runner
      ensures Kept()
      ensures match outcome
              case Succeeded => Pending(Watch(outcome), [], JobCompleted, false) && pb.jobId in B().succeeded
              case Unsuccessful => Pending(Watch(outcome), [], Error, true) && (pb.jobId in B().failed || pb.jobId !in jobs)
              case Trouble => Pending(Watch(outcome), [], Error, true)
              case Gone => Ready(Watch(outcome), []) && Step(ConfigOf(world, n), Watch(outcome)).b.phase == Idle
      ensures Current(runner.states, pb.buildId) == Current(old(runner.states), pb.buildId)
      ensures faultless && Decided(old(B()), old(pb).jobId) ==> outcome == Succeeded || outcome == Unsuccessful
      ensures faultless && old(pb).jobId in old(B()).succeeded ==> outcome == Succeeded
    {
      hide Inv, IsRun, Proper, Consistent, Ec2After;
      Others();
      outcome := AwaitResult();
      QuietStep(env, world, B(), Watch(outcome));
    }

    // What the select loop leaves with. A builder that is gone, or a cancelled context, ends
    // the wait for a job that is not decided yet.
    method AwaitResult() returns (outcome: WatchOutcome)
      requires n in world.builders
      ensures WatchSees(B(), outcome)
      ensures faultless ==> !Faulty(env, world, B(), Watch(outcome), [])
      ensures faultless && B().pb.jobId in B().succeeded ==> outcome == Succeeded
    {
      outcome := *;
      var b := world.builders[n];
      if faultless {
        if b.pb.jobId in b.succeeded {
          outcome := Succeeded;
        } else if Decided(b, b.pb.jobId) {
          outcome := Unsuccessful;
        } else {
          outcome := Gone;
        }
      } else if !WatchSees(b, outcome) {
        outcome := Trouble;
      }
    }

    // The build's leftovers go first: a way back to Initial has forgotten both, a failed
    // deletion goes to Error with what is left.
    method CleanupBuild()
      requires Valid() && Handler(B()) == Some(AMICreated)
      modifies this, runner
      ensures Valid() && B().phase == Idle && Onward() && old(evs) < evs
      ensures || stored == old(stored)
              || stored == old(pb).(state := Initial, keyPair := "", group := "")
              || stored == old(pb).(state := Error, keyPair := "", group := "")
              || (stored == old(pb).(state := Error, keyPair := "") && old(pb).group != "")
              || (stored == old(pb).(state := Error) && old(pb).keyPair != "")
      ensures faultless ==> Reached(old(pb).(state := Initial, keyPair := "", group := ""))
    {
      hide Inv, IsRun, Proper, Consistent, Ec2After, Step, Enabled, Honest;
      HandlerState(world, n);
      var keyPairGone, groupGone, done := DeleteLeftovers();
      if done {
        Move(Initial, Cleanup(keyPairGone, groupGone), []);
      } else {
        TransitionToErrorState(Cleanup(keyPairGone, groupGone));
      }
    }

    method DeleteLeftovers() returns (keyPairGone: bool, groupGone: bool, done: bool)
      requires Valid() && Handler(B()) == Some(AMICreated)
      modifies this, runner
      ensures Onward() && stored == old(stored)
      ensures Pending(Cleanup(keyPairGone, groupGone), [], if done then Initial else Error, !done) && !Reading(B())
      ensures || pb == old(pb).(keyPair := "", group := "")
              || (!done && pb == old(pb).(keyPair := "") && pb.group != "")
              || (!done && pb == old(pb) && pb.keyPair != "")
      ensures faultless ==> done
      ensures Current(runner.states, pb.buildId) == Current(old(runner.states), pb.buildId)
    {
      hide Inv, IsRun, Proper, Consistent, Ec2After, Outlived;
      NoReader(world, n);
      Others();
      keyPairGone, groupGone, done := DeleteArtefacts();
      QuietStep(env, world, B(), Cleanup(keyPairGone, groupGone));
    }

    // The key pair, then the security group; the first failure stops.
    method DeleteArtefacts() returns (keyPairGone: bool, groupGone: bool, done: bool)
      modifies this`pb
      ensures done <==> (old(pb).keyPair == "" || keyPairGone) && (old(pb).group == "" || groupGone)
      ensures faultless ==> keyPairGone && groupGone
      ensures pb == if old(pb).keyPair != "" && !keyPairGone then old(pb)
                    else if old(pb).group != "" && !groupGone then old(pb).(keyPair := "")
                    else old(pb).(keyPair := "", group := "")
    {
      done := false;
      keyPairGone := Succeeds();
      groupGone := Succeeds();
      if pb.keyPair != "" && !keyPairGone {
        return;
      }
      pb := pb.(keyPair := "");
      if pb.group != "" && !groupGone {
        return;
      }
      pb := pb.(group := "");
      done := true;
    }

    method CompleteBuild()
      requires Valid() && Handler(B()) == Some(JobCompleted)
      modifies this, runner
      ensures Valid() && B().phase == Idle && Onward() && old(evs) < evs
      ensures stored == old(stored) || stored == old(pb).(state := AMICreated) || stored == old(pb).(state := Error)
      ensures faultless ==> Reached(old(pb).(state := AMICreated))
    {
      hide Inv, IsRun, Proper, Consistent, Ec2After;
      NoReader(world, n);
      HandlerState(world, n);
      QuietStep(env, world, B(), Complete);
      Move(AMICreated, Complete, []);
    }

    method ErrorBuild()
      requires Valid() && Handler(B()) == Some(Error)
      modifies this, runner
      ensures Valid() && B().phase == Idle && Onward() && old(evs) < evs
      ensures stored == old(stored) || stored == old(pb).(state := Initial) || stored == old(pb).(state := Error)
      ensures faultless ==> Reached(old(pb).(state := Initial))
    {
      hide Inv, IsRun, Proper, Consistent, Ec2After;
      NoReader(world, n);
      HandlerState(world, n);
      QuietStep(env, world, B(), Recover);
      Move(Initial, Recover, []);
    }

    // ---------------------------------------------------------------- the reconcile

    // Brings the runner to the stored state, or falls back to Error.
    method CatchRek()
      requires Valid() && B().phase == Syncing
      modifies this, runner
      ensures Valid() && B().phase == Idle && Onward() && old(evs) < evs
    {
      hide Inv, IsRun, Proper, Consistent, Ec2After, Step, Enabled, Honest;
      var ok := SyncRunner();
      if ok {
        Dispatch();
      } else {
        TransitionToErrorState(Sync);
      }
    }

    method SyncRunner() returns (ok: bool)
      requires Valid() && B().phase == Syncing
      modifies this, runner
      ensures Onward()
      ensures ok ==> Valid() && old(evs) < evs && B().phase == Handling && pb.state == Current(runner.states, pb.buildId)
      ensures !ok ==> Pending(Sync, [], Error, true)
    {
      hide Inv, IsRun, Proper, Consistent, Ec2After, Edge;
      NoReader(world, n);
      Others();
      QuietStep(env, world, B(), Sync);
      ok := true;
      var current := runner.GetCurrentState(pb.buildId);
      if current != pb.state {
        ok := runner.SetState(pb.buildId, pb.state);
      }
      if ok {
        Record(Sync, []);
      }
    }

    method Dispatch()
      requires Valid() && B().phase == Handling && pb.state == Current(runner.states, pb.buildId)
      modifies this, runner
      ensures Valid() && B().phase == Idle && Onward() && old(evs) < evs
    {
      hide Inv, IsRun, Proper, Consistent, Ec2After, Step, Enabled, Honest;
      KnownState(world, n);
      var current := runner.GetCurrentState(pb.buildId);
      match current
      case Initial => InitState();
      case FlightChecks => FlightCheck();
      case JobCreation => CreateBuild();
      case JobRunning => RunningBuild();
      case JobCompleted => CompleteBuild();
      case AMICreated => CleanupBuild();
      case Error => ErrorBuild();
      case _ =>
        // Unreachable: neither the unset state nor JobFailed is ever stored.
        assert false;
    }

    // One reconcile, from between reconciles to between reconciles. If none of its own steps
    // is a fault or a wait, it moves the stored state on and ends with both copies equal;
    // and where no call fails, none of its steps is a fault.
    method Reconcile()
      requires Valid() && B().phase == Idle
      modifies this, runner
      ensures Valid() && B().phase == Idle && old(ws) <= ws && old(evs) < evs
      ensures |old(evs)| <= begun < |evs| && Own(evs[begun], n) && evs[begun].e.Begin?
      ensures !StuckPair(old(ConfigOf(world, n))) && (forall i :: begun < i < |evs| && Own(evs[i], n) ==> Calm(evs[i].e)) ==>
        stored.state != old(stored).state && Reached(stored)
      ensures !StuckPair(old(ConfigOf(world, n))) && faultless && (forall i :: begun < i < |evs| && Own(evs[i], n) ==> !Waits(evs[i].e)) ==>
        stored.state != old(stored).state && Reached(stored)
    {
      hide Inv, IsRun, Proper, Step, Enabled, Honest, Calm;
      var newId := Start();
      Boot();
      if faultless && forall i :: begun < i < |evs| && Own(evs[i], n) ==> !Waits(evs[i].e) {
        NoFaultNoWait(env, n, ws, evs, begun);
      }
      if !StuckPair(old(ConfigOf(world, n))) && forall i :: begun < i < |evs| && Own(evs[i], n) ==> Calm(evs[i].e) {
        CameThrough(env, faultless, n, ws, evs, begun);
      }
    }

    method Start() returns (newId: Id)
      requires Valid() && B().phase == Idle
      modifies this, runner
      ensures Valid() && old(ws) <= ws && |old(evs)| < |evs| && old(evs) < evs && evs[|evs| - 1] == Of(n, Begin(newId), [])
      ensures begun == |evs| - 1 && n in ws[begun].builders && ws[begun].builders[n].stored == old(stored)
      ensures Current(ws[begun].states, old(stored).buildId) == Current(old(runner.states), old(stored).buildId)
      ensures B().phase == (if pb.state == NoState then Booting else Syncing)
    {
      hide Inv, IsRun, Proper;
      newId := Fetch();
      Record(Begin(newId), []);
    }

    method Fetch() returns (newId: Id)
      requires Valid() && B().phase == Idle
      modifies this, runner
      ensures Onward() && History() && n in world.builders && B().phase == Idle
      ensures world.states == runner.states && world.ec2 == ec2 && B().spec == spec && B().jobs == jobs
      ensures B().stored == stored && pb == if stored.buildId == "" then stored.(buildId := newId) else stored
      ensures newId != "" && newId !in world.owner && newId !in world.states
      ensures stored == old(stored) && Current(runner.states, stored.buildId) == Current(old(runner.states), stored.buildId)
    {
      hide Inv, IsRun, Proper;
      Others();
      newId := NewId();
      pb := stored;
      if pb.buildId == "" {
        pb := pb.(buildId := newId);
      }
    }

    // A new builder's first writes.
    method Boot()
      requires Valid() && B().phase == (if pb.state == NoState then Booting else Syncing)
      modifies this, runner
      ensures Valid() && B().phase == Idle && Onward() && old(evs) < evs
      ensures old(pb).state == NoState ==> exists i :: |old(evs)| <= i < |evs| && Noted(i)
    {
      hide Inv, IsRun, Proper, Step, Enabled, Honest;
      if pb.state == NoState {
        NoteStart();
        ghost var noted := |evs| - 1;
        var ok := FirstState();
        if ok {
          CatchRek();
        }
        assert Noted(noted);
      } else {
        CatchRek();
      }
    }

    ghost predicate Noted(i: nat)
      reads this
    {
      i < |evs| && Own(evs[i], n) && evs[i].e.BootCondition?
    }

    method NoteStart()
      requires Valid() && B().phase == Booting
      modifies this, runner
      ensures Valid() && B().phase == Booting && Onward() && old(evs) < evs && Noted(|evs| - 1)
    {
      hide Inv, IsRun, Proper, Consistent, Ec2After;
      Others();
      var noted := WriteStatus();
      QuietStep(env, world, B(), BootCondition(noted != Lost));
      Record(BootCondition(noted != Lost), []);
    }

    method FirstState() returns (ok: bool)
      requires Valid() && B().phase == Booting
      modifies this, runner
      ensures Valid() && Onward() && old(evs) < evs && B().phase == if ok then Syncing else Idle
      ensures ok ==> stored == old(pb).(state := Initial)
      ensures faultless ==> ok
    {
      hide Inv, IsRun, Proper, Consistent, Ec2After;
      NoReader(world, n);
      Others();
      pb := pb.(state := Initial);
      var call := WriteStatus();
      QuietStep(env, world, B(), BootState(call));
      Record(BootState(call), []);
      ok := call == Landed;
    }

    // The process stops and starts again: the runner is empty and nothing is under way.
    method Restarted()
      requires Valid()
      modifies this, runner
      ensures Valid() && B().phase == Idle && runner.states == map[] && stored == old(stored)
      ensures ws == old(ws) + [world] && evs == old(evs) + [Restart]
    {
      hide Inv, IsRun, Proper;
      StepInv(env, world, Restart);
      RunMore(env, ws, evs, Restart);
      ProperMore(env, faultless, n, ws, evs, begun, Apply(env, world, Restart), Restart, |evs|);
      begun := |evs|;
      world := Apply(env, world, Restart);
      runner.states := world.states;
      ws, evs := ws + [world], evs + [Restart];
    }

    // The process is killed inside a reconcile and starts again. What it had done by then is
    // the beginning of a reconcile, cut at any event; the rest never happens.
    method ReconcileKilled()
      requires Valid() && B().phase == Idle
      modifies this, runner
      ensures Valid() && B().phase == Idle && runner.states == map[]
      ensures old(ws) <= ws && old(evs) < evs && evs[|evs| - 1] == Restart
    {
      hide Inv, IsRun, Proper;
      var last := |ws| - 1;
      Reconcile();
      var at: int := *;
      if at < last || at >= |ws| {
        at := last;
      }
      ForgetAfter(at, last);
      Restarted();
    }

    // Back to an earlier moment.
    method ForgetAfter(at: nat, last: nat)
      requires Valid() && last <= at < |ws| && n in ws[last].builders && ws[last].builders[n].spec == spec
      modifies this, runner
      ensures Valid() && ws == old(ws)[..at + 1] && evs == old(evs)[..at]
    {
      hide Inv, IsRun, Proper, Honest;
      ghost var w, start := EarlierMoment(env, faultless, n, ws, evs, begun, last, at);
      begun := start;
      world := ws[at];
      ws, evs := ws[..at + 1], evs[..at];
      runner.states, ec2 := world.states, world.ec2;
      pb, stored, jobs := world.builders[n].pb, world.builders[n].stored, world.builders[n].jobs;
    }

    // ---------------------------------------------------------------- calls to the outside

    // EC2's answer to a listing, in any order, or none.
    method DescribeImages(filter: Tags) returns (seen: Option<seq<Image>>)
      ensures seen.Some? ==> IsListing(seen.value, ec2, filter)
      ensures faultless ==> seen.Some?
    {
      hide PartlyListed;
      var answered := Succeeds();
      if !answered {
        return None;
      }
      var left := Members(ec2, filter);
      var found: seq<Image> := [];
      NothingListed(ec2, filter);
      while left != {}
        invariant PartlyListed(found, left, ec2, filter)
        decreases left
      {
        var id :| id in left;
        OneOfListed(found, left, ec2, filter, id);
        var tags := ListTags(ec2[id].tags);
        OneMoreListed(found, left, ec2, filter, Image(id, tags, ec2[id].creationDate));
        left := left - {id};
        found := found + [Image(id, tags, ec2[id].creationDate)];
      }
      AllListed(found, ec2, filter);
      return Some(found);
    }

    // CreateTags: an unknown image is refused; the call may be lost, or be reported as
    // failed although it landed.
    method CreateTags(id: ImageId, tags: Tags) returns (call: Call)
      modifies this`ec2
      ensures call != Lost ==> id in old(ec2) && ec2 == Retag(old(ec2), id, tags)
      ensures call == Lost ==> ec2 == old(ec2)
      ensures faultless && id in old(ec2) ==> call == Landed
    {
      call := Answer();
      if id !in ec2 {
        call := Lost;
      }
      if call != Lost {
        ec2 := Retag(ec2, id, tags);
      }
    }

    // A fresh uuid.
    method NewId() returns (id: Id)
      requires History()
      ensures id != "" && id !in world.owner && id !in world.states
    {
      id := "u";
      ghost var tried: set<Id> := {};
      while id in world.owner
        invariant id != "" && tried <= world.owner.Keys && forall t :: t in tried ==> |t| < |id|
        decreases world.owner.Keys - tried
      {
        assert id !in tried;
        tried := tried + {id};
        id := id + "u";
      }
    }
  }

  method ListTags(m: Tags) returns (tags: seq<Tag>)
    ensures Lists(tags, m)
  {
    tags := [];
    var left := m.Keys;
    while left != {}
      invariant left <= m.Keys
      invariant forall i :: 0 <= i < |tags| ==> tags[i].key in m && m[tags[i].key] == tags[i].value
      invariant forall k :: k in m ==> k in left || exists i :: 0 <= i < |tags| && tags[i].key == k
      decreases left
    {
      var k :| k in left;
      ghost var before := tags;
      left := left - {k};
      tags := tags + [Tag(k, m[k])];
      assert tags[|before|].key == k && forall i :: 0 <= i < |before| ==> tags[i] == before[i];
    }
  }

  // `found` lists some images that match, `left` are the others.
  ghost predicate PartlyListed(found: seq<Image>, left: set<ImageId>, ec2: Ec2, filter: Tags) {
    && (forall id :: id in left ==> id in ec2 && Matches(filter, ec2[id].tags))
    && (forall i :: 0 <= i < |found| ==>
          && found[i].id in ec2 && found[i].id !in left && Matches(filter, ec2[found[i].id].tags)
          && Lists(found[i].tags, ec2[found[i].id].tags) && found[i].creationDate == ec2[found[i].id].creationDate)
    && (forall i, j :: 0 <= i < j < |found| ==> found[i].id != found[j].id)
    && (forall id :: id in ec2 && Matches(filter, ec2[id].tags) ==> id in left || exists i :: 0 <= i < |found| && found[i].id == id)
  }

  lemma NothingListed(ec2: Ec2, filter: Tags)
    ensures PartlyListed([], Members(ec2, filter), ec2, filter)
  {}

  lemma OneOfListed(found: seq<Image>, left: set<ImageId>, ec2: Ec2, filter: Tags, id: ImageId)
    requires PartlyListed(found, left, ec2, filter) && id in left
    ensures id in ec2
  {}

  lemma OneMoreListed(found: seq<Image>, left: set<ImageId>, ec2: Ec2, filter: Tags, image: Image)
    requires PartlyListed(found, left, ec2, filter) && image.id in left && image.id in ec2
    requires Lists(image.tags, ec2[image.id].tags) && image.creationDate == ec2[image.id].creationDate
    ensures PartlyListed(found + [image], left - {image.id}, ec2, filter)
  {
    hide Matches, Lists;
    var more := found + [image];
    assert more[|found|] == image && forall i :: 0 <= i < |found| ==> more[i] == found[i];
  }

  lemma AllListed(found: seq<Image>, ec2: Ec2, filter: Tags)
    requires PartlyListed(found, {}, ec2, filter)
    ensures IsListing(found, ec2, filter)
  {
    hide Matches, Lists;
  }

  lemma NoReader(w: World, n: Name)
    requires Inv(w) && n in w.builders
    requires w.builders[n].phase.Handling? || w.builders[n].phase.Checked? || w.builders[n].phase.Cleared? || w.builders[n].phase.Syncing? || w.builders[n].phase.Booting?
    ensures !w.builders[n].reading
  {
    assert BuilderInv(w, n);
  }

  lemma CheckingState(w: World, n: Name)
    requires Inv(w) && n in w.builders && (w.builders[n].phase.Checked? || w.builders[n].phase.Cleared?)
    ensures w.builders[n].pb.state == FlightChecks
    ensures Current(w.states, w.builders[n].pb.buildId) == FlightChecks
  {
    assert BuilderInv(w, n);
  }

  lemma KnownState(w: World, n: Name)
    requires Inv(w) && n in w.builders && w.builders[n].phase.Handling?
    ensures w.builders[n].pb.state != NoState && w.builders[n].pb.state != JobFailed
  {
    assert BuilderInv(w, n);
  }

  // A handler finds the runner in the state it handles.
  lemma HandlerState(w: World, n: Name)
    requires Inv(w) && n in w.builders && w.builders[n].phase.Handling?
    ensures Current(w.states, w.builders[n].pb.buildId) == w.builders[n].pb.state
  {
    assert BuilderInv(w, n);
  }

  lemma NewIdDiffers(w: World, n: Name, id: Id)
    requires Inv(w) && n in w.builders && id !in w.owner && id != ""
    ensures id != w.builders[n].pb.buildId
  {
    assert BuilderInv(w, n);
  }

  // A job was made and the jobs then lived on.
  predicate Added(before: map<JobId, Job>, id: JobId, job: Job, after: map<JobId, Job>) {
    Outlived(before[id := job], after)
  }

  // A job was just made over what others had left of the jobs.
  ghost predicate MadeOver(before: map<JobId, Job>, id: JobId, job: Job, after: map<JobId, Job>) {
    exists left :: Outlived(before, left) && id !in left && after == left[id := job]
  }

  lemma CreatedAndOutlived(before: map<JobId, Job>, base: ImageId, id: JobId, middle: map<JobId, Job>, after: map<JobId, Job>)
    requires Outlived(before, middle) || MadeOver(before, id, Job(false, base), middle)
    requires Outlived(middle, after)
    ensures Outlived(before, after) || Added(before, id, Job(false, base), after)
    ensures id in middle ==> id in before || Added(before, id, Job(false, base), after)
  {}

  lemma StayFinished(before: map<JobId, Job>, after: map<JobId, Job>)
    requires Outlived(before, after)
    ensures Unfinished(after) <= Unfinished(before)
  {}
}
