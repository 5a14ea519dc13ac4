// All builders in one process, sharing the runner, EC2 and a clock; runs with faults,
// restarts and adoptions in any interleaving.
module World {
  import opened Options
  import opened Opsy
  import opened Protocol
  import opened ProtocolInv
  import opened ProtocolJobs
  import opened Images

  type Name = string // a builder's namespaced name

  // How timestamps are read and written.
  datatype Env = Env(parse: Parse, format: Format)

  // `owner` remembers which builder drew each BuildID; `restarted` whether the process
  // has been restarted at least once.
  datatype World = World(
    states: map<Id, State>,
    owner: map<Id, Name>,
    builders: map<Name, Builder>,
    restarted: bool,
    ec2: Ec2,
    now: int)

  // `seen` is what DescribeImages answered the step, where it asks.
  datatype WorldEvent =
    | Of(n: Name, e: Event, seen: seq<Image>)
    | Restart
    | JobSucceeds(n: Name, job: JobId)
    | JobFails(n: Name, job: JobId)
    | JobEnds(n: Name, job: JobId)
    | JobDeleted(n: Name, job: JobId)
    | Tick(passed: nat)
    | ImageAppears(id: ImageId, image: StoredImage)
    | ImageDeleted(id: ImageId)

  function ConfigOf(w: World, n: Name): Config
    requires n in w.builders
  {
    Config(w.states, w.builders[n])
  }

  function IdentityFilter(spec: Spec): Tags { TagsFor(spec, NoStatus, IdentityOnly, "") }

  lemma IdentityIgnoresStatus(spec: Spec, a: Status, b: Status)
    ensures TagsFor(spec, a, IdentityOnly, "") == TagsFor(spec, b, IdentityOnly, "")
  {}

  function Ids(images: seq<Image>): seq<ImageId> { seq(|images|, i requires 0 <= i < |images| => images[i].id) }

  // What the images must be like for builder `b` to take step `e`.
  predicate Consistent(env: Env, w: World, b: Builder, e: Event, seen: seq<Image>)
    requires Enabled(Config(w.states, b), e)
  {
    match e
    case Begin(newId) => newId !in w.owner
    case NoAdoption => b.pb.built == "" ==> seen == [] && IsListing(seen, w.ec2, IdentityFilter(b.spec))
    case Adopt(img, imgBase, newId, _) =>
      var latest := LatestOf(env.parse, seen).index;
      && newId !in w.owner
      && IsListing(seen, w.ec2, IdentityFilter(b.spec))
      && latest.Some? && latest.value < |seen| && seen[latest.value].id == img
      && Tag(StatusKey, ACTIVE) in seen[latest.value].tags
      && imgBase == FirstTag(seen[latest.value].tags, BaseAMI).GetOr("")
    case Verdict(pass, _) => pass ==>
      && IsListing(seen, w.ec2, IdentityFilter(b.spec))
      && AMIChecks(env.parse, seen, w.now, b.spec.validFor, PackerBuilderCheck).0
    case TagCall(call) => call.Lost? || b.upd.img in w.ec2
    case ListCall(listed) => listed.Some? ==>
      && IsListing(seen, w.ec2, TagsFor(b.spec, b.pb, WithBase, ""))
      && listed.value == Ids(seen)
    case RetireCall(call) => call.Lost? || b.upd.rest[0] == b.upd.keep || b.upd.rest[0] in w.ec2
    case _ => true
  }

  predicate CanHappen(env: Env, w: World, ev: WorldEvent) {
    match ev
    case Of(n, e, seen) =>
      && n in w.builders && Enabled(ConfigOf(w, n), e)
      && Consistent(env, w, w.builders[n], e, seen)
    case Restart => true
    case JobSucceeds(n, job) => n in w.builders && job in w.builders[n].jobs
    case JobFails(n, job) => n in w.builders && job in w.builders[n].jobs
    case JobEnds(n, job) => n in w.builders && job in w.builders[n].jobs
    case JobDeleted(n, job) => n in w.builders
    case Tick(_) => true
    case ImageAppears(id, _) => id !in w.ec2
    case ImageDeleted(_) => true
  }

  // CreateTags and the status tag written by deprecateAMI, where they take effect.
  function Ec2After(env: Env, w: World, b: Builder, e: Event): Ec2
    requires Enabled(Config(w.states, b), e)
  {
    match e
    case TagCall(call) =>
      if call.Lost? || b.upd.img !in w.ec2 then w.ec2
      else Retag(w.ec2, b.upd.img, TagsFor(b.spec, b.pb, Everything, env.format(w.now)))
    case RetireCall(call) =>
      if call.Lost? || b.upd.rest[0] == b.upd.keep || b.upd.rest[0] !in w.ec2 then w.ec2
      else Retag(w.ec2, b.upd.rest[0], map[StatusKey := DEPRECATED])
    case _ => w.ec2
  }

  function Apply(env: Env, w: World, ev: WorldEvent): World
    requires CanHappen(env, w, ev)
  {
    match ev
    case Of(n, e, _) =>
      var c := Step(ConfigOf(w, n), e);
      var owner := if e.Begin? then w.owner[e.newId := n] else if e.Adopt? then w.owner[e.newId := n] else w.owner;
      w.(states := c.states, owner := owner, builders := w.builders[n := c.b], ec2 := Ec2After(env, w, w.builders[n], e))
    case Restart =>
      w.(states := map[], restarted := true, builders := map n | n in w.builders :: End(w.builders[n]))
    case JobSucceeds(n, job) =>
      var b := w.builders[n];
      w.(builders := w.builders[n := b.(succeeded := b.succeeded + {job})])
    case JobFails(n, job) =>
      var b := w.builders[n];
      w.(builders := w.builders[n := b.(failed := b.failed + {job})])
    case JobEnds(n, job) =>
      var b := w.builders[n];
      w.(builders := w.builders[n := b.(jobs := b.jobs[job := b.jobs[job].(finished := true)])])
    case JobDeleted(n, job) =>
      var b := w.builders[n];
      w.(builders := w.builders[n := b.(jobs := b.jobs - {job})])
    case Tick(passed) => w.(now := w.now + passed)
    case ImageAppears(id, image) => w.(ec2 := w.ec2[id := image])
    case ImageDeleted(id) => w.(ec2 := w.ec2 - {id})
  }

  // Steps that neither ask for images or fresh ids nor touch tags.
  predicate Quiet(e: Event) {
    !e.Begin? && !e.NoAdoption? && !e.Adopt? && !e.Verdict? && !e.TagCall? && !e.ListCall? && !e.RetireCall?
  }

  lemma QuietStep(env: Env, w: World, b: Builder, e: Event)
    requires Enabled(Config(w.states, b), e) && Quiet(e)
    ensures Consistent(env, w, b, e, []) && Ec2After(env, w, b, e) == w.ec2
  {}

  ghost predicate IsRun(env: Env, ws: seq<World>, evs: seq<WorldEvent>) {
    && |ws| == |evs| + 1
    && forall k {:trigger evs[k]} :: 0 <= k < |evs| ==> CanHappen(env, ws[k], evs[k]) && ws[k + 1] == Apply(env, ws[k], evs[k])
  }

  // Builders just created, a process just started.
  ghost predicate Init(w: World) {
    && w.states == map[] && w.owner == map[] && !w.restarted && SECOND <= w.now
    && forall n :: n in w.builders ==>
         w.builders[n] == Builder(w.builders[n].spec, NoStatus, NoStatus, Idle, NoUpd, false, map[], {}, {}, None, false)
  }

  // ---------------------------------------------------------------- the invariant of all runs

  predicate Owns(w: World, n: Name, id: Id) { id == "" || (id in w.owner && w.owner[id] == n) }

  ghost predicate BuilderInv(w: World, n: Name)
    requires n in w.builders
  {
    var b := w.builders[n];
    && CInv(ConfigOf(w, n), w.restarted)
    && Owns(w, n, b.stored.buildId) && Owns(w, n, b.pb.buildId)
    && UpdInv(b) && BaseInv(b)
  }

  ghost predicate Inv(w: World) {
    && SECOND <= w.now
    && "" !in w.owner && "" !in w.states
    && (forall id :: id in w.states ==> id in w.owner && w.states[id] != JobFailed)
    && forall n :: n in w.builders ==> BuilderInv(w, n)
  }

  lemma InitInv(w: World)
    requires Init(w)
    ensures Inv(w)
  {}

  lemma StepInv(env: Env, w: World, ev: WorldEvent)
    requires Inv(w) && CanHappen(env, w, ev)
    ensures Inv(Apply(env, w, ev))
  {
    var w' := Apply(env, w, ev);
    match ev
    case Of(n, _, _) =>
      StepOwner(env, w, ev);
      forall m | m in w'.builders ensures BuilderInv(w', m) {
        if m == n {
          StepOwn(env, w, ev);
        } else {
          StepOther(env, w, ev, m);
        }
      }
    case Restart => RestartInv(env, w);
    case _ => EnvironmentInv(env, w, ev);
  }

  lemma RestartInv(env: Env, w: World)
    requires Inv(w)
    ensures Inv(Apply(env, w, Restart))
  {
    var w' := Apply(env, w, Restart);
    forall m | m in w'.builders ensures BuilderInv(w', m) {
      assert BuilderInv(w, m);
    }
  }

  // The environment ends and deletes jobs, moves the clock and the images: no live builder
  // notices.
  lemma EnvironmentInv(env: Env, w: World, ev: WorldEvent)
    requires Inv(w) && !ev.Of? && !ev.Restart? && CanHappen(env, w, ev)
    ensures Inv(Apply(env, w, ev))
  {
    var w' := Apply(env, w, ev);
    forall m | m in w'.builders ensures BuilderInv(w', m) {
      assert BuilderInv(w, m);
      JobsDoNotMatter(w, w', m);
    }
  }

  lemma JobsDoNotMatter(w: World, w': World, m: Name)
    requires m in w.builders && BuilderInv(w, m) && m in w'.builders
    requires w'.states == w.states && w'.owner == w.owner && w'.restarted == w.restarted
    requires w'.builders[m] == w.builders[m].(jobs := w'.builders[m].jobs, succeeded := w'.builders[m].succeeded,
                                                       failed := w'.builders[m].failed)
    ensures BuilderInv(w', m)
  {}

  // The runner's entries after a builder's step.
  lemma StepOwner(env: Env, w: World, ev: WorldEvent)
    requires Inv(w) && ev.Of? && CanHappen(env, w, ev)
    ensures var w' := Apply(env, w, ev);
      && "" !in w'.owner && "" !in w'.states
      && forall id :: id in w'.states ==> id in w'.owner && w'.states[id] != JobFailed
  {
    var b := w.builders[ev.n];
    assert BuilderInv(w, ev.n);
    RunnerEntries(ConfigOf(w, ev.n), ev.e, w.restarted);
  }

  lemma StepOwn(env: Env, w: World, ev: WorldEvent)
    requires Inv(w) && ev.Of? && CanHappen(env, w, ev)
    ensures BuilderInv(Apply(env, w, ev), ev.n)
  {
    assert BuilderInv(w, ev.n);
    var c := ConfigOf(w, ev.n);
    StepKeepsPair(c, ev.e, w.restarted);
    StepKeepsBase(c, ev.e, w.restarted);
    StepKeepsUpd(c, ev.e, w.restarted);
    StepIds(c, ev.e, w.restarted);
  }

  // A builder's step is invisible in the runner at the BuildIDs of the others.
  lemma OthersKeepCurrent(env: Env, w: World, ev: WorldEvent, m: Name)
    requires Inv(w) && ev.Of? && CanHappen(env, w, ev) && m in w.builders && m != ev.n
    ensures var states := Apply(env, w, ev).states;
      && Current(states, w.builders[m].stored.buildId) == Current(w.states, w.builders[m].stored.buildId)
      && Current(states, w.builders[m].pb.buildId) == Current(w.states, w.builders[m].pb.buildId)
  {
    var b := w.builders[m];
    assert BuilderInv(w, m) && BuilderInv(w, ev.n);
    StepOwner(env, w, ev);
    forall id | id == b.stored.buildId || id == b.pb.buildId
      ensures Current(Apply(env, w, ev).states, id) == Current(w.states, id)
    {
      if id != "" {
        StepFrame(ConfigOf(w, ev.n), ev.e, id);
      }
    }
  }

  lemma StepOther(env: Env, w: World, ev: WorldEvent, m: Name)
    requires Inv(w) && ev.Of? && CanHappen(env, w, ev) && m in w.builders && m != ev.n
    ensures BuilderInv(Apply(env, w, ev), m)
  {
    assert BuilderInv(w, m);
    StepOwner(env, w, ev);
    OthersKeepCurrent(env, w, ev, m);
    CInvFrame(ConfigOf(w, m), Apply(env, w, ev).states, w.restarted);
  }

  // ---------------------------------------------------------------- all runs

  lemma RunStep(env: Env, ws: seq<World>, evs: seq<WorldEvent>, k: nat)
    requires IsRun(env, ws, evs) && k + 1 < |ws|
    ensures k < |evs| && CanHappen(env, ws[k], evs[k]) && ws[k + 1] == Apply(env, ws[k], evs[k])
  {}

  // Time does not go back, and a builder keeps its spec.
  lemma StepOnward(env: Env, w: World, ev: WorldEvent, n: Name)
    requires CanHappen(env, w, ev) && n in w.builders
    ensures n in Apply(env, w, ev).builders && w.now <= Apply(env, w, ev).now
    ensures Apply(env, w, ev).builders[n].spec == w.builders[n].spec
  {
    if ev.Of? && ev.n == n {
      StepKeepsSpec(ConfigOf(w, n), ev.e);
      hide Step, Enabled;
    }
  }

  lemma {:induction false} RunOnward(env: Env, ws: seq<World>, evs: seq<WorldEvent>, n: Name, j: nat, k: nat)
    requires IsRun(env, ws, evs) && j <= k < |ws| && n in ws[j].builders
    ensures n in ws[k].builders && ws[j].now <= ws[k].now && ws[k].builders[n].spec == ws[j].builders[n].spec
  {
    if j < k {
      RunOnward(env, ws, evs, n, j, k - 1);
      RunStep(env, ws, evs, k - 1);
      hide Apply, CanHappen;
      StepOnward(env, ws[k - 1], evs[k - 1], n);
    }
  }

  // A builder whose reconcile is on its way stays so, whatever the others do.
  lemma StepOnItsWay(env: Env, w: World, ev: WorldEvent, n: Name, s0: State)
    requires Inv(w) && CanHappen(env, w, ev) && ev != Restart && n in w.builders && OnItsWay(ConfigOf(w, n), s0)
    requires ev.Of? && ev.n == n ==> Calm(ev.e) && !ev.e.Begin?
    ensures n in Apply(env, w, ev).builders && OnItsWay(ConfigOf(Apply(env, w, ev), n), s0)
  {
    assert BuilderInv(w, n);
    if ev.Of? && ev.n == n {
      hide OnItsWay, Calm, CInv, Step, Enabled;
      CalmStep(ConfigOf(w, n), ev.e, w.restarted, s0);
    } else {
      hide OnItsWay, Inv, Step, Enabled, Current;
      if ev.Of? {
        OthersKeepCurrent(env, w, ev, n);
      }
      OnItsWayFrame(ConfigOf(w, n), ConfigOf(Apply(env, w, ev), n), s0);
    }
  }

  // It depends on the runner's entry, the phase and the two copies.
  lemma OnItsWayFrame(c: Config, c': Config, s0: State)
    requires OnItsWay(c, s0) && Current(c'.states, c.b.stored.buildId) == Current(c.states, c.b.stored.buildId)
    requires c'.b.stored == c.b.stored && c'.b.pb == c.b.pb && c'.b.phase == c.b.phase
    ensures OnItsWay(c', s0)
  {}

  // From the beginning of a reconcile, outside the stuck pair, through steps of its own that
  // are neither faults nor decisions to wait, amid anybody else's.
  lemma {:induction false} RunOnItsWay(env: Env, ws: seq<World>, evs: seq<WorldEvent>, n: Name, j: nat, k: nat)
    requires IsRun(env, ws, evs) && Inv(ws[0]) && j < k < |ws| && n in ws[j].builders
    requires evs[j].Of? && evs[j].n == n && evs[j].e.Begin? && !StuckPair(ConfigOf(ws[j], n))
    requires forall i :: j < i < k ==> evs[i] != Restart && (evs[i].Of? && evs[i].n == n ==> Calm(evs[i].e) && !evs[i].e.Begin?)
    ensures n in ws[k].builders && OnItsWay(ConfigOf(ws[k], n), ws[j].builders[n].stored.state)
  {
    hide *;
    RunInv(env, ws, evs, k - 1);
    RunStep(env, ws, evs, k - 1);
    if k == j + 1 {
      BeginOnItsWay(env, ws[j], evs[j], n);
    } else {
      RunOnItsWay(env, ws, evs, n, j, k - 1);
      StepOnItsWay(env, ws[k - 1], evs[k - 1], n, ws[j].builders[n].stored.state);
    }
  }

  lemma BeginOnItsWay(env: Env, w: World, ev: WorldEvent, n: Name)
    requires Inv(w) && CanHappen(env, w, ev) && n in w.builders
    requires ev.Of? && ev.n == n && ev.e.Begin? && !StuckPair(ConfigOf(w, n))
    ensures n in Apply(env, w, ev).builders && OnItsWay(ConfigOf(Apply(env, w, ev), n), w.builders[n].stored.state)
  {
    assert BuilderInv(w, n);
    CalmStep(ConfigOf(w, n), ev.e, w.restarted, w.builders[n].stored.state);
    hide Step, Enabled;
  }

  // The beginning of a run.
  lemma RunBegins(env: Env, ws: seq<World>, evs: seq<WorldEvent>, k: nat)
    requires IsRun(env, ws, evs) && k < |ws|
    ensures IsRun(env, ws[..k + 1], evs[..k])
  {
    hide CanHappen, Apply;
    assert forall j :: 0 <= j < k ==> evs[..k][j] == evs[j];
  }

  // One more event at the end of a run.
  lemma RunMore(env: Env, ws: seq<World>, evs: seq<WorldEvent>, ev: WorldEvent)
    requires IsRun(env, ws, evs) && CanHappen(env, ws[|ws| - 1], ev)
    ensures IsRun(env, ws + [Apply(env, ws[|ws| - 1], ev)], evs + [ev])
  {
    hide CanHappen, Apply;
  }

  // A run followed by another.
  lemma RunThen(env: Env, ws: seq<World>, evs: seq<WorldEvent>, ws': seq<World>, evs': seq<WorldEvent>)
    requires IsRun(env, ws, evs) && IsRun(env, ws', evs') && ws[|ws| - 1] == ws'[0]
    ensures IsRun(env, ws + ws'[1..], evs + evs')
  {
    hide CanHappen, Apply;
    var all, allEvs := ws + ws'[1..], evs + evs';
    forall k | 0 <= k < |allEvs|
      ensures CanHappen(env, all[k], allEvs[k]) && all[k + 1] == Apply(env, all[k], allEvs[k])
    {
      if k < |evs| {
        assert allEvs[k] == evs[k];
      } else {
        assert allEvs[k] == evs'[k - |evs|];
        assert all[k] == ws'[k - |evs|] && all[k + 1] == ws'[k + 1 - |evs|];
      }
    }
  }

  // The rest of a run after its first event.
  lemma RunLater(env: Env, ws: seq<World>, evs: seq<WorldEvent>)
    requires IsRun(env, ws, evs) && |evs| > 0
    ensures IsRun(env, ws[1..], evs[1..])
  {
    hide CanHappen, Apply;
    forall k | 0 <= k < |evs[1..]|
      ensures CanHappen(env, ws[1..][k], evs[1..][k]) && ws[1..][k + 1] == Apply(env, ws[1..][k], evs[1..][k])
    {
      assert evs[1..][k] == evs[k + 1];
    }
  }

  lemma {:induction false} RunInv(env: Env, ws: seq<World>, evs: seq<WorldEvent>, k: nat)
    requires IsRun(env, ws, evs) && Inv(ws[0]) && k < |ws|
    ensures Inv(ws[k])
  {
    if k > 0 {
      RunInv(env, ws, evs, k - 1);
      StepInv(env, ws[k - 1], evs[k - 1]);
    }
  }
}
