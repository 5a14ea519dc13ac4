// Runs of a new builder that reach the exceptional states the general results allow.
module Stories {
  import opened Options
  import opened Opsy
  import opened Protocol
  import opened ProtocolInv
  import opened ProtocolJobs
  import opened Images
  import opened Freshness
  import opened World
  import opened Runs

  // ---------------------------------------------------------------- telling a run

  // The images, the clock, the other builders and the builder's spec are as they were.
  ghost predicate SameSurroundings(n: Name, w0: World, w: World) {
    && n in w0.builders && n in w.builders && w.builders[n].spec == w0.builders[n].spec
    && w.ec2 == w0.ec2 && w.now == w0.now
    && forall m :: m in w.builders && m != n ==> m in w0.builders && w.builders[m] == w0.builders[m]
  }

  ghost predicate Path(env: Env, n: Name, w0: World, w: World, ws: seq<World>, evs: seq<WorldEvent>) {
    && IsRun(env, ws, evs) && ws[0] == w0 && ws[|ws| - 1] == w && Restart !in evs
    && forall i :: 0 <= i < |ws| ==> SameSurroundings(n, w0, ws[i])
  }

  ghost predicate Leads(env: Env, n: Name, w0: World, w: World) {
    exists ws, evs :: Path(env, n, w0, w, ws, evs)
  }

  lemma EmptyPath(env: Env, n: Name, w: World)
    requires n in w.builders
    ensures Leads(env, n, w, w)
  {
    assert Path(env, n, w, w, [w], []);
  }

  lemma ExtendPath(env: Env, n: Name, w0: World, w: World, ev: WorldEvent)
    requires Leads(env, n, w0, w) && CanHappen(env, w, ev) && SameSurroundings(n, w, Apply(env, w, ev)) && ev != Restart
    ensures Leads(env, n, w0, Apply(env, w, ev))
  {
    var ws, evs :| Path(env, n, w0, w, ws, evs);
    RunMore(env, ws, evs, ev);
    hide CanHappen, Apply, IsRun;
    assert Path(env, n, w0, Apply(env, w, ev), ws + [Apply(env, w, ev)], evs + [ev]);
  }

  // The world after a step of builder `n` that leaves its configuration at `c`.
  function WithConfig(w: World, n: Name, c: Config): World { w.(states := c.states, builders := w.builders[n := c.b]) }

  // Steps that change nothing but the builder and its entry in the runner.
  predicate OwnStateOnly(e: Event) { !e.Begin? && !e.Adopt? && !e.TagCall? && !e.RetireCall? }

  lemma TakeStep(env: Env, n: Name, w0: World, w: World, e: Event) returns (w': World)
    requires Leads(env, n, w0, w) && n in w.builders && Enabled(ConfigOf(w, n), e) && OwnStateOnly(e)
    requires Consistent(env, w, w.builders[n], e, []) && Step(ConfigOf(w, n), e).b.spec == w.builders[n].spec
    ensures Leads(env, n, w0, w') && w' == WithConfig(w, n, Step(ConfigOf(w, n), e))
  {
    w' := Apply(env, w, Of(n, e, []));
    hide Step, Enabled, Consistent;
    ExtendPath(env, n, w0, w, Of(n, e, []));
  }

  lemma TakeQuietStep(env: Env, n: Name, w0: World, w: World, e: Event) returns (w': World)
    requires Leads(env, n, w0, w) && n in w.builders && Enabled(ConfigOf(w, n), e) && OwnStateOnly(e) && Quiet(e)
    requires Step(ConfigOf(w, n), e).b.spec == w.builders[n].spec
    ensures Leads(env, n, w0, w') && w' == WithConfig(w, n, Step(ConfigOf(w, n), e))
  {
    hide Step, Enabled, Consistent, Leads;
    QuietStep(env, w, w.builders[n], e);
    w' := TakeStep(env, n, w0, w, e);
  }

  // ---------------------------------------------------------------- one reconcile

  // Between reconciles, both copies equal.
  ghost predicate IsResting(w: World, n: Name, b: Builder) {
    && n in w.builders && w.builders[n] == b && b.phase.Idle? && b.upd.NoUpd? && !b.reading
    && b.stored.buildId != "" && b.stored.state != NoState && w.states == map[b.stored.buildId := b.stored.state]
    && b.stored.buildId in w.owner
  }

  // A reconcile begins with a fresh uuid in hand.
  lemma BeginReconcile(env: Env, n: Name, w0: World, w: World) returns (w': World)
    requires Leads(env, n, w0, w) && n in w.builders && w.builders[n].phase.Idle? && w.states.Keys <= w.owner.Keys
    ensures Leads(env, n, w0, w') && w.owner.Keys <= w'.owner.Keys
    ensures exists newId :: newId !in w.owner && newId != "" && Enabled(ConfigOf(w, n), Begin(newId))
                            && w' == WithConfig(w, n, Step(ConfigOf(w, n), Begin(newId))).(owner := w.owner[newId := n])
  {
    var newId := AnyFresh(w.owner.Keys);
    w' := Apply(env, w, Of(n, Begin(newId), []));
    assert Step(ConfigOf(w, n), Begin(newId)).b.spec == w.builders[n].spec;
    hide Step;
    ExtendPath(env, n, w0, w, Of(n, Begin(newId), []));
  }

  // ... and reaches its handler.
  lemma ReachHandler(env: Env, n: Name, w0: World, w: World, b: Builder) returns (w': World)
    requires Leads(env, n, w0, w) && IsResting(w, n, b)
    ensures Leads(env, n, w0, w')
    ensures w' == w.(owner := w'.owner, builders := w.builders[n := b.(pb := b.stored, phase := Handling)])
    ensures w.owner.Keys <= w'.owner.Keys
  {
    hide Leads;
    var w1 := BeginReconcile(env, n, w0, w);
    w' := TakeQuietStep(env, n, w0, w1, Sync);
  }

  // What is left of an update in which nothing fails: write and announce, then move the
  // runner and patch.
  lemma CompleteUpdate(env: Env, n: Name, w0: World, w: World) returns (w': World)
    requires Leads(env, n, w0, w) && n in w.builders && w.builders[n].phase == Writing(false)
    requires var b := w.builders[n]; Edge(Current(w.states, b.pb.buildId), b.pb.state)
    ensures Leads(env, n, w0, w')
    ensures var b := w.builders[n];
      w' == WithConfig(w, n, Config(w.states[b.pb.buildId := b.pb.state], End(b.(stored := b.pb, owes := false))))
  {
    hide Edge;
    var published := Publish(env, n, w0, w, false);
    w' := Commit(env, n, w0, published);
  }

  lemma Publish(env: Env, n: Name, w0: World, w: World, fallback: bool) returns (w': World)
    requires Leads(env, n, w0, w) && n in w.builders && w.builders[n].phase == Writing(fallback)
    ensures Leads(env, n, w0, w')
    ensures var b := w.builders[n];
      w' == WithConfig(w, n, Config(w.states, b.(stored := b.pb, owes := false, phase := Setting(fallback))))
  {
    hide Leads;
    var w1 := TakeQuietStep(env, n, w0, w, WriteCall(Landed));
    w' := TakeQuietStep(env, n, w0, w1, NotifyCall(true));
  }

  lemma Commit(env: Env, n: Name, w0: World, w: World) returns (w': World)
    requires Leads(env, n, w0, w) && n in w.builders && w.builders[n].phase == Setting(false)
    requires var b := w.builders[n]; Edge(Current(w.states, b.pb.buildId), b.pb.state) && b.stored == b.pb
    ensures Leads(env, n, w0, w')
    ensures var b := w.builders[n];
      w' == WithConfig(w, n, Config(w.states[b.pb.buildId := b.pb.state], End(b)))
  {
    hide Leads, Consistent, Edge;
    var w1 := TakeQuietStep(env, n, w0, w, SetRunner);
    w' := TakeQuietStep(env, n, w0, w1, PatchCall(true));
  }

  // A whole reconcile that is decided by one event.
  lemma Reconcile(env: Env, n: Name, w0: World, w: World, b: Builder, e: Event, target: Builder) returns (w': World)
    requires Leads(env, n, w0, w) && IsResting(w, n, b) && Quiet(e) && OwnStateOnly(e)
    requires var c := Config(w.states, b.(pb := b.stored, phase := Handling));
      && Enabled(c, e) && Step(c, e) == Config(w.states, target) && target.spec == b.spec
    requires target.phase == Writing(false) && target.pb.buildId == b.stored.buildId && Edge(b.stored.state, target.pb.state)
    ensures Leads(env, n, w0, w') && IsResting(w', n, End(target.(stored := target.pb, owes := false)))
    ensures w'.ec2 == w.ec2 && w'.now == w.now
  {
    hide Leads, Step, Enabled;
    var w1 := ReachHandler(env, n, w0, w, b);
    var w2 := TakeQuietStep(env, n, w0, w1, e);
    w' := CompleteUpdate(env, n, w0, w2);
  }

  // ---------------------------------------------------------------- one round of a new builder

  // A builder nobody has reconciled yet, in a fresh process and without images.
  ghost predicate New(w: World, n: Name) {
    && Init(w) && n in w.builders && w.ec2 == map[]
    && !w.builders[n].spec.Capped() && !w.builders[n].spec.filtered
  }

  function RestingBuilder(spec: Spec, st: Status, jobs: map<JobId, Job>, succeeded: set<JobId>): Builder {
    Builder(spec, st, st, Idle, NoUpd, false, jobs, succeeded, {}, None, false)
  }

  lemma ToFlightChecks(env: Env, n: Name, w: World) returns (w': World, st: Status)
    requires New(w, n)
    ensures Leads(env, n, w, w') && IsResting(w', n, RestingBuilder(w.builders[n].spec, st, map[], {}))
    ensures st == NoStatus.(buildId := st.buildId, state := FlightChecks)
  {
    hide Leads;
    EmptyPath(env, n, w);
    var w1 := BeginReconcile(env, n, w, w);
    var w2 := TakeQuietStep(env, n, w, w1, BootState(Landed));
    var w3 := TakeQuietStep(env, n, w, w2, Sync);
    var w4 := TakeQuietStep(env, n, w, w3, InitGo);
    w' := CompleteUpdate(env, n, w, w4);
    st := w'.builders[n].stored;
  }

  // A flight check that finds neither jobs nor images.
  lemma ToJobCreation(env: Env, n: Name, w0: World, w: World, spec: Spec, st: Status) returns (w': World)
    requires Leads(env, n, w0, w) && IsResting(w, n, RestingBuilder(spec, st, map[], {})) && w.ec2 == map[]
    requires st.state == FlightChecks && st.built == "" && !spec.filtered
    ensures Leads(env, n, w0, w') && IsResting(w', n, RestingBuilder(spec, st.(state := JobCreation), map[], {}))
    ensures w'.ec2 == w.ec2
  {
    hide Leads;
    var w1 := ReachHandler(env, n, w0, w, RestingBuilder(spec, st, map[], {}));
    var w2 := TakeQuietStep(env, n, w0, w1, ActiveCheck(true));
    var w3 := NothingToAdopt(env, n, w0, w2);
    w' := CompleteUpdate(env, n, w0, w3);
  }

  lemma NothingToAdopt(env: Env, n: Name, w0: World, w: World) returns (w': World)
    requires Leads(env, n, w0, w) && n in w.builders && w.builders[n].phase == Checked
    requires w.ec2 == map[] && !w.builders[n].spec.filtered
    ensures Leads(env, n, w0, w')
    ensures w' == WithConfig(w, n, Config(w.states, Update(w.builders[n].(found := None), JobCreation, false)))
  {
    hide Leads;
    var w1 := TakeStep(env, n, w0, w, NoAdoption);
    w' := TakeStep(env, n, w0, w1, Verdict(true, None));
  }

  // A job is created, and the reconcile ends in JobRunning.
  lemma ToJobRunning(env: Env, n: Name, w0: World, w: World, spec: Spec, st: Status) returns (w': World)
    requires Leads(env, n, w0, w) && IsResting(w, n, RestingBuilder(spec, st, map[], {})) && st.state == JobCreation
    ensures Leads(env, n, w0, w') && w'.ec2 == w.ec2 && w'.now == w.now
    ensures IsResting(w', n, RestingBuilder(spec, st.(state := JobRunning, jobId := "job"), map["job" := Job(false, st.base)], {}))
  {
    var b := RestingBuilder(spec, st, map[], {});
    w' := Reconcile(env, n, w0, w, b, Create("job", Made),
      Update(b.(pb := st.(jobId := "job"), stored := st.(jobId := "job"), jobs := map["job" := Job(false, st.base)], owes := true),
             JobRunning, false));
  }

  // The job succeeds and finishes.
  lemma JobOver(env: Env, n: Name, w0: World, w: World, b: Builder, job: JobId) returns (w': World)
    requires Leads(env, n, w0, w) && n in w.builders && w.builders[n] == b && job in b.jobs
    ensures Leads(env, n, w0, w')
    ensures var over := b.jobs[job := b.jobs[job].(finished := true)];
      w' == w.(builders := w.builders[n := b.(succeeded := b.succeeded + {job}, jobs := over)])
  {
    var w1 := Apply(env, w, JobSucceeds(n, job));
    ExtendPath(env, n, w0, w, JobSucceeds(n, job));
    w' := JobFinished(env, n, w0, w1, w1.builders[n], job);
  }

  lemma JobFinished(env: Env, n: Name, w0: World, w: World, b: Builder, job: JobId) returns (w': World)
    requires Leads(env, n, w0, w) && n in w.builders && w.builders[n] == b && job in b.jobs
    ensures Leads(env, n, w0, w')
    ensures w' == w.(builders := w.builders[n := b.(jobs := b.jobs[job := b.jobs[job].(finished := true)])])
  {
    w' := Apply(env, w, JobEnds(n, job));
    ExtendPath(env, n, w0, w, JobEnds(n, job));
  }

  lemma SuccessSeen(env: Env, n: Name, w0: World, w: World, b: Builder) returns (w': World, b': Builder)
    requires Leads(env, n, w0, w)
    requires n in w.builders && w.builders[n] == b && b.phase == Handling && b.upd == NoUpd && !b.reading
    requires b.pb.Captured(b.stored) == b.stored && b.stored.state == JobRunning && b.stored.jobId in b.succeeded
    requires b.stored.buildId != "" && w.states == map[b.stored.buildId := JobRunning] && b.stored.buildId in w.owner
    ensures Leads(env, n, w0, w') && IsResting(w', n, b') && b'.stored == b.pb.(state := JobCompleted)
    ensures b' == End(b.(stored := b'.stored, pb := b'.stored, owes := false))
  {
    hide Leads;
    var w1 := SuccessReported(env, n, w0, w, b);
    hide Step, Enabled;
    w' := CompleteUpdate(env, n, w0, w1);
    b' := w'.builders[n];
  }

  lemma SuccessReported(env: Env, n: Name, w0: World, w: World, b: Builder) returns (w': World)
    requires Leads(env, n, w0, w) && n in w.builders && w.builders[n] == b
    requires b.phase == Handling && b.pb.state == JobRunning && b.pb.jobId in b.succeeded
    ensures Leads(env, n, w0, w')
    ensures w' == WithConfig(w, n, Config(w.states, Update(b.(reading := true), JobCompleted, false)))
  {
    hide Leads;
    w' := TakeQuietStep(env, n, w0, w, Watch(Succeeded));
  }

  // The watch reads `log` and sees the success.
  lemma ToJobCompleted(env: Env, n: Name, w0: World, w: World, spec: Spec, st: Status, jobs: map<JobId, Job>, log: Status)
    returns (w': World)
    requires Leads(env, n, w0, w) && IsResting(w, n, RestingBuilder(spec, st, jobs, {st.jobId})) && st.state == JobRunning
    ensures Leads(env, n, w0, w')
    ensures IsResting(w', n, RestingBuilder(spec, st.Captured(log).(state := JobCompleted), jobs, {st.jobId}))
  {
    hide Leads;
    var w1 := ReachHandler(env, n, w0, w, RestingBuilder(spec, st, jobs, {st.jobId}));
    var w2 := TakeQuietStep(env, n, w0, w1, Capture(log));
    var b;
    w', b := SuccessSeen(env, n, w0, w2, w2.builders[n]);
  }

  lemma ToAMICreated(env: Env, n: Name, w0: World, w: World, b: Builder) returns (w': World)
    requires Leads(env, n, w0, w) && IsResting(w, n, b) && b.stored.state == JobCompleted
    ensures Leads(env, n, w0, w') && w'.ec2 == w.ec2 && w'.now == w.now
    ensures var st := b.stored.(state := AMICreated); IsResting(w', n, b.(stored := st, pb := st, owes := false))
  {
    w' := Reconcile(env, n, w0, w, b, Complete, Update(b.(pb := b.stored), AMICreated, false));
  }

  const Log := NoStatus.(built := "image", base := "base", keyPair := "key")

  // From a new builder to the stored state AMICreated, by way of a job that succeeds.
  lemma NewToAMICreated(env: Env, n: Name, w: World) returns (w': World, b: Builder)
    requires New(w, n)
    ensures Leads(env, n, w, w') && IsResting(w', n, b) && b.stored.state == AMICreated && b.stored.keyPair == "key"
  {
    hide Leads, IsResting;
    var spec := w.builders[n].spec;
    var w1, st := ToFlightChecks(env, n, w);
    PathKeepsSurroundings(env, n, w, w1);
    var w2 := ToJobCreation(env, n, w, w1, spec, st);
    var w3 := ToJobRunning(env, n, w, w2, spec, st.(state := JobCreation));
    var running := st.(state := JobRunning, jobId := "job");
    var jobs := map["job" := Job(false, st.base)];
    RestingThere(w3, n, RestingBuilder(spec, running, jobs, {}));
    var w4 := JobOver(env, n, w, w3, RestingBuilder(spec, running, jobs, {}), "job");
    var over := map["job" := Job(true, st.base)];
    assert {} + {"job"} == {"job"} && jobs["job" := jobs["job"].(finished := true)] == over;
    StaysResting(w3, w4, n, RestingBuilder(spec, running, jobs, {}), RestingBuilder(spec, running, over, {"job"}));
    var w5 := ToJobCompleted(env, n, w, w4, spec, running, over, Log);
    w' := ToAMICreated(env, n, w, w5, RestingBuilder(spec, running.Captured(Log).(state := JobCompleted), over, {"job"}));
    b := w'.builders[n];
    RestingThere(w', n, RestingBuilder(spec, running.Captured(Log).(state := AMICreated), over, {"job"}));
  }

  lemma PathKeepsSurroundings(env: Env, n: Name, w0: World, w: World)
    requires Leads(env, n, w0, w)
    ensures SameSurroundings(n, w0, w)
  {
    var ws, evs :| Path(env, n, w0, w, ws, evs);
    assert ws[|ws| - 1] == w;
  }

  lemma RestingThere(w: World, n: Name, b: Builder)
    requires IsResting(w, n, b)
    ensures n in w.builders && w.builders[n] == b
  {}

  lemma StaysResting(w: World, w': World, n: Name, b: Builder, b': Builder)
    requires IsResting(w, n, b) && w' == w.(builders := w.builders[n := b'])
    requires b'.stored == b.stored && b'.phase.Idle? && b'.upd.NoUpd? && !b'.reading
    ensures IsResting(w', n, b')
  {}

  // ---------------------------------------------------------------- the exceptional pairs

  // A failed clean-up after AMICreated stores Error, and the runner cannot follow: without
  // any crash the builder ends between reconciles in the stuck pair.
  lemma StuckIsReached(env: Env, w: World, n: Name) returns (ws: seq<World>, evs: seq<WorldEvent>)
    requires New(w, n)
    ensures IsRun(env, ws, evs) && ws[0] == w && Restart !in evs
    ensures var last := ws[|ws| - 1]; n in last.builders && Stuck(ConfigOf(last, n)) && last.builders[n].phase.Idle?
  {
    var w1, b := NewToAMICreated(env, n, w);
    var w2 := FailToCleanUp(env, n, w, w1, b);
    ws, evs :| Path(env, n, w, w2, ws, evs);
  }

  lemma FailToCleanUp(env: Env, n: Name, w0: World, w: World, b: Builder) returns (w': World)
    requires Leads(env, n, w0, w) && IsResting(w, n, b) && b.stored.state == AMICreated && b.stored.keyPair == "key"
    ensures Leads(env, n, w0, w') && n in w'.builders && Stuck(ConfigOf(w', n)) && w'.builders[n].phase.Idle?
  {
    hide Leads;
    var w1 := ReachHandler(env, n, w0, w, b);
    var w2 := TakeQuietStep(env, n, w0, w1, Cleanup(false, false));
    w' := FallBack(env, n, w0, w2);
  }

  // The fallback to Error is stored, and then the runner has no edge to follow.
  lemma FallBack(env: Env, n: Name, w0: World, w: World) returns (w': World)
    requires Leads(env, n, w0, w) && n in w.builders && w.builders[n].phase == Writing(true)
    requires !Edge(Current(w.states, w.builders[n].pb.buildId), w.builders[n].pb.state)
    ensures Leads(env, n, w0, w')
    ensures w' == WithConfig(w, n, Config(w.states, End(w.builders[n].(stored := w.builders[n].pb, owes := false))))
  {
    hide Leads;
    var w1 := Publish(env, n, w0, w, true);
    hide Edge;
    w' := TakeQuietStep(env, n, w0, w1, SetRunner);
  }

  // A restart while AMICreated is stored leaves the runner at Initial, from where the table
  // has no edge to AMICreated.
  lemma RestartedPairIsReached(env: Env, w: World, n: Name) returns (ws: seq<World>, evs: seq<WorldEvent>)
    requires New(w, n)
    ensures IsRun(env, ws, evs) && ws[0] == w && |evs| > 0 && evs[|evs| - 1] == Restart
    ensures var last := ws[|ws| - 1];
      n in last.builders && Memory(last, n) == Initial && StoredState(last, n) == AMICreated
    ensures !Edge(Initial, AMICreated)
  {
    var w1, b := NewToAMICreated(env, n, w);
    ws, evs :| Path(env, n, w, w1, ws, evs);
    RunMore(env, ws, evs, Restart);
    ws, evs := ws + [Apply(env, w1, Restart)], evs + [Restart];
    hide IsRun;
  }

  // The proviso of Runs.OneUnfinishedJob is needed: a reconcile that is cut off right after
  // creating a job leaves JobCreation stored, and the next one creates a second job.
  lemma DebtDoubles(env: Env, w: World, n: Name) returns (ws: seq<World>, evs: seq<WorldEvent>)
    requires New(w, n)
    ensures IsRun(env, ws, evs) && ws[0] == w && Restart !in evs
    ensures n in ws[|ws| - 1].builders && |Unfinished(ws[|ws| - 1].builders[n].jobs)| > 1
  {
    hide Leads, IsResting;
    var spec := w.builders[n].spec;
    var w1, st := ToFlightChecks(env, n, w);
    PathKeepsSurroundings(env, n, w, w1);
    var w2 := ToJobCreation(env, n, w, w1, spec, st);
    var w3, b := CutOffAfterCreating(env, n, w, w2, spec, st.(state := JobCreation));
    var w4 := CreateAnother(env, n, w, w3, b);
    ws, evs := SomePath(env, n, w, w4);
  }

  lemma SomePath(env: Env, n: Name, w0: World, w: World) returns (ws: seq<World>, evs: seq<WorldEvent>)
    requires Leads(env, n, w0, w)
    ensures Path(env, n, w0, w, ws, evs)
  {
    ws, evs :| Path(env, n, w0, w, ws, evs);
  }

  lemma CutOffAfterCreating(env: Env, n: Name, w0: World, w: World, spec: Spec, st: Status) returns (w': World, b: Builder)
    requires Leads(env, n, w0, w) && IsResting(w, n, RestingBuilder(spec, st, map[], {})) && st.state == JobCreation
    ensures Leads(env, n, w0, w') && IsResting(w', n, b) && b.stored.state == JobCreation
    ensures b.jobs == map["job" := Job(false, st.base)]
  {
    hide Leads;
    var w1 := ReachHandler(env, n, w0, w, RestingBuilder(spec, st, map[], {}));
    var w2 := TakeQuietStep(env, n, w0, w1, Create("job", Made));
    w' := TakeQuietStep(env, n, w0, w2, Abandon);
    b := w'.builders[n];
  }

  lemma CreateAnother(env: Env, n: Name, w0: World, w: World, b: Builder) returns (w': World)
    requires Leads(env, n, w0, w) && IsResting(w, n, b) && b.stored.state == JobCreation
    requires "job" in b.jobs && !b.jobs["job"].finished && "job again" !in b.jobs
    ensures Leads(env, n, w0, w') && n in w'.builders && |Unfinished(w'.builders[n].jobs)| > 1
  {
    hide Leads;
    var w1 := ReachHandler(env, n, w0, w, b);
    w' := TakeQuietStep(env, n, w0, w1, Create("job again", Made));
    TwoMembers(Unfinished(w'.builders[n].jobs), "job", "job again");
  }

  lemma TwoMembers<T>(s: set<T>, x: T, y: T)
    requires x in s && y in s && x != y
    ensures |s| > 1
  {
    var others := s - {x};
    assert y in others && s == others + {x};
  }

  // ---------------------------------------------------------------- a fresh image

  // A new builder's reconcile watches its job and has read the log of an image that has
  // just appeared; it is about to tag that image.
  lemma ToTagging(env: Env, n: Name, w: World) returns (w': World, ws: seq<World>, evs: seq<WorldEvent>, b: Builder)
    requires New(w, n)
    ensures IsRun(env, ws, evs) && ws[0] == w && ws[|ws| - 1] == w'
    ensures n in w'.builders && w'.builders[n] == b && b.phase == Handling && b.upd == Tagging("image") && !b.reading
    ensures b.pb.Captured(b.stored) == b.stored && b.stored.state == JobRunning && b.pb.keyPair == "key"
    ensures b.pb.built == "image"
    ensures b.stored.jobId in b.jobs && b.jobs.Keys == {b.stored.jobId}
    ensures b.stored.buildId != "" && w'.states == map[b.stored.buildId := JobRunning] && b.stored.buildId in w'.owner
    ensures w'.ec2 == map["image" := StoredImage(map[], None)] && w'.now == w.now && b.spec == w.builders[n].spec
    ensures forall m :: m in w'.builders && m != n ==> m in w.builders && w'.builders[m] == w.builders[m]
  {
    var spec := w.builders[n].spec;
    var w1, before, beforeEvs, b1 := ToWatching(env, n, w);
    var appears := ImageAppears("image", StoredImage(map[], None));
    var w2 := Apply(env, w1, appears);
    RunMore(env, before, beforeEvs, appears);
    EmptyPath(env, n, w2);
    hide Leads, IsRun;
    var w3 := TakeQuietStep(env, n, w2, w2, Capture(Log));
    w' := TakeQuietStep(env, n, w2, w3, StartUpdate);
    b := w'.builders[n];
    PathKeepsSurroundings(env, n, w2, w');
    var after, afterEvs := SomePath(env, n, w2, w');
    RunThen(env, before + [w2], beforeEvs + [appears], after, afterEvs);
    ws, evs := before + [w2] + after[1..], beforeEvs + [appears] + afterEvs;
  }

  lemma ToWatching(env: Env, n: Name, w: World) returns (w': World, ws: seq<World>, evs: seq<WorldEvent>, b: Builder)
    requires New(w, n)
    ensures IsRun(env, ws, evs) && ws[0] == w && ws[|ws| - 1] == w' && SameSurroundings(n, w, w')
    ensures w'.builders[n] == b && b.phase == Handling && b.upd == NoUpd && !b.reading && b.pb == b.stored
    ensures b.stored.state == JobRunning && b.jobs.Keys == {b.stored.jobId}
    ensures b.stored.buildId != "" && w'.states == map[b.stored.buildId := JobRunning] && b.stored.buildId in w'.owner
  {
    hide Leads;
    var spec := w.builders[n].spec;
    var w1, st := ToFlightChecks(env, n, w);
    PathKeepsSurroundings(env, n, w, w1);
    var w2 := ToJobCreation(env, n, w, w1, spec, st);
    var w3 := ToJobRunning(env, n, w, w2, spec, st.(state := JobCreation));
    w' := ReachHandler(env, n, w, w3, w3.builders[n]);
    b := w'.builders[n];
    PathKeepsSurroundings(env, n, w, w');
    ws, evs := SomePath(env, n, w, w');
  }

  // The rest of the round: the old images cannot be listed, the job succeeds, the build is
  // completed and cleaned up, and the next flight check comes to its verdict.
  lemma ToVerdict(env: Env, n: Name, w: World, b: Builder) returns (w': World)
    requires n in w.builders && w.builders[n] == b && b.phase == Handling && b.upd == Listing("image") && !b.reading
    requires b.pb.Captured(b.stored) == b.stored && b.stored.state == JobRunning && b.pb.built == "image"
    requires b.stored.jobId in b.jobs && b.jobs.Keys == {b.stored.jobId} && !b.spec.Capped()
    requires b.stored.buildId != "" && w.states == map[b.stored.buildId := JobRunning] && b.stored.buildId in w.owner
    ensures Leads(env, n, w, w') && n in w'.builders
    ensures w'.builders[n].phase == Cleared && w'.builders[n].stored.state == FlightChecks
  {
    hide Leads, IsResting;
    EmptyPath(env, n, w);
    var w1, b1 := WatchEnds(env, n, w, w, b);
    var w2 := ToAMICreated(env, n, w, w1, b1);
    var b2 := w2.builders[n];
    RestingThere(w2, n, b1.(stored := b1.stored.(state := AMICreated), pb := b1.stored.(state := AMICreated), owes := false));
    var w3, b3 := ToInitial(env, n, w, w2, b2);
    w' := NextFlightCheck(env, n, w, w3, b3);
  }

  lemma WatchEnds(env: Env, n: Name, w0: World, w: World, b: Builder) returns (w': World, b': Builder)
    requires Leads(env, n, w0, w)
    requires n in w.builders && w.builders[n] == b && b.phase == Handling && b.upd == Listing("image") && !b.reading
    requires b.pb.Captured(b.stored) == b.stored && b.stored.state == JobRunning && b.pb.built == "image"
    requires b.stored.jobId in b.jobs && b.jobs.Keys == {b.stored.jobId}
    requires b.stored.buildId != "" && w.states == map[b.stored.buildId := JobRunning] && b.stored.buildId in w.owner
    ensures Leads(env, n, w0, w') && IsResting(w', n, b') && b'.stored.state == JobCompleted && b'.stored.built == "image"
    ensures Unfinished(b'.jobs) == {} && b'.spec == b.spec
  {
    hide Leads;
    var w1, b1 := UpdateFails(env, n, w0, w, b);
    w', b' := SuccessSeen(env, n, w0, w1, b1);
  }

  lemma UpdateFails(env: Env, n: Name, w0: World, w: World, b: Builder) returns (w': World, b': Builder)
    requires Leads(env, n, w0, w)
    requires n in w.builders && w.builders[n] == b && b.phase == Handling && b.upd == Listing("image") && !b.reading
    requires b.stored.jobId in b.jobs && b.jobs.Keys == {b.stored.jobId}
    ensures Leads(env, n, w0, w') && w' == w.(builders := w.builders[n := b'])
    ensures b' == b.(upd := NoUpd, succeeded := b'.succeeded, jobs := b'.jobs)
    ensures b.stored.jobId in b'.succeeded && Unfinished(b'.jobs) == {}
  {
    hide Leads;
    var w1 := TakeStep(env, n, w0, w, ListCall(None));
    w' := JobOver(env, n, w0, w1, w1.builders[n], b.stored.jobId);
    b' := w'.builders[n];
  }

  lemma ToInitial(env: Env, n: Name, w0: World, w: World, b: Builder) returns (w': World, b': Builder)
    requires Leads(env, n, w0, w) && IsResting(w, n, b) && b.stored.state == AMICreated
    ensures Leads(env, n, w0, w') && IsResting(w', n, b')
    ensures b'.stored == b.stored.(state := Initial, keyPair := "", group := "")
    ensures b'.jobs == b.jobs && b'.spec == b.spec
  {
    var cleaned := b.stored.(keyPair := "", group := "");
    w' := Reconcile(env, n, w0, w, b, Cleanup(true, true), Update(b.(pb := cleaned), Initial, false));
    b' := w'.builders[n];
  }

  lemma NextFlightCheck(env: Env, n: Name, w0: World, w: World, b: Builder) returns (w': World)
    requires Leads(env, n, w0, w) && IsResting(w, n, b) && b.stored.state == Initial && !b.spec.Capped()
    requires Unfinished(b.jobs) == {} && b.stored.built == "image"
    ensures Leads(env, n, w0, w') && n in w'.builders
    ensures w'.builders[n].phase == Cleared && w'.builders[n].stored.state == FlightChecks
  {
    hide Leads;
    var w1 := Reconcile(env, n, w0, w, b, InitGo, Update(b.(pb := b.stored), FlightChecks, false));
    w' := FlightCheckWaits(env, n, w0, w1, w1.builders[n]);
  }

  lemma FlightCheckWaits(env: Env, n: Name, w0: World, w: World, b: Builder) returns (w': World)
    requires Leads(env, n, w0, w) && IsResting(w, n, b) && b.stored.state == FlightChecks
    requires Unfinished(b.jobs) == {} && b.stored.built == "image"
    ensures Leads(env, n, w0, w') && n in w'.builders
    ensures w'.builders[n].phase == Cleared && w'.builders[n].stored.state == FlightChecks
  {
    hide Leads;
    var w1 := ReachHandler(env, n, w0, w, b);
    var w2 := TakeQuietStep(env, n, w0, w1, ActiveCheck(true));
    w' := TakeStep(env, n, w0, w2, NoAdoption);
  }

  lemma StaysNewest(env: Env, n: Name, a: ImageId, w: World, w': World)
    requires SameSurroundings(n, w, w') && StrictlyNewest(env, w, n, a)
    ensures StrictlyNewest(env, w', n, a)
  {
    assert forall x :: Mine(w', n, x) <==> Mine(w, n, x);
  }

  // A whole round of a new builder around an image stamped in it: the job succeeds, the
  // build is completed and cleaned up, and the next flight check says no. It is a run as
  // Freshness.NoJobWhileFresh speaks of.
  lemma FreshRound(env: Env, w: World, n: Name)
    returns (before: seq<World>, beforeEvs: seq<WorldEvent>, ws: seq<World>, evs: seq<WorldEvent>)
    requires New(w, n) && RoundTrip(env.parse, env.format) && Distinct(w, n) && SECOND <= w.builders[n].spec.validFor
    ensures IsRun(env, before, beforeEvs) && before[0] == w
    ensures FreshRun(env, ws, evs, n) && before[|before| - 1] == ws[0]
    ensures StoredState(ws[0], n) == JobRunning && StoredState(ws[|ws| - 1], n) == FlightChecks
    ensures evs[|evs| - 1] == Of(n, Verdict(false, None), [])
  {
    var w1, b;
    w1, before, beforeEvs, b := ToTagging(env, n, w);
    InitInv(w);
    RunInv(env, before, beforeEvs, |before| - 1);
    var tag := Of(n, TagCall(Landed), []);
    var w2 := TaggingLands(env, w1, n, b);
    NobodyElseYet(w, w1, n);
    var w3 := ToVerdict(env, n, w2, w2.builders[n]);
    var after, afterEvs := SomePath(env, n, w2, w3);
    var no := Of(n, Verdict(false, None), []);
    var w4 := VerdictIsNo(env, w3, n);
    RunMore(env, after, afterEvs, no);
    NewestAlongPath(env, n, w2, w3, w4, after, afterEvs);
    ws, evs := [w1] + (after + [w4]), [tag] + (afterEvs + [no]);
    hide *;
    FreshFrom(env, n, w1, after + [w4], afterEvs + [no]);
  }

  // A tagging call followed by a run in which the image stays the newest.
  lemma FreshFrom(env: Env, n: Name, w: World, ws: seq<World>, evs: seq<WorldEvent>)
    requires RoundTrip(env.parse, env.format) && Inv(w) && n in w.builders && Distinct(w, n)
    requires w.builders[n].upd == Tagging("image") && NobodyRetires(w, n, "image")
    requires CanHappen(env, w, Of(n, TagCall(Landed), [])) && SECOND <= w.builders[n].spec.validFor
    requires IsRun(env, ws, evs) && ws[0] == Apply(env, w, Of(n, TagCall(Landed), [])) && n in ws[0].builders
    requires ws[0].now == w.now && ws[0].builders[n].spec == w.builders[n].spec
    requires forall i :: 0 <= i < |ws| ==> SameSurroundings(n, ws[0], ws[i]) && StrictlyNewest(env, ws[i], n, "image")
    ensures FreshRun(env, [w] + ws, [Of(n, TagCall(Landed), [])] + evs, n)
  {
    var tag := Of(n, TagCall(Landed), []);
    hide RoundTrip, Inv, CanHappen, Apply, Distinct, NobodyRetires, StrictlyNewest;
    RunThen(env, [w, ws[0]], [tag], ws, evs);
    assert [w, ws[0]] + ws[1..] == [w] + ws;
    assert forall i :: 0 < i < |[w] + ws| ==> ([w] + ws)[i] == ws[i - 1];
    hide IsRun;
  }

  lemma TaggingLands(env: Env, w: World, n: Name, b: Builder) returns (w': World)
    requires n in w.builders && w.builders[n] == b && b.upd == Tagging("image") && RoundTrip(env.parse, env.format)
    requires w.ec2 == map["image" := StoredImage(map[], None)] && SECOND <= w.now
    ensures CanHappen(env, w, Of(n, TagCall(Landed), [])) && w' == Apply(env, w, Of(n, TagCall(Landed), []))
    ensures w' == w.(builders := w.builders[n := b.(upd := Listing("image"))], ec2 := w'.ec2)
    ensures StrictlyNewest(env, w', n, "image")
  {
    var tag := Of(n, TagCall(Landed), []);
    assert CanHappen(env, w, tag);
    w' := Apply(env, w, tag);
    hide StrictlyNewest;
    TaggedIsNewest(env, w, tag, n);
  }

  // The other builders have not begun.
  lemma NobodyElseYet(w: World, w': World, n: Name)
    requires Init(w) && n in w.builders && n in w'.builders && Distinct(w, n) && w'.builders[n].spec == w.builders[n].spec
    requires forall m :: m in w'.builders && m != n ==> m in w.builders && w'.builders[m] == w.builders[m]
    ensures Distinct(w', n) && NobodyRetires(w', n, "image")
  {}

  lemma VerdictIsNo(env: Env, w: World, n: Name) returns (w': World)
    requires n in w.builders && w.builders[n].phase == Cleared
    ensures CanHappen(env, w, Of(n, Verdict(false, None), [])) && w' == Apply(env, w, Of(n, Verdict(false, None), []))
    ensures SameSurroundings(n, w, w') && w'.builders[n].stored == w.builders[n].stored
  {
    w' := Apply(env, w, Of(n, Verdict(false, None), []));
  }

  lemma NewestAlongPath(env: Env, n: Name, w2: World, w3: World, w4: World, ws: seq<World>, evs: seq<WorldEvent>)
    requires Path(env, n, w2, w3, ws, evs) && SameSurroundings(n, w3, w4) && StrictlyNewest(env, w2, n, "image")
    ensures forall i :: 0 <= i < |ws + [w4]| ==> SameSurroundings(n, w2, (ws + [w4])[i]) && StrictlyNewest(env, (ws + [w4])[i], n, "image")
  {
    PathKeepsSurroundings(env, n, w2, w3);
    forall i | 0 <= i < |ws + [w4]|
      ensures SameSurroundings(n, w2, (ws + [w4])[i]) && StrictlyNewest(env, (ws + [w4])[i], n, "image")
    {
      StaysNewest(env, n, "image", w2, (ws + [w4])[i]);
    }
  }

  // A process just started with one new builder, whose images last ten seconds.
  const NewWorld := World(map[], map[], map["builder" := NewBuilder], false, map[], SECOND)

  const NewBuilder := Builder(
    Spec("cluster", "name", "repo", "branch", false, 10 * SECOND, None, None),
    NoStatus, NoStatus, Idle, NoUpd, false, map[], {}, {}, None, false)

  // A run that Freshness.NoJobWhileFresh speaks of, in a notation of stamps that reads back.
  lemma FreshRunExists() returns (ws: seq<World>, evs: seq<WorldEvent>)
    ensures FreshRun(Tally, ws, evs, "builder")
    ensures StoredState(ws[0], "builder") == JobRunning && StoredState(ws[|ws| - 1], "builder") == FlightChecks
  {
    TallyReadsBack();
    hide FreshRun, RoundTrip;
    var before, beforeEvs;
    before, beforeEvs, ws, evs := FreshRound(Tally, NewWorld, "builder");
  }
}
