// The main results about whole runs: any number of builders, any failed call, any cut-off
// reconcile, any restart, any adoption, in any interleaving.
module Runs {
  import opened Options
  import opened Opsy
  import opened Protocol
  import opened ProtocolInv
  import opened ProtocolJobs
  import opened World
  import R = Reconciler

  function Memory(w: World, n: Name): State
    requires n in w.builders
  {
    Current(w.states, w.builders[n].stored.buildId)
  }

  function StoredState(w: World, n: Name): State
    requires n in w.builders
  {
    w.builders[n].stored.state
  }

  // ---------------------------------------------------------------- the two copies

  lemma {:induction false} RestartedMeans(env: Env, ws: seq<World>, evs: seq<WorldEvent>, k: nat)
    requires IsRun(env, ws, evs) && k < |ws| && !ws[0].restarted && ws[k].restarted
    ensures exists j :: 0 <= j < k && evs[j] == Restart
  {
    assert CanHappen(env, ws[k - 1], evs[k - 1]);
    if ws[k - 1].restarted {
      RestartedMeans(env, ws, evs, k - 1);
    } else {
      assert evs[k - 1] == Restart;
    }
  }

  // Once a builder has a stored state, it equals the runner's, or is one table edge ahead
  // of it, or the pair is (AMICreated, Error), or it is (Initial, AMICreated) and the
  // process was restarted before. JobFailed is never stored and never in the runner.
  ghost predicate Agreement(evs: seq<WorldEvent>, w: World, k: nat, n: Name)
    requires n in w.builders
  {
    var m, s := Memory(w, n), StoredState(w, n);
    && (s != NoState ==>
          || m == s
          || Edge(m, s)
          || (m == AMICreated && s == Error)
          || (m == Initial && s == AMICreated && exists j :: 0 <= j < k && j < |evs| && evs[j] == Restart))
    && (s == NoState ==> m == Initial)
    && s != JobFailed
    && (forall id :: id in w.states ==> w.states[id] != JobFailed)
  }

  lemma CopiesAgree(env: Env, ws: seq<World>, evs: seq<WorldEvent>, k: nat, n: Name)
    requires IsRun(env, ws, evs) && Init(ws[0]) && k < |ws| && n in ws[k].builders
    ensures Agreement(evs, ws[k], k, n)
  {
    InitInv(ws[0]);
    RunInv(env, ws, evs, k);
    assert BuilderInv(ws[k], n);
    if ws[k].restarted {
      RestartedMeans(env, ws, evs, k);
    }
  }

  // ---------------------------------------------------------------- one unfinished job

  // As long as this builder's reconciles leave no debt; the others may.
  lemma StepJobsInv(env: Env, w: World, ev: WorldEvent, n: Name)
    requires Inv(w) && n in w.builders && JobsInv(w.builders[n]) && CanHappen(env, w, ev)
    requires NoDebt(Apply(env, w, ev).builders[n])
    ensures JobsInv(Apply(env, w, ev).builders[n])
  {
    assert BuilderInv(w, n);
    hide BuilderInv, JobsInv;
    if ev.Of? && ev.n == n {
      OwnStepJobs(env, w, ev);
    } else {
      OthersLeaveJobs(env, w, ev, n);
    }
  }

  lemma OwnStepJobs(env: Env, w: World, ev: WorldEvent)
    requires CanHappen(env, w, ev) && ev.Of? && BuilderInv(w, ev.n) && JobsInv(w.builders[ev.n])
    requires NoDebt(Apply(env, w, ev).builders[ev.n])
    ensures JobsInv(Apply(env, w, ev).builders[ev.n])
  {
    hide Step, Enabled, JobsInv, NoDebt;
    StepKeepsJobs(ConfigOf(w, ev.n), ev.e, w.restarted);
  }

  lemma OthersLeaveJobs(env: Env, w: World, ev: WorldEvent, n: Name)
    requires CanHappen(env, w, ev) && n in w.builders && (ev.Of? ==> ev.n != n)
    requires JobsInv(w.builders[n]) && NoDebt(Apply(env, w, ev).builders[n])
    ensures JobsInv(Apply(env, w, ev).builders[n])
  {
    assert Unfinished(Apply(env, w, ev).builders[n].jobs) <= Unfinished(w.builders[n].jobs);
    hide Step, Enabled;
  }

  lemma {:induction false} RunJobsInv(env: Env, ws: seq<World>, evs: seq<WorldEvent>, k: nat, n: Name)
    requires IsRun(env, ws, evs) && Inv(ws[0]) && k < |ws| && n in ws[0].builders && JobsInv(ws[0].builders[n])
    requires forall i :: 0 <= i <= k && n in ws[i].builders ==> NoDebt(ws[i].builders[n])
    ensures n in ws[k].builders && JobsInv(ws[k].builders[n])
  {
    if k > 0 {
      RunJobsInv(env, ws, evs, k - 1, n);
      RunInv(env, ws, evs, k - 1);
      RunStep(env, ws, evs, k - 1);
      assert n in ws[k].builders;
      StepJobsInv(env, ws[k - 1], evs[k - 1], n);
    }
  }

  lemma {:induction false} NoNewBuilders(env: Env, ws: seq<World>, evs: seq<WorldEvent>, k: nat)
    requires IsRun(env, ws, evs) && k < |ws|
    ensures ws[k].builders.Keys == ws[0].builders.Keys
  {
    if k > 0 {
      NoNewBuilders(env, ws, evs, k - 1);
      RunStep(env, ws, evs, k - 1);
    }
  }

  lemma AtMostOneIsSmall<T>(s: set<T>)
    requires AtMostOne(s)
    ensures |s| <= 1
  {
    if s != {} {
      var x :| x in s;
      assert s == {x};
    }
  }

  // As long as each of its reconciles that created a job lands one of its status writes
  // before it stops, a builder never has two unfinished jobs, whatever becomes of the other
  // builders' reconciles; and a reconcile never finds JobCreation stored while one is
  // unfinished.
  lemma OneUnfinishedJob(env: Env, ws: seq<World>, evs: seq<WorldEvent>, k: nat, n: Name)
    requires IsRun(env, ws, evs) && Init(ws[0]) && k < |ws| && n in ws[k].builders
    requires forall i :: 0 <= i <= k && n in ws[i].builders ==> NoDebt(ws[i].builders[n])
    ensures |Unfinished(ws[k].builders[n].jobs)| <= 1
    ensures ws[k].builders[n].phase.Idle? && StoredState(ws[k], n) == JobCreation ==> Unfinished(ws[k].builders[n].jobs) == {}
  {
    InitInv(ws[0]);
    NoNewBuilders(env, ws, evs, k);
    assert n in ws[0].builders;
    RunJobsInv(env, ws, evs, k, n);
    AtMostOneIsSmall(Unfinished(ws[k].builders[n].jobs));
  }

  // ---------------------------------------------------------------- completed builds

  ghost predicate AllEarned(w: World) { forall n :: n in w.builders ==> EarnedInv(w.builders[n]) }

  lemma StepEarned(env: Env, w: World, ev: WorldEvent)
    requires AllEarned(w) && CanHappen(env, w, ev)
    ensures AllEarned(Apply(env, w, ev))
  {
    if ev.Of? {
      StepKeepsEarned(ConfigOf(w, ev.n), ev.e);
      hide Step, Enabled;
    }
  }

  // A build is stored as completed, or as having its image, only if the job that the
  // status names was reported as succeeded.
  lemma {:induction false} CompletedMeansSucceeded(env: Env, ws: seq<World>, evs: seq<WorldEvent>, k: nat, n: Name)
    requires IsRun(env, ws, evs) && Init(ws[0]) && k < |ws| && n in ws[k].builders
    ensures StoredState(ws[k], n) == JobCompleted || StoredState(ws[k], n) == AMICreated ==>
      ws[k].builders[n].stored.jobId in ws[k].builders[n].succeeded
  {
    RunEarned(env, ws, evs, k);
    assert EarnedInv(ws[k].builders[n]);
  }

  lemma {:induction false} RunEarned(env: Env, ws: seq<World>, evs: seq<WorldEvent>, k: nat)
    requires IsRun(env, ws, evs) && Init(ws[0]) && k < |ws|
    ensures AllEarned(ws[k])
  {
    if k > 0 {
      RunEarned(env, ws, evs, k - 1);
      RunStep(env, ws, evs, k - 1);
      StepEarned(env, ws[k - 1], evs[k - 1]);
    }
  }

  // ---------------------------------------------------------------- the image a job is built from

  // With AMI filters set, every job a run ever creates names the base image found by the
  // flight check that let it through.
  lemma JobsNameTheirBase(env: Env, ws: seq<World>, evs: seq<WorldEvent>, k: nat, n: Name)
    requires IsRun(env, ws, evs) && Init(ws[0]) && k < |evs|
    requires evs[k].Of? && evs[k].n == n && evs[k].e.Create? && (evs[k].e.outcome.Made? || evs[k].e.outcome.MadeUnseen?)
    requires n in ws[k].builders && ws[k].builders[n].spec.filtered
    ensures n in ws[k + 1].builders && evs[k].e.jobId in ws[k + 1].builders[n].jobs
    ensures ws[k].builders[n].found == Some(ws[k + 1].builders[n].jobs[evs[k].e.jobId].base)
  {
    InitInv(ws[0]);
    RunInv(env, ws, evs, k);
    assert BuilderInv(ws[k], n);
    CreatedJobNamesFoundBase(ConfigOf(ws[k], n), evs[k].e, ws[k].restarted);
  }

  // ---------------------------------------------------------------- rounds

  lemma StepMoves(env: Env, w: World, ev: WorldEvent, n: Name)
    requires Inv(w) && CanHappen(env, w, ev) && n in w.builders
    ensures n in Apply(env, w, ev).builders
    ensures Moves(StoredState(w, n), StoredState(Apply(env, w, ev), n))
  {
    assert BuilderInv(w, n);
    if ev.Of? && ev.n == n {
      StepDescends(ConfigOf(w, n), ev.e, w.restarted);
    }
  }

  // A builder's stored states along a stretch of a run.
  function Trace(ws: seq<World>, n: Name): (trace: seq<State>)
    requires forall i :: 0 <= i < |ws| ==> n in ws[i].builders
    ensures |trace| == |ws|
    ensures forall i :: 0 <= i < |ws| ==> trace[i] == StoredState(ws[i], n)
  {
    if ws == [] then [] else Trace(ws[..|ws| - 1], n) + [StoredState(ws[|ws| - 1], n)]
  }

  // Between one stay in Initial and the next the stored state changes at most seven times,
  // whatever fails in between: `ws` is any stretch of a run that starts in Initial and does
  // not come back to it before its last world.
  lemma RoundBound(env: Env, ws: seq<World>, evs: seq<WorldEvent>, n: Name)
    requires IsRun(env, ws, evs) && Inv(ws[0]) && |ws| > 1
    requires forall i :: 0 <= i < |ws| ==> n in ws[i].builders
    requires StoredState(ws[0], n) == Initial
    requires forall i :: 0 < i < |ws| - 1 ==> StoredState(ws[i], n) != Initial
    ensures Changes(Trace(ws, n)) <= 7
  {
    var trace := Trace(ws, n);
    forall i | 0 <= i < |trace| - 1 ensures Moves(trace[i], trace[i + 1]) {
      RunInv(env, ws, evs, i);
      StepMoves(env, ws[i], evs[i], n);
    }
    RoundIsShort(trace);
  }

  // ---------------------------------------------------------------- the stuck pair

  lemma {:induction false} StuckUntilRestart(env: Env, ws: seq<World>, evs: seq<WorldEvent>, n: Name, k: nat)
    requires IsRun(env, ws, evs) && Inv(ws[0]) && k < |ws|
    requires n in ws[0].builders && Stuck(ConfigOf(ws[0], n))
    requires forall j :: 0 <= j < k ==> !evs[j].Restart?
    ensures n in ws[k].builders && Stuck(ConfigOf(ws[k], n))
  {
    if k > 0 {
      StuckUntilRestart(env, ws, evs, n, k - 1);
      RunInv(env, ws, evs, k - 1);
      StuckStep(env, ws[k - 1], evs[k - 1], n);
    }
  }

  lemma StuckStep(env: Env, w: World, ev: WorldEvent, n: Name)
    requires Inv(w) && CanHappen(env, w, ev) && !ev.Restart?
    requires n in w.builders && Stuck(ConfigOf(w, n))
    ensures n in Apply(env, w, ev).builders && Stuck(ConfigOf(Apply(env, w, ev), n))
  {
    assert BuilderInv(w, n);
    if ev.Of? && ev.n == n {
      StuckStays(ConfigOf(w, n), ev.e, w.restarted);
    } else if ev.Of? {
      OthersKeepCurrent(env, w, ev, n);
    }
  }

  // A restart is the way out: from there a complete reconcile without faults or waiting
  // exists, and it leaves Error with both copies equal.
  lemma RestartFrees(env: Env, w: World, n: Name) returns (ws: seq<World>, evs: seq<WorldEvent>)
    requires Inv(w) && n in w.builders && Stuck(ConfigOf(w, n))
    ensures IsRun(env, ws, evs) && ws[0] == w && |evs| > 1 && evs[0] == Restart
    ensures forall i :: 0 < i < |evs| ==> evs[i].Of? && evs[i].n == n && Calm(evs[i].e)
    ensures var after := ws[|ws| - 1];
      && n in after.builders && after.builders[n].phase.Idle?
      && StoredState(after, n) != Error && Memory(after, n) == StoredState(after, n)
  {
    var w' := Apply(env, w, Restart);
    StepInv(env, w, Restart);
    assert BuilderInv(w', n);
    var c := ConfigOf(w', n);
    var newId := AnyFresh(w'.owner.Keys);
    var jobId := AnyFresh(c.b.jobs.Keys);
    var es := CalmReconcileExists(c, newId, jobId, true);
    hide *;
    var later, laterEvs := Embed(env, w', n, es);
    ws, evs := [w] + later, [Restart] + laterEvs;
    StartWithRestart(env, w, later, laterEvs);
  }

  lemma StartWithRestart(env: Env, w: World, ws: seq<World>, evs: seq<WorldEvent>)
    requires IsRun(env, ws, evs) && ws[0] == Apply(env, w, Restart)
    ensures IsRun(env, [w] + ws, [Restart] + evs)
  {
    hide Apply;
    forall k | 0 <= k < |[Restart] + evs|
      ensures CanHappen(env, ([w] + ws)[k], ([Restart] + evs)[k])
      ensures ([w] + ws)[k + 1] == Apply(env, ([w] + ws)[k], ([Restart] + evs)[k])
    {
      if k > 0 {
        assert ([Restart] + evs)[k] == evs[k - 1];
      }
    }
  }

  lemma AnyFresh(used: set<string>) returns (unused: string)
    ensures unused != "" && unused !in used
  {
    unused := "u";
    var tried: set<string> := {};
    while unused in used
      invariant unused != "" && tried <= used && forall t :: t in tried ==> |t| < |unused|
      decreases used - tried
    {
      assert unused !in tried;
      tried, unused := tried + {unused}, unused + "u";
    }
  }

  // A builder's own steps, as long as they ask nothing of EC2, can be taken in any world.
  lemma {:induction false} Embed(env: Env, w: World, n: Name, es: seq<Event>) returns (ws: seq<World>, evs: seq<WorldEvent>)
    requires n in w.builders && Replay(ConfigOf(w, n), es).Some? && NoImages(es)
    requires forall i :: 0 <= i < |es| && es[i].Begin? ==> i == 0 && es[i].newId !in w.owner
    ensures IsRun(env, ws, evs) && ws[0] == w && |evs| == |es|
    ensures forall i :: 0 <= i < |es| ==> evs[i] == Of(n, es[i], [])
    ensures n in ws[|es|].builders && ConfigOf(ws[|es|], n) == Replay(ConfigOf(w, n), es).value
  {
    if es == [] {
      return [w], [];
    }
    var last := |es| - 1;
    ws, evs := Embed(env, w, n, es[..last]);
    OwnStep(env, ws[last], n, es[last]);
    RunMore(env, ws, evs, Of(n, es[last], []));
    hide Step, Enabled, Apply, CanHappen, IsRun;
    ws, evs := ws + [Apply(env, ws[last], Of(n, es[last], []))], evs + [Of(n, es[last], [])];
  }

  lemma OwnStep(env: Env, w: World, n: Name, e: Event)
    requires n in w.builders && Enabled(ConfigOf(w, n), e) && NoImages([e]) && (e.Begin? ==> e.newId !in w.owner)
    ensures CanHappen(env, w, Of(n, e, []))
    ensures var w' := Apply(env, w, Of(n, e, [])); n in w'.builders && ConfigOf(w', n) == Step(ConfigOf(w, n), e)
  {
    assert e == [e][0];
    hide Step, Enabled;
  }

  // ---------------------------------------------------------------- the program itself

  // Reconciles of one builder and restarts of the process, between reconciles and inside
  // them, in any order, with everybody else at work in between: what holds in every run
  // holds at every moment of this one.
  method Operate(r: R.PackerBuilderReconciler, turns: nat)
    requires r.Valid() && r.B().phase == Idle && Init(r.ws[0])
    modifies r, r.runner
    ensures r.Valid() && old(r.ws) <= r.ws && old(r.evs) <= r.evs
    ensures forall k :: 0 <= k < |r.ws| && r.n in r.ws[k].builders ==> Agreement(r.evs, r.ws[k], k, r.n)
  {
    InitInv(r.ws[0]);
    hide Init, IsRun, Inv, Agreement;
    for i := 0 to turns
      invariant r.Valid() && r.B().phase == Idle && old(r.ws) <= r.ws && old(r.evs) <= r.evs
    {
      var restart: bool := *;
      var inside: bool := *;
      if restart && inside {
        r.ReconcileKilled();
      } else if restart {
        r.Restarted();
      } else {
        r.Reconcile();
      }
    }
    forall k | 0 <= k < |r.ws| && r.n in r.ws[k].builders ensures Agreement(r.evs, r.ws[k], k, r.n) {
      CopiesAgree(r.env, r.ws, r.evs, k, r.n);
    }
  }
}
