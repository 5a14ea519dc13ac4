// From the flight check to the script of the job: what the builds of a created job set
// ami_id to, and what the shell makes of the script.
module JobCommands {
  import opened Options
  import opened Protocol
  import opened World
  import Runs
  import C = Commands
  import Rendering
  import Settings
  import Shell
  import Script
  import AsWritten

  // Event `k` creates a job of builder `n`, which has AMI filters, from the command list
  // `xs`; `lines` are the texts of the commands it emits.
  ghost predicate CreatesFrom(env: Env, ws: seq<World>, evs: seq<WorldEvent>, k: nat, n: Name,
                              cfg: C.Config, xs: seq<C.Command>, lines: seq<string>)
  {
    && IsRun(env, ws, evs) && Init(ws[0]) && k < |evs| && n in ws[k].builders && ws[k].builders[n].spec.filtered
    && evs[k].Of? && evs[k].n == n && evs[k].e.Create? && (evs[k].e.outcome.Made? || evs[k].e.outcome.MadeUnseen?)
    && cfg.filtered && cfg.baseImage == ws[k].builders[n].pb.base
    && Rendering.RendersAll(lines, Emitted(cfg, xs))
  }

  function Emitted(cfg: C.Config, xs: seq<C.Command>): seq<C.Command> { C.Emitted(C.Normal(cfg, xs), false) }

  // In any run, a created job is recorded with the base image that the last flight check
  // found, and every build of its command names that image in its ami_id variable. The line
  // of the build sets ami_id just once, as text, if and only if its texts leave that name
  // alone.
  lemma BuildsRunWithTheirBase(env: Env, ws: seq<World>, evs: seq<WorldEvent>, k: nat, n: Name,
                               cfg: C.Config, xs: seq<C.Command>, lines: seq<string>, i: nat)
    requires CreatesFrom(env, ws, evs, k, n, cfg, xs, lines)
    requires i < |lines| && Emitted(cfg, xs)[i].subCommand == C.Build
    ensures n in ws[k + 1].builders && evs[k].e.jobId in ws[k + 1].builders[n].jobs
    ensures var c := Emitted(cfg, xs)[i];
      var base := ws[k + 1].builders[n].jobs[evs[k].e.jobId].base;
      && ws[k].builders[n].found == Some(base)
      && C.AMI_ID in Rendering.Vars(c) && Rendering.Vars(c)[C.AMI_ID] == base
      && (Settings.Once(lines[i], C.AMI_ID) <==> Settings.LeaveAlone(c, C.AMI_ID))
  {
    var c := Emitted(cfg, xs)[i];
    Runs.JobsNameTheirBase(env, ws, evs, k, n);
    JobNamesLocalBase(env, ws, evs, k, n);
    hide Settings.Once, Settings.LeaveAlone, IsRun, Init, Rendering.RendersAll;
    Settings.BuildsAreFilledIn(cfg, xs, c);
    Settings.EveryBuildSetsOnce(cfg, xs, lines, i);
  }

  lemma JobNamesLocalBase(env: Env, ws: seq<World>, evs: seq<WorldEvent>, k: nat, n: Name)
    requires IsRun(env, ws, evs) && k < |evs| && n in ws[k].builders
    requires evs[k].Of? && evs[k].n == n && evs[k].e.Create? && (evs[k].e.outcome.Made? || evs[k].e.outcome.MadeUnseen?)
    ensures n in ws[k + 1].builders && evs[k].e.jobId in ws[k + 1].builders[n].jobs
    ensures ws[k + 1].builders[n].jobs[evs[k].e.jobId].base == ws[k].builders[n].pb.base
  {
    RunStep(env, ws, evs, k);
  }

  // The script of a filtered job. The shell reads it as two echoes and then the job's
  // commands, word for word, if and only if every text stands for itself and the echo's copy
  // gets back to its quotes. The words so meant of a build set ami_id, and region, exactly
  // once if and only if no variable's name begins with that name and an equals sign and the
  // build's arguments do not set it.
  lemma ScriptRunsTheCommands(cfg: C.Config, xs: seq<C.Command>, lines: seq<string>, orders: seq<seq<string>>)
    requires cfg.filtered && AsWritten.AreLines(lines, Emitted(cfg, xs), orders)
    ensures AsWritten.RunsAsMeant(lines, Emitted(cfg, xs), orders) <==>
      (forall i :: 0 <= i < |lines| ==> AsWritten.Literal(Emitted(cfg, xs)[i])) && Shell.Through(Rendering.Join(lines, " && "))
    ensures forall i, v :: 0 <= i < |lines| && Emitted(cfg, xs)[i].subCommand == C.Build && v in {C.AMI_ID, C.REGION} ==>
      SetOnlyByOwnFlag(Emitted(cfg, xs)[i], orders[i], v)
  {
    var cmds := Emitted(cfg, xs);
    hide Shell.Through, AsWritten.Literal, AsWritten.RunsAsMeant;
    AsWritten.ScriptRunsAsMeant(lines, cmds, orders);
    forall i, v | 0 <= i < |lines| && cmds[i].subCommand == C.Build && v in {C.AMI_ID, C.REGION}
      ensures SetOnlyByOwnFlag(cmds[i], orders[i], v)
    {
      Settings.BuildsAreFilledIn(cfg, xs, cmds[i]);
      OwnFlagIsWalked(cmds[i], orders[i], v);
    }
  }

  // In the script of any job that runs as meant, after the two echoes, come a `packer init`,
  // a `packer validate` and, at once or later, a `packer build`.
  lemma ScriptBegins(cfg: C.Config, xs: seq<C.Command>, lines: seq<string>, orders: seq<seq<string>>)
    requires AsWritten.AreLines(lines, Emitted(cfg, xs), orders) && AsWritten.RunsAsMeant(lines, Emitted(cfg, xs), orders)
    ensures var commands := Shell.CommandsOf(Shell.ScriptOf(lines)).GetOr([]);
      && |commands| >= 5
      && commands[0] == ["echo", "Executing command:"] && commands[1] != [] && commands[1][0] == "echo"
      && ["packer", "init"] <= commands[2] && ["packer", "validate"] <= commands[3]
      && exists i :: 4 <= i < |commands| && ["packer", "build"] <= commands[i]
  {
    C.EmittedForJob(cfg, xs);
    var cmds := Emitted(cfg, xs);
    var b := C.IndexOf(C.Normal(cfg, xs), C.Build);
    hide C.Normal, C.Emitted, Script.FixedFlags, Script.FlagWords, Rendering.Directory, Rendering.Parts;
    hide Shell.CommandsOf, Shell.ScriptOf;
    var echoed :| Shell.CommandsOf(Shell.ScriptOf(lines)) ==
      Some([Shell.Banner, ["echo"] + echoed] + Script.MeantAll(cmds, orders));
    var commands := Shell.CommandsOf(Shell.ScriptOf(lines)).value;
    MeantBegins(cmds[0], orders[0]);
    MeantBegins(cmds[1], orders[1]);
    MeantBegins(cmds[b], orders[b]);
    assert commands[2] == Script.Meant(cmds[0], orders[0]) && commands[3] == Script.Meant(cmds[1], orders[1]);
    assert commands[2 + b] == Script.Meant(cmds[b], orders[b]);
  }

  lemma MeantBegins(c: C.Command, order: seq<string>)
    requires Rendering.IsOrder(order, Rendering.Vars(c))
    ensures c.subCommand == C.Init ==> ["packer", "init"] <= Script.Meant(c, order)
    ensures c.subCommand == C.Validate ==> ["packer", "validate"] <= Script.Meant(c, order)
    ensures c.subCommand == C.Build ==> ["packer", "build"] <= Script.Meant(c, order)
  {
    hide Script.FixedFlags, Script.FlagWords, Rendering.Directory;
    var words := Script.Meant(c, order);
    assert words[..2] == [words[0], words[1]];
  }

  // The lines of a job's script are those of its commands for some walks of their variables.
  lemma LinesHaveOrders(cfg: C.Config, xs: seq<C.Command>, lines: seq<string>) returns (orders: seq<seq<string>>)
    requires cfg.filtered && Rendering.RendersAll(lines, Emitted(cfg, xs))
    ensures AsWritten.AreLines(lines, Emitted(cfg, xs), orders)
  {
    var cmds := Emitted(cfg, xs);
    C.EmittedForJob(cfg, xs);
    hide Rendering.Parts, C.Emitted, C.Normal;
    orders := [];
    for n := 0 to |cmds|
      invariant |orders| == n
      invariant forall i :: 0 <= i < n ==>
        Rendering.IsOrder(orders[i], Rendering.Vars(cmds[i])) && lines[i] == Rendering.Join(Rendering.Parts(cmds[i], orders[i]), " ")
    {
      assert Rendering.Renders(lines[n], cmds[n]);
      var order :| Rendering.IsOrder(order, Rendering.Vars(cmds[n])) && lines[n] == Rendering.Join(Rendering.Parts(cmds[n], order), " ");
      orders := orders + [order];
    }
  }

  ghost predicate SetOnlyByOwnFlag(c: C.Command, order: seq<string>, v: string)
    requires Rendering.IsOrder(order, Rendering.Vars(c))
  {
    Script.SetsOnce(Script.Meant(c, order), v) <==>
      (forall k :: k in Rendering.Vars(c) ==> !(v + "=" <= k)) && (forall j :: !Script.SetsAt(c.args, j, v))
  }

  lemma OwnFlagIsWalked(c: C.Command, order: seq<string>, v: string)
    requires c.subCommand == C.Build && Rendering.IsOrder(order, Rendering.Vars(c)) && v in Rendering.Vars(c)
    requires v in {C.AMI_ID, C.REGION}
    ensures SetOnlyByOwnFlag(c, order, v)
  {
    assert v in order;
    var own :| 0 <= own < |order| && order[own] == v;
    assert Settings.Name(v);
    hide *;
    Script.MeantSetsOnce(c, order, own, v);
  }
}
