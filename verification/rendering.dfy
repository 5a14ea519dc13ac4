// From the command list to the shell line of the job: Command.String, buildFlags and
// ConstructCommand. Go walks a map in any order, so the order of the variable flags is
// left open: `order` is some listing of the variable names.
module Rendering {
  import opened Options
  import opened Slices
  import opened Commands

  function Join(parts: seq<string>, separator: string): string {
    if parts == [] then ""
    else if |parts| == 1 then parts[0]
    else parts[0] + separator + Join(parts[1..], separator)
  }

  function SubText(sub: SubCommand): string {
    match sub
    case Init => "init"
    case Validate => "validate"
    case Build => "build"
    case OtherSub(name) => name
  }

  function Vars(c: Command): map<string, string> { c.variables.GetOr(map[]) }

  // `order` lists the keys of `m`, each once.
  ghost predicate IsOrder(order: seq<string>, m: map<string, string>) {
    && (forall i, j :: 0 <= i < j < |order| ==> order[i] != order[j])
    && (forall k :: k in order <==> k in m)
  }

  function VarFlag(key: string, value: string): string { "-var '" + key + "=" + value + "'" }

  function VarFlags(m: map<string, string>, order: seq<string>): (flags: seq<string>)
    requires forall k :: k in order ==> k in m
    ensures |flags| == |order| && forall i :: 0 <= i < |order| ==> flags[i] == VarFlag(order[i], m[order[i]])
  {
    seq(|order|, i requires 0 <= i < |order| => VarFlag(order[i], m[order[i]]))
  }

  function OtherFlags(c: Command): seq<string> {
    (if c.variablesFile != "" then ["-var-file=" + c.variablesFile] else [])
    + (if c.debug then ["-debug"] else [])
    + (if c.onError != "" then ["-on-error=" + c.onError] else [])
    + (if !c.color then ["-color=false"] else [])
  }

  // One flag per variable, for some walk of the map, and then the fixed flags.
  ghost predicate FlagsOf(flags: seq<string>, c: Command) {
    exists order :: IsOrder(order, Vars(c)) && flags == VarFlags(Vars(c), order) + OtherFlags(c)
  }

  method BuildFlags(c: Command) returns (flags: seq<string>)
    ensures FlagsOf(flags, c)
  {
    flags := [];
    ghost var order := [];
    var variables := Vars(c);
    var left := variables.Keys;
    while left != {}
      invariant forall k :: k in variables <==> k in left || k in order
      invariant forall k :: k in order ==> k !in left
      invariant forall i, j :: 0 <= i < j < |order| ==> order[i] != order[j]
      invariant flags == VarFlags(variables, order)
      decreases left
    {
      var key :| key in left;
      left := left - {key};
      flags := flags + ["-var '" + key + "=" + variables[key] + "'"];
      order := order + [key];
    }
    var others := BuildOtherFlags(c);
    flags := flags + others;
  }

  method BuildOtherFlags(c: Command) returns (flags: seq<string>)
    ensures flags == OtherFlags(c)
    ensures flags == (if c.variablesFile == "" then [] else ["-var-file=" + c.variablesFile])
                     + (if c.debug then ["-debug"] else [])
                     + (if c.onError == "" then [] else ["-on-error=" + c.onError])
                     + (if c.color then [] else ["-color=false"])
  {
    flags := [];
    if c.variablesFile != "" {
      flags := flags + ["-var-file=" + c.variablesFile];
    }
    if c.debug {
      flags := flags + ["-debug"];
    }
    if c.onError != "" {
      flags := flags + ["-on-error=" + c.onError];
    }
    if !c.color {
      flags := flags + ["-color=false"];
    }
  }

  function Directory(c: Command): seq<string> { if c.workingDir != "" then [c.workingDir] else [] }

  function Parts(c: Command, order: seq<string>): seq<string>
    requires forall k :: k in order ==> k in Vars(c)
  {
    ["packer", SubText(c.subCommand)] + c.args
    + (if c.subCommand == Build then VarFlags(Vars(c), order) + OtherFlags(c) else [])
    + Directory(c)
  }

  // The line is the command's text for some walk of its variables.
  ghost predicate Renders(line: string, c: Command) {
    exists order :: IsOrder(order, Vars(c)) && line == Join(Parts(c, order), " ")
  }

  method CommandString(c: Command) returns (line: string)
    ensures Renders(line, c)
    ensures c.subCommand == Init ==> "packer init" <= line
    ensures c.subCommand == Validate ==> "packer validate" <= line
    ensures c.subCommand == Build ==> "packer build" <= line
    ensures c.subCommand.OtherSub? ==> "packer " + c.subCommand.name <= line
    ensures c.workingDir != "" ==> Ends(line, " " + c.workingDir)
  {
    var parts := ["packer", SubText(c.subCommand)];
    parts := parts + c.args;
    var flags := BuildFlags(c);
    ghost var order :| IsOrder(order, Vars(c)) && flags == VarFlags(Vars(c), order) + OtherFlags(c);
    if c.subCommand == Build {
      parts := parts + flags;
    }
    if c.workingDir != "" {
      parts := parts + [c.workingDir];
    }
    line := Join(parts, " ");
    assert parts == Parts(c, order);
    TextBegins(c, line);
    if c.workingDir != "" {
      JoinEnds(parts, " ");
    }
  }

  predicate Ends(text: string, end: string) { |end| <= |text| && text[|text| - |end|..] == end }

  lemma {:induction false} JoinEnds(parts: seq<string>, separator: string)
    requires |parts| >= 2
    ensures Ends(Join(parts, separator), separator + parts[|parts| - 1])
  {
    var rest := Join(parts[1..], separator);
    assert Join(parts, separator) == parts[0] + separator + rest;
    if |parts| > 2 {
      JoinEnds(parts[1..], separator);
    } else {
      assert parts[1..] == [parts[1]];
    }
  }

  // The text of a command begins with the words of its kind.
  lemma TextBegins(c: Command, line: string)
    requires Renders(line, c)
    ensures c.subCommand == Init ==> "packer init" <= line
    ensures c.subCommand == Validate ==> "packer validate" <= line
    ensures c.subCommand == Build ==> "packer build" <= line
    ensures c.subCommand.OtherSub? ==> "packer " + c.subCommand.name <= line
  {
    var order :| IsOrder(order, Vars(c)) && line == Join(Parts(c, order), " ");
    var parts := Parts(c, order);
    assert parts[0] == "packer" && parts[1] == SubText(c.subCommand) && |parts| >= 2;
    hide Parts, Renders, IsOrder;
    JoinBegins(parts, " ");
    assert "packer" + " " + "init" == "packer init" && "packer" + " " + "validate" == "packer validate";
    assert "packer" + " " + "build" == "packer build" && "packer" + " " == "packer ";
  }

  lemma JoinBegins(parts: seq<string>, separator: string)
    requires |parts| >= 2
    ensures parts[0] + separator + parts[1] <= Join(parts, separator)
  {
    var rest := Join(parts[1..], separator);
    assert parts[1..][0] == parts[1];
    assert parts[1] <= rest by {
      if |parts| > 2 {
        assert rest == parts[1] + (separator + Join(parts[2..], separator)) by {
          assert parts[1..][1..] == parts[2..];
        }
      }
    }
    assert parts[0] + separator + parts[1] + rest[|parts[1]|..] == parts[0] + separator + rest;
  }

  ghost predicate RendersAll(lines: seq<string>, cmds: seq<Command>) {
    |lines| == |cmds| && forall i :: 0 <= i < |lines| ==> Renders(lines[i], cmds[i])
  }

  lemma RendersOneMore(lines: seq<string>, cmds: seq<Command>, line: string, cmd: Command)
    requires RendersAll(lines, cmds) && Renders(line, cmd)
    ensures RendersAll(lines + [line], cmds + [cmd])
  {}

  // The job's shell line joins, in order, one rendering of each emitted command of the
  // normalised list.
  method ConstructCommand(cfg: Config, s: Slice<Command>) returns (r: Slice<Command>, command: string, lines: seq<string>)
    requires Valid(s)
    modifies s.a
    ensures Valid(r) && Elems(r) == Normal(cfg, old(Elems(s)))
    ensures command == Join(lines, " && ")
    ensures RendersAll(lines, Emitted(Normal(cfg, old(Elems(s))), false))
    ensures |lines| >= 3 && "packer init" <= lines[0] && "packer validate" <= lines[1] && "packer build" <= lines[|lines| - 1]
  {
    hide Emitted, Normal, RendersAll;
    r := EnsureDefaultCommands(cfg, s);
    lines := RenderCommands(r);
    LinesBegin(cfg, old(Elems(s)), lines);
    command := Join(lines, " && ");
  }

  // Whatever the user's commands: the lines of a job begin with an init, then a validate, and
  // end with a build.
  lemma LinesBegin(cfg: Config, xs: seq<Command>, lines: seq<string>)
    requires RendersAll(lines, Emitted(Normal(cfg, xs), false))
    ensures |lines| >= 3 && "packer init" <= lines[0] && "packer validate" <= lines[1] && "packer build" <= lines[|lines| - 1]
  {
    EmittedForJob(cfg, xs);
    var cmds, last := Emitted(Normal(cfg, xs), false), |lines| - 1;
    hide Emitted, Normal, Renders;
    TextBegins(cmds[0], lines[0]);
    TextBegins(cmds[1], lines[1]);
    TextBegins(cmds[last], lines[last]);
  }

  method RenderCommands(s: Slice<Command>) returns (lines: seq<string>)
    requires Valid(s)
    ensures RendersAll(lines, Emitted(Elems(s), false))
  {
    hide Emitted, RendersAll;
    ghost var all := Elems(s);
    ghost var done: seq<Command> := [];
    lines := [];
    NothingYet();
    var seenBuild := false;
    assert all[0..] == all;
    for i := 0 to s.len
      invariant done + Emitted(all[i..], seenBuild) == Emitted(all, false)
      invariant RendersAll(lines, done)
    {
      var cmd := s.a[i];
      assert cmd == all[i];
      EmittedStep(done, all, i, seenBuild);
      if cmd.subCommand == Build {
        seenBuild := true;
      }
      if !seenBuild || cmd.subCommand == Build {
        var line := CommandString(cmd);
        RendersOneMore(lines, done, line, cmd);
        lines := lines + [line];
        done := done + [cmd];
      }
    }
    EmittedEnd(all[s.len..], seenBuild);
    assert done + [] == done;
  }

  lemma NothingYet()
    ensures RendersAll([], [])
  {}

  lemma EmittedStep(done: seq<Command>, xs: seq<Command>, i: nat, seenBuild: bool)
    requires i < |xs|
    ensures var seen := seenBuild || xs[i].subCommand == Build;
      done + Emitted(xs[i..], seenBuild)
      == (if !seen || xs[i].subCommand == Build then done + [xs[i]] else done) + Emitted(xs[i + 1..], seen)
  {
    assert xs[i..][0] == xs[i] && xs[i..][1..] == xs[i + 1..];
  }

  lemma EmittedEnd(xs: seq<Command>, seenBuild: bool)
    requires xs == []
    ensures Emitted(xs, seenBuild) == []
  {}

  // ---------------------------------------------------------------- the variables of a build

  // Among a filled-in build's variable flags, one names the base image, one the region, and
  // each other user variable is there once with its value; nothing else is.
  lemma BuildVariables(cfg: Config, c: Command, order: seq<string>)
    requires c.subCommand == Build && cfg.filtered && IsOrder(order, Vars(Updated(cfg, c)))
    ensures var flags := VarFlags(Vars(Updated(cfg, c)), order);
      && (exists i :: 0 <= i < |order| && order[i] == AMI_ID && flags[i] == "-var 'ami_id=" + cfg.baseImage + "'")
      && (exists i :: 0 <= i < |order| && order[i] == REGION && flags[i] == "-var 'region=" + cfg.region + "'")
      && (forall k :: k in Vars(c) && k != AMI_ID && k != REGION ==>
            exists i :: 0 <= i < |order| && order[i] == k && flags[i] == VarFlag(k, Vars(c)[k]))
      && (forall i, j :: 0 <= i < j < |order| ==> order[i] != order[j])
      && (forall i :: 0 <= i < |order| ==> order[i] in Vars(c) || order[i] == AMI_ID || order[i] == REGION)
  {
    UpdatedFrame(cfg, c);
    var m := Vars(Updated(cfg, c));
    assert AMI_ID in m && REGION in m;
    assert AMI_ID in order && REGION in order;
    assert VarFlag(AMI_ID, cfg.baseImage) == "-var 'ami_id=" + cfg.baseImage + "'";
    assert VarFlag(REGION, cfg.region) == "-var 'region=" + cfg.region + "'";
  }
}
