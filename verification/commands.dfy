// The command list of a Packer job (pkg/manager_packer/command.go and Command.String of
// api/ami/v1alpha1/packerbuilder_types.go).
module Commands {
  import opened Options
  import opened Slices

  datatype SubCommand = Init | Validate | Build | OtherSub(name: string)

  // `variables` is None for a nil map.
  datatype Command = Command(
    subCommand: SubCommand, args: seq<string>, color: bool, debug: bool, onError: string,
    variables: Option<map<string, string>>, variablesFile: string, workingDir: string)

  function Default(sub: SubCommand): Command { Command(sub, [], false, false, "", None, "", "") }

  // What updateCommand reads of the builder: `filtered` says that AMIFilters is not nil.
  datatype Config = Config(dir: string, filtered: bool, baseImage: string, region: string)

  const AMI_ID := "ami_id"
  const REGION := "region"

  // ---------------------------------------------------------------- finding and placing

  function IndexOf(xs: seq<Command>, sub: SubCommand): (i: int)
    ensures -1 <= i < |xs|
    ensures i >= 0 ==> xs[i].subCommand == sub && forall j :: 0 <= j < i ==> xs[j].subCommand != sub
    ensures i == -1 ==> forall j :: 0 <= j < |xs| ==> xs[j].subCommand != sub
  {
    if xs == [] then -1
    else if xs[0].subCommand == sub then 0
    else
      var i := IndexOf(xs[1..], sub);
      if i == -1 then -1 else i + 1
  }

  method FindCommandIndex(s: Slice<Command>, sub: SubCommand) returns (index: int)
    requires Valid(s)
    ensures index == IndexOf(Elems(s), sub)
  {
    for i := 0 to s.len
      invariant forall j :: 0 <= j < i ==> Elems(s)[j].subCommand != sub
    {
      if s.a[i].subCommand == sub {
        return i;
      }
    }
    return -1;
  }

  // The list without its first command of a kind.
  function Without(xs: seq<Command>, sub: SubCommand): seq<Command> {
    var i := IndexOf(xs, sub);
    if i == -1 then xs else Removed(xs, i)
  }

  // The first command of a kind, or the default one.
  function FirstOr(xs: seq<Command>, sub: SubCommand): (c: Command)
    ensures c.subCommand == sub
  {
    var i := IndexOf(xs, sub);
    if i == -1 then Default(sub) else xs[i]
  }

  // The kind's first command, or a new default one, comes to stand at `index`; the others
  // keep their order. The list must reach to `index` (Go would panic on a shorter one).
  method EnsureCommandAt(s: Slice<Command>, index: nat, sub: SubCommand) returns (r: Slice<Command>)
    requires Valid(s) && index <= s.len
    requires IndexOf(Elems(s), sub) == -1 || index < s.len
    modifies s.a
    ensures Valid(r) && (r.a == s.a || fresh(r.a))
    ensures index <= |Without(old(Elems(s)), sub)|
    ensures Elems(r) == Inserted(Without(old(Elems(s)), sub), index, FirstOr(old(Elems(s)), sub))
  {
    ghost var xs := Elems(s);
    var existingIndex := FindCommandIndex(s, sub);
    if existingIndex != -1 {
      r := s;
      if existingIndex != index {
        r := MoveCommandToIndex(s, existingIndex, index);
      } else {
        assert Inserted(Removed(xs, index), index, xs[index]) == xs;
      }
    } else if index >= s.len {
      r := Append(s, [Default(sub)]);
      assert Inserted(xs, index, Default(sub)) == xs + [Default(sub)];
    } else {
      r := InsertAt(s, index, Default(sub));
    }
  }

  // ---------------------------------------------------------------- the normal form

  // The list every job is built from, before directories and variables are filled in.
  function Shape(xs: seq<Command>): seq<Command> {
    var rest := Without(Without(xs, Init), Validate);
    [FirstOr(xs, Init), FirstOr(xs, Validate)] + rest + (if IndexOf(xs, Build) == -1 then [Default(Build)] else [])
  }

  function WithVariables(cfg: Config, variables: Option<map<string, string>>): map<string, string> {
    variables.GetOr(map[])[AMI_ID := cfg.baseImage][REGION := cfg.region]
  }

  function Updated(cfg: Config, c: Command): Command {
    var c' := if c.workingDir == "" && cfg.dir != "" then c.(workingDir := cfg.dir + "/") else c;
    if c.subCommand == Build && cfg.filtered then c'.(variables := Some(WithVariables(cfg, c.variables))) else c'
  }

  function UpdatedAll(cfg: Config, xs: seq<Command>): (ys: seq<Command>)
    ensures |ys| == |xs| && forall i :: 0 <= i < |xs| ==> ys[i] == Updated(cfg, xs[i])
  {
    seq(|xs|, i requires 0 <= i < |xs| => Updated(cfg, xs[i]))
  }

  function Normal(cfg: Config, xs: seq<Command>): seq<Command> { UpdatedAll(cfg, Shape(xs)) }

  method UpdateCommand(cfg: Config, s: Slice<Command>, index: nat)
    requires Valid(s) && index < s.len
    modifies s.a
    ensures s.a[..] == old(s.a[..])[index := Updated(cfg, old(s.a[index]))]
  {
    var cmd := s.a[index];
    if cmd.workingDir == "" && cfg.dir != "" {
      cmd := cmd.(workingDir := cfg.dir + "/");
    }
    if cmd.subCommand == Build && cfg.filtered {
      if cmd.variables == None {
        cmd := cmd.(variables := Some(map[]));
      }
      cmd := cmd.(variables := Some(cmd.variables.value[AMI_ID := cfg.baseImage]));
      cmd := cmd.(variables := Some(cmd.variables.value[REGION := cfg.region]));
    }
    s.a[index] := cmd;
  }

  method EnsureDefaultCommands(cfg: Config, s: Slice<Command>) returns (r: Slice<Command>)
    requires Valid(s)
    modifies s.a
    ensures Valid(r) && (r.a == s.a || fresh(r.a))
    ensures Elems(r) == Normal(cfg, old(Elems(s)))
  {
    hide IndexOf, FirstOr, Without, Inserted, Elems, UpdatedAll;
    ghost var xs := Elems(s);
    r := EnsureCommandAt(s, 0, Init);
    ghost var ys := Elems(r);
    AfterInit(xs, ys);
    r := EnsureCommandAt(r, 1, Validate);
    ghost var zs := Elems(r);
    AfterValidate(xs, ys, zs);
    var buildIndex := FindCommandIndex(r, Build);
    if buildIndex == -1 {
      r := Append(r, [Default(Build)]);
    } else if buildIndex < 2 {
      // Unreachable: init and validate stand before it.
      assert false;
    }
    assert Elems(r) == Shape(xs);
    UpdateAll(cfg, r);
  }

  method UpdateAll(cfg: Config, s: Slice<Command>)
    requires Valid(s)
    modifies s.a
    ensures Elems(s) == UpdatedAll(cfg, old(Elems(s)))
  {
    hide Updated;
    ghost var xs := Elems(s);
    for i := 0 to s.len
      invariant forall k :: 0 <= k < i ==> s.a[k] == Updated(cfg, xs[k])
      invariant forall k :: i <= k < s.len ==> s.a[k] == xs[k]
    {
      ghost var before := s.a[..];
      UpdateCommand(cfg, s, i);
      assert forall k :: 0 <= k < s.a.Length ==> s.a[k] == s.a[..][k] == before[i := Updated(cfg, before[i])][k];
    }
  }

  lemma AfterInit(xs: seq<Command>, ys: seq<Command>)
    requires ys == Inserted(Without(xs, Init), 0, FirstOr(xs, Init))
    ensures ys == [FirstOr(xs, Init)] + Without(xs, Init)
    ensures (IndexOf(ys, Validate) == -1) == (IndexOf(xs, Validate) == -1) && FirstOr(ys, Validate) == FirstOr(xs, Validate)
    ensures Without(ys, Validate) == [FirstOr(xs, Init)] + Without(Without(xs, Init), Validate)
    ensures |ys| >= 1 && (IndexOf(ys, Validate) >= 0 ==> |ys| > 1)
  {
    var rest := Without(xs, Init);
    RemovalKeepsFirst(xs, Init, Validate);
    PrependKeepsFirst(FirstOr(xs, Init), rest, Validate);
  }

  lemma AfterValidate(xs: seq<Command>, ys: seq<Command>, zs: seq<Command>)
    requires ys == [FirstOr(xs, Init)] + Without(xs, Init)
    requires FirstOr(ys, Validate) == FirstOr(xs, Validate)
    requires Without(ys, Validate) == [FirstOr(xs, Init)] + Without(Without(xs, Init), Validate)
    requires zs == Inserted(Without(ys, Validate), 1, FirstOr(ys, Validate))
    ensures zs == [FirstOr(xs, Init), FirstOr(xs, Validate)] + Without(Without(xs, Init), Validate)
    ensures (IndexOf(zs, Build) == -1) == (IndexOf(xs, Build) == -1)
    ensures IndexOf(zs, Build) != -1 ==> IndexOf(zs, Build) >= 2
  {
    hide IndexOf, FirstOr, Without;
    var i, v, rest := FirstOr(xs, Init), FirstOr(xs, Validate), Without(Without(xs, Init), Validate);
    BuildSurvives(xs);
    PrependKeepsFirst(v, rest, Build);
    PrependKeepsFirst(i, [v] + rest, Build);
    assert zs == [i] + ([v] + rest);
    assert zs == [i, v] + rest;
  }

  lemma BuildSurvives(xs: seq<Command>)
    ensures (IndexOf(Without(Without(xs, Init), Validate), Build) == -1) == (IndexOf(xs, Build) == -1)
  {
    RemovalKeepsFirst(xs, Init, Build);
    RemovalKeepsFirst(Without(xs, Init), Validate, Build);
  }

  lemma IndexUnique(xs: seq<Command>, sub: SubCommand, i: nat)
    requires i < |xs| && xs[i].subCommand == sub && forall j :: 0 <= j < i ==> xs[j].subCommand != sub
    ensures IndexOf(xs, sub) == i
  {}

  lemma RemovalKeepsFirst(xs: seq<Command>, gone: SubCommand, sub: SubCommand)
    requires gone != sub
    ensures (IndexOf(Without(xs, gone), sub) == -1) == (IndexOf(xs, sub) == -1)
    ensures FirstOr(Without(xs, gone), sub) == FirstOr(xs, sub)
  {
    hide IndexOf;
    var g, i := IndexOf(xs, gone), IndexOf(xs, sub);
    if g != -1 {
      var ys := Removed(xs, g);
      assert forall j :: 0 <= j < |ys| ==> ys[j] == xs[if j < g then j else j + 1];
      if i != -1 {
        IndexUnique(ys, sub, if i < g then i else i - 1);
      }
    }
  }

  lemma PrependKeepsFirst(x: Command, xs: seq<Command>, sub: SubCommand)
    requires x.subCommand != sub
    ensures IndexOf([x] + xs, sub) == if IndexOf(xs, sub) == -1 then -1 else IndexOf(xs, sub) + 1
    ensures FirstOr([x] + xs, sub) == FirstOr(xs, sub)
    ensures Without([x] + xs, sub) == [x] + Without(xs, sub)
  {
    assert ([x] + xs)[1..] == xs;
    var i := IndexOf(xs, sub);
    if i != -1 {
      assert Removed([x] + xs, i + 1) == [x] + Removed(xs, i);
    }
  }

  // ---------------------------------------------------------------- what the normal form promises

  function Count(xs: seq<Command>, sub: SubCommand): nat {
    if xs == [] then 0 else Count(xs[1..], sub) + (if xs[0].subCommand == sub then 1 else 0)
  }

  lemma NormalStarts(cfg: Config, xs: seq<Command>)
    ensures var n := Normal(cfg, xs);
      && |n| >= 3 && n[0].subCommand == Init && n[1].subCommand == Validate
      && exists i :: 2 <= i < |n| && n[i].subCommand == Build
  {
    hide IndexOf, FirstOr, Without;
    var rest := Without(Without(xs, Init), Validate);
    BuildSurvives(xs);
    var n, shape := Normal(cfg, xs), Shape(xs);
    assert n[0].subCommand == shape[0].subCommand && n[1].subCommand == shape[1].subCommand;
    var i := if IndexOf(xs, Build) == -1 then |rest| else IndexOf(rest, Build);
    assert shape[2 + i].subCommand == Build;
    assert n[2 + i].subCommand == Build;
  }

  // A kind that was missing is added without arguments, flags or variables.
  lemma AddedAreBare(xs: seq<Command>, sub: SubCommand)
    requires sub == Init || sub == Validate || sub == Build
    requires forall i :: 0 <= i < |xs| ==> xs[i].subCommand != sub
    ensures Command(sub, [], false, false, "", None, "", "") in Shape(xs)
  {
    var shape := Shape(xs);
    assert shape[0] == FirstOr(xs, Init) && shape[1] == FirstOr(xs, Validate);
    if sub == Build {
      assert shape[|shape| - 1] == Default(Build);
    }
  }

  // Each of the user's commands is kept exactly once, nothing else is added but the kinds
  // that were missing; and without their first init and first validate, the user's list
  // and the result read the same.
  lemma ShapeConserves(xs: seq<Command>)
    ensures multiset(Shape(xs)) == multiset(xs) + Added(xs, Init) + Added(xs, Validate) + Added(xs, Build)
    ensures Without(Without(xs, Init), Validate) <= Shape(xs)[2..]
    ensures IndexOf(xs, Build) != -1 ==> Shape(xs)[2..] == Without(Without(xs, Init), Validate)
  {
    hide IndexOf, FirstOr, Without, Shape;
    var once := Without(xs, Init);
    var rest := Without(once, Validate);
    TakingOut(xs, Init);
    RemovalKeepsFirst(xs, Init, Validate);
    TakingOut(once, Validate);
    var last := if IndexOf(xs, Build) == -1 then [Default(Build)] else [];
    ShapeParts(xs, last);
    Sums(multiset(Shape(xs)), multiset{FirstOr(xs, Init)}, multiset{FirstOr(xs, Validate)}, multiset(rest), multiset(once),
         multiset(xs), Added(xs, Init), Added(xs, Validate), multiset(last));
  }

  lemma ShapeParts(xs: seq<Command>, last: seq<Command>)
    requires last == if IndexOf(xs, Build) == -1 then [Default(Build)] else []
    ensures var rest := Without(Without(xs, Init), Validate);
      && Shape(xs)[2..] == rest + last
      && multiset(Shape(xs)) == multiset{FirstOr(xs, Init)} + multiset{FirstOr(xs, Validate)} + multiset(rest) + multiset(last)
  {
    hide IndexOf, FirstOr, Without;
    var rest := Without(Without(xs, Init), Validate);
    var head := [FirstOr(xs, Init), FirstOr(xs, Validate)];
    assert Shape(xs) == head + rest + last;
    assert multiset(head) == multiset{FirstOr(xs, Init)} + multiset{FirstOr(xs, Validate)};
  }

  lemma Sums<T>(shape: multiset<T>, i: multiset<T>, v: multiset<T>, rest: multiset<T>, once: multiset<T>,
                all: multiset<T>, addedI: multiset<T>, addedV: multiset<T>, last: multiset<T>)
    requires once + i == all + addedI && rest + v == once + addedV && shape == i + v + rest + last
    ensures shape == all + addedI + addedV + last
  {
    assert i + v + rest == i + (rest + v) == i + (once + addedV) == (once + i) + addedV;
  }

  function Added(xs: seq<Command>, sub: SubCommand): multiset<Command> {
    if IndexOf(xs, sub) == -1 then multiset{Default(sub)} else multiset{}
  }

  lemma TakingOut(xs: seq<Command>, sub: SubCommand)
    ensures multiset(Without(xs, sub)) + multiset{FirstOr(xs, sub)} == multiset(xs) + Added(xs, sub)
  {
    var i := IndexOf(xs, sub);
    if i != -1 {
      assert xs == xs[..i] + [xs[i]] + xs[i + 1..];
    }
  }

  // Filling in touches only an empty directory, and the variables of builds.
  lemma UpdatedFrame(cfg: Config, c: Command)
    ensures var u := Updated(cfg, c);
      && u == c.(workingDir := u.workingDir, variables := u.variables)
      && u.workingDir == (if c.workingDir != "" || cfg.dir == "" then c.workingDir else cfg.dir + "/")
      && (c.subCommand != Build || !cfg.filtered ==> u.variables == c.variables)
      && (c.subCommand == Build && cfg.filtered ==>
            && u.variables.Some? && u.variables.value.Keys == c.variables.GetOr(map[]).Keys + {"ami_id", "region"}
            && u.variables.value["ami_id"] == cfg.baseImage && u.variables.value["region"] == cfg.region
            && forall k :: k in c.variables.GetOr(map[]) && k != "ami_id" && k != "region" ==> u.variables.value[k] == c.variables.value[k])
  {
    NamesDiffer();
  }

  lemma NamesDiffer()
    ensures AMI_ID != REGION
  {
    assert AMI_ID[0] == 'a' && REGION[0] == 'r';
  }

  lemma Idempotent(cfg: Config, xs: seq<Command>)
    ensures Normal(cfg, Normal(cfg, xs)) == Normal(cfg, xs)
  {
    hide Shape;
    var n := Normal(cfg, xs);
    NormalStarts(cfg, xs);
    FixedPoint(n);
    forall i | 0 <= i < |n| ensures Updated(cfg, n[i]) == n[i] {
      UpdatedTwice(cfg, Shape(xs)[i]);
    }
  }

  lemma FixedPoint(n: seq<Command>)
    requires |n| >= 3 && n[0].subCommand == Init && n[1].subCommand == Validate
    requires IndexOf(n, Build) != -1
    ensures Shape(n) == n
  {
    IndexUnique(n, Init, 0);
    IndexUnique(n, Validate, 1);
    IndexUnique(n[1..], Validate, 0);
    hide IndexOf;
    assert Without(n, Init) == n[1..];
    assert Without(n[1..], Validate) == n[2..];
    assert FirstOr(n, Init) == n[0] && FirstOr(n, Validate) == n[1];
    assert n == [n[0], n[1]] + n[2..];
  }

  lemma UpdatedTwice(cfg: Config, c: Command)
    ensures Updated(cfg, Updated(cfg, c)) == Updated(cfg, c)
  {
    if c.subCommand == Build && cfg.filtered {
      var v := WithVariables(cfg, c.variables);
      NamesDiffer();
      assert WithVariables(cfg, Some(v)) == v;
    }
  }

  // ---------------------------------------------------------------- the emitted commands

  function Emitted(xs: seq<Command>, seenBuild: bool): seq<Command> {
    if xs == [] then []
    else
      var seen := seenBuild || xs[0].subCommand == Build;
      (if !seen || xs[0].subCommand == Build then [xs[0]] else []) + Emitted(xs[1..], seen)
  }

  function Builds(xs: seq<Command>): seq<Command> {
    if xs == [] then [] else (if xs[0].subCommand == Build then [xs[0]] else []) + Builds(xs[1..])
  }

  lemma {:induction false} EmittedAfterBuild(xs: seq<Command>)
    ensures Emitted(xs, true) == Builds(xs)
  {
    if xs != [] {
      EmittedAfterBuild(xs[1..]);
    }
  }

  // Everything up to the first build, then every build of the list, and nothing else.
  lemma {:induction false} EmittedMeaning(xs: seq<Command>)
    ensures var b := IndexOf(xs, Build);
      Emitted(xs, false) == if b == -1 then xs else xs[..b] + Builds(xs[b..])
  {
    if xs != [] {
      EmittedMeaning(xs[1..]);
      EmittedAfterBuild(xs[1..]);
      var b := IndexOf(xs, Build);
      if b > 0 {
        assert xs[1..][..b - 1] == xs[..b][1..] && xs[1..][b - 1..] == xs[b..];
        assert [xs[0]] + xs[..b][1..] == xs[..b];
      } else if b == 0 {
        assert xs[..0] == [] && xs[0..] == xs;
      } else {
        assert [xs[0]] + xs[1..] == xs;
      }
    }
  }

  lemma {:induction false} BuildsMeaning(xs: seq<Command>)
    ensures forall i :: 0 <= i < |Builds(xs)| ==> Builds(xs)[i].subCommand == Build
    ensures |Builds(xs)| == Count(xs, Build)
  {
    if xs != [] {
      BuildsMeaning(xs[1..]);
    }
  }

  // What a job runs: init, validate, the other commands before the first build, then all
  // builds in order; nothing follows a build but builds, and there is at least one.
  lemma EmittedForJob(cfg: Config, xs: seq<Command>)
    ensures var n := Normal(cfg, xs);
      var e := Emitted(n, false);
      var b := IndexOf(n, Build);
      && b >= 2 && e == n[..b] + Builds(n[b..])
      && e[0].subCommand == Init && e[1].subCommand == Validate
      && (forall i :: 0 <= i < b ==> e[i].subCommand != Build)
      && |e| > b && (forall i :: b <= i < |e| ==> e[i].subCommand == Build)
      && |e| - b == Count(n, Build)
  {
    var n := Normal(cfg, xs);
    NormalStarts(cfg, xs);
    EmittedMeaning(n);
    var b := IndexOf(n, Build);
    BuildsMeaning(n[b..]);
    CountFrom(n, b);
    assert n[b..][0] == n[b];
  }

  lemma {:induction false} CountFrom(xs: seq<Command>, b: nat)
    requires b <= |xs| && forall i :: 0 <= i < b ==> xs[i].subCommand != Build
    ensures Count(xs[b..], Build) == Count(xs, Build)
  {
    if b > 0 {
      CountFrom(xs[1..], b - 1);
      assert xs[1..][b - 1..] == xs[b..];
    } else {
      assert xs[0..] == xs;
    }
  }
}
