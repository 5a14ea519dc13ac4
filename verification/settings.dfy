// How often a build's text sets a variable, as text: every place is counted where
// `-var 'name=` stands, be it a flag of its own, inside an argument or a value, or across
// the blank between two of them.
module Settings {
  import opened Options
  import opened Commands
  import opened Rendering

  function Opening(v: string): string { "-var '" + v + "=" }

  predicate StartsAt(text: string, i: int, v: string) { 0 <= i <= |text| && Opening(v) <= text[i..] }

  ghost predicate Mentions(text: string, v: string) { exists i :: StartsAt(text, i, v) }

  ghost predicate Once(text: string, v: string) {
    exists i :: StartsAt(text, i, v) && forall j :: StartsAt(text, j, v) ==> j == i
  }

  // A blank between two texts completes the opening.
  predicate Splits(left: string, right: string, v: string) {
    |left| >= 4 && left[|left| - 4..] == "-var" && "'" + v + "=" <= right
  }

  predicate Name(v: string) { '=' !in v && ' ' !in v }

  lemma OpeningChars(v: string)
    requires Name(v)
    ensures var p := Opening(v);
      && |p| == |v| + 7 && p[..4] == "-var" && p[4] == ' ' && p[5..] == "'" + v + "=" && p[|p| - 1] == '='
      && forall i :: 0 <= i < |p| ==> (p[i] == ' ' <==> i == 4)
  {
    var p := Opening(v);
    assert p == "-var" + " " + ("'" + v + "=");
    assert p[5..] == "'" + v + "=";
    forall i | 5 <= i < |p| ensures p[i] != ' ' {
      assert p[i] == p[5..][i - 5];
    }
  }

  // The opening stands in a joined text exactly in either part or across the blank.
  lemma WhereItStands(left: string, right: string, i: int, v: string)
    requires Name(v)
    ensures StartsAt(left + " " + right, i, v) <==>
      || (i + |Opening(v)| <= |left| && StartsAt(left, i, v))
      || (i == |left| - 4 && Splits(left, right, v))
      || (i > |left| && StartsAt(right, i - |left| - 1, v))
  {
    var p, text, n := Opening(v), left + " " + right, |left|;
    OpeningChars(v);
    if 0 <= i && i + |p| <= |text| {
      assert p <= text[i..] <==> forall k :: 0 <= k < |p| ==> text[i + k] == p[k];
      if i + |p| <= n {
        assert text[i..][..|p|] == left[i..][..|p|];
      } else if i > n {
        assert text[i..] == right[i - n - 1..];
      } else if i == n - 4 {
        assert text[i..] == left[i..] + " " + right;
        assert p == p[..4] + " " + p[5..];
        assert p <= text[i..] <==> left[i..] == "-var" && p[5..] <= right;
      } else {
        assert text[n] == ' ' && p[n - i] != ' ';
      }
    }
  }

  lemma JoinedMentions(left: string, right: string, v: string)
    requires Name(v)
    ensures Mentions(left + " " + right, v) <==> Mentions(left, v) || Mentions(right, v) || Splits(left, right, v)
  {
    var text := left + " " + right;
    forall i ensures StartsAt(text, i, v) <==>
      || (i + |Opening(v)| <= |left| && StartsAt(left, i, v))
      || (i == |left| - 4 && Splits(left, right, v))
      || (i > |left| && StartsAt(right, i - |left| - 1, v))
    {
      WhereItStands(left, right, i, v);
    }
    if i :| StartsAt(left, i, v) {
      assert StartsAt(text, i, v);
    }
    if i :| StartsAt(right, i, v) {
      assert StartsAt(text, i + |left| + 1, v);
    }
    if Splits(left, right, v) {
      assert StartsAt(text, |left| - 4, v);
    }
  }

  // Once in a joined text: once in either part, and nowhere else.
  lemma JoinedOnce(left: string, right: string, v: string)
    requires Name(v) && (Mentions(left, v) || Mentions(right, v))
    ensures Once(left + " " + right, v) <==>
      && !Splits(left, right, v)
      && ((Once(left, v) && !Mentions(right, v)) || (!Mentions(left, v) && Once(right, v)))
  {
    hide *;
    if Once(left + " " + right, v) {
      OnceForward(left, right, v);
    }
    if !Splits(left, right, v) && Once(left, v) && !Mentions(right, v) {
      OnceLeft(left, right, v);
    }
    if !Splits(left, right, v) && Once(right, v) && !Mentions(left, v) {
      OnceRight(left, right, v);
    }
  }

  lemma OnceLeft(left: string, right: string, v: string)
    requires Name(v) && Once(left, v) && !Mentions(right, v) && !Splits(left, right, v)
    ensures Once(left + " " + right, v)
  {
    WhereAll(left, right, v);
    var i :| StartsAt(left, i, v) && forall j :: StartsAt(left, j, v) ==> j == i;
    hide StartsAt, Splits;
    assert StartsAt(left + " " + right, i, v);
  }

  lemma OnceRight(left: string, right: string, v: string)
    requires Name(v) && Once(right, v) && !Mentions(left, v) && !Splits(left, right, v)
    ensures Once(left + " " + right, v)
  {
    WhereAll(left, right, v);
    var i :| StartsAt(right, i, v) && forall j :: StartsAt(right, j, v) ==> j == i;
    assert i >= 0;
    hide StartsAt, Splits;
    assert StartsAt(left + " " + right, i + |left| + 1, v);
  }

  lemma WhereAll(left: string, right: string, v: string)
    requires Name(v)
    ensures forall i :: StartsAt(left + " " + right, i, v) <==>
      || (i + |Opening(v)| <= |left| && StartsAt(left, i, v))
      || (i == |left| - 4 && Splits(left, right, v))
      || (i > |left| && StartsAt(right, i - |left| - 1, v))
    ensures forall i :: StartsAt(left, i, v) ==> i + |Opening(v)| <= |left|
  {
    forall i ensures StartsAt(left + " " + right, i, v) <==>
      || (i + |Opening(v)| <= |left| && StartsAt(left, i, v))
      || (i == |left| - 4 && Splits(left, right, v))
      || (i > |left| && StartsAt(right, i - |left| - 1, v))
    {
      WhereItStands(left, right, i, v);
    }
  }

  lemma OnceForward(left: string, right: string, v: string)
    requires Name(v) && (Mentions(left, v) || Mentions(right, v)) && Once(left + " " + right, v)
    ensures !Splits(left, right, v)
    ensures (Once(left, v) && !Mentions(right, v)) || (!Mentions(left, v) && Once(right, v))
  {
    var text := left + " " + right;
    forall i ensures StartsAt(left, i, v) ==> StartsAt(text, i, v) && i < |left| - 4 {
      WhereItStands(left, right, i, v);
      OpeningChars(v);
    }
    forall i ensures StartsAt(right, i, v) ==> i >= 0 && StartsAt(text, i + |left| + 1, v) {
      WhereItStands(left, right, i + |left| + 1, v);
    }
    if Splits(left, right, v) {
      WhereItStands(left, right, |left| - 4, v);
    }
    hide StartsAt, Splits;
  }

  // ---------------------------------------------------------------- lists of parts

  ghost predicate NoneMentions(parts: seq<string>, v: string) {
    forall i :: 0 <= i < |parts| ==> !Mentions(parts[i], v)
  }

  // No two neighbours have the opening between them.
  predicate NoSplits(parts: seq<string>, v: string) {
    forall i :: 0 <= i < |parts| - 1 ==> !Splits(parts[i], parts[i + 1], v)
  }

  // No part but part `p` mentions the name.
  ghost predicate OnlyMentions(parts: seq<string>, p: int, v: string) {
    forall i :: 0 <= i < |parts| && i != p ==> !Mentions(parts[i], v)
  }

  lemma FirstAndRest(parts: seq<string>, p: nat, v: string)
    requires |parts| > 1
    ensures NoSplits(parts, v) <==> !Splits(parts[0], parts[1], v) && NoSplits(parts[1..], v)
    ensures NoneMentions(parts, v) <==> !Mentions(parts[0], v) && NoneMentions(parts[1..], v)
    ensures OnlyMentions(parts, 0, v) <==> NoneMentions(parts[1..], v)
    ensures p > 0 ==> (OnlyMentions(parts, p, v) <==> !Mentions(parts[0], v) && OnlyMentions(parts[1..], p - 1, v))
  {
    hide Splits, Mentions;
    var rest := parts[1..];
    assert forall i :: 1 <= i < |parts| ==> parts[i] == rest[i - 1];
  }

  // What follows the blank can be seen in the first of the joined parts.
  lemma JoinStarts(parts: seq<string>, v: string)
    requires Name(v) && parts != []
    ensures "'" + v + "=" <= Join(parts, " ") <==> "'" + v + "=" <= parts[0]
  {
    var q, text := "'" + v + "=", Join(parts, " ");
    if |parts| > 1 {
      assert text == parts[0] + (" " + Join(parts[1..], " "));
      assert text[|parts[0]|] == ' ';
      assert forall i :: 0 <= i < |q| ==> q[i] != ' ';
    }
  }

  lemma {:induction false} QuietJoin(parts: seq<string>, v: string)
    requires Name(v)
    ensures !Mentions(Join(parts, " "), v) <==> NoneMentions(parts, v) && NoSplits(parts, v)
  {
    if |parts| == 0 {
      assert Join(parts, " ") == "";
      assert forall i :: !StartsAt("", i, v);
    } else if |parts| > 1 {
      var rest := parts[1..];
      QuietJoin(rest, v);
      JoinedMentions(parts[0], Join(rest, " "), v);
      SplitsAtFirst(parts[0], rest, v);
      FirstAndRest(parts, 0, v);
      hide Mentions, Splits, NoneMentions, NoSplits;
    }
  }

  lemma SplitsAtFirst(left: string, rest: seq<string>, v: string)
    requires Name(v) && rest != []
    ensures Splits(left, Join(rest, " "), v) <==> Splits(left, rest[0], v)
  {
    JoinStarts(rest, v);
  }

  // With one part known to mention the name: the text does so once if and only if that part
  // does so once, no other does, and no two neighbours do between them.
  lemma {:induction false} OnceJoin(parts: seq<string>, p: nat, v: string)
    requires Name(v) && p < |parts| && Mentions(parts[p], v)
    ensures Once(Join(parts, " "), v) <==> Once(parts[p], v) && OnlyMentions(parts, p, v) && NoSplits(parts, v)
  {
    if |parts| > 1 {
      var rest := parts[1..];
      QuietJoin(rest, v);
      SplitsAtFirst(parts[0], rest, v);
      FirstAndRest(parts, p, v);
      if p > 0 {
        assert rest[p - 1] == parts[p];
        OnceJoin(rest, p - 1, v);
      }
      MentionedOnce(parts[0], v);
      if NoneMentions(rest, v) {
        assert p == 0;
      }
      hide Mentions, Splits, Once, NoneMentions, NoSplits, OnlyMentions;
      JoinedOnce(parts[0], Join(rest, " "), v);
    }
  }

  lemma MentionedOnce(text: string, v: string)
    ensures Once(text, v) ==> Mentions(text, v)
  {}

  // ---------------------------------------------------------------- a variable flag

  lemma WhereInFlag(key: string, value: string, i: int, v: string)
    requires Name(v)
    ensures StartsAt(VarFlag(key, value), i, v) <==>
      || (i == 0 && (key == v || v + "=" <= key))
      || (i >= 6 && StartsAt(key + "=" + value, i - 6, v))
  {
    var p, t := Opening(v), key + "=" + value;
    var flag := VarFlag(key, value);
    OpeningChars(v);
    assert flag == "-var '" + (t + "'") && |"-var '"| == 6;
    if i == 0 {
      assert flag[0..] == flag && p == "-var '" + (v + "=");
      assert p <= flag <==> v + "=" <= t + "'" by {
        assert forall k :: 0 <= k < |v + "="| ==> p[k + 6] == (v + "=")[k];
        assert forall k :: 0 <= k < |t + "'"| ==> flag[k + 6] == (t + "'")[k];
      }
      NameStarts(key, value, v);
    } else if 0 < i < 6 {
      assert flag[i] == "-var '"[i] && p[0] == '-';
    } else if 6 <= i <= |flag| {
      assert flag[i..] == (t + "'")[i - 6..];
      assert (t + "'")[|t|] == '\'' && p[|p| - 1] == '=';
      if i - 6 + |p| <= |t| {
        assert (t + "'")[i - 6..][..|p|] == t[i - 6..][..|p|];
      }
    }
  }

  lemma NameStarts(key: string, value: string, v: string)
    requires Name(v)
    ensures v + "=" <= key + "=" + value + "'" <==> key == v || v + "=" <= key
  {
    var q, t := v + "=", key + "=" + value + "'";
    assert t[|key|] == '=' && q[|v|] == '=';
    assert forall i :: 0 <= i < |v| ==> q[i] == v[i] && q[i] != '=';
    if q <= t {
      assert |v| <= |key|;
      assert forall i :: 0 <= i < |v| ==> t[i] == key[i];
    }
    if key == v {
      assert t[..|q|] == q;
    }
  }

  lemma FlagMentions(key: string, value: string, v: string)
    requires Name(v)
    ensures Mentions(VarFlag(key, value), v) <==> key == v || v + "=" <= key || Mentions(key + "=" + value, v)
    ensures key == v ==> (Once(VarFlag(key, value), v) <==> !Mentions(key + "=" + value, v))
  {
    var flag, t := VarFlag(key, value), key + "=" + value;
    forall i ensures StartsAt(flag, i, v) <==>
      (i == 0 && (key == v || v + "=" <= key)) || (i >= 6 && StartsAt(t, i - 6, v))
    {
      WhereInFlag(key, value, i, v);
    }
    assert forall i :: StartsAt(t, i, v) ==> i >= 0;
    hide StartsAt;
    if i :| StartsAt(t, i, v) {
      assert StartsAt(flag, i + 6, v);
    }
    if key == v || v + "=" <= key {
      assert StartsAt(flag, 0, v);
    }
  }

  // ---------------------------------------------------------------- a build

  ghost predicate VariablesLeaveAlone(m: map<string, string>, v: string) {
    forall k :: k in m ==> !(v + "=" <= k) && !Mentions(k + "=" + m[k], v)
  }

  // The user's texts leave the name alone: no variable's name begins with it and an equals
  // sign, no name and value, argument, fixed flag or directory mentions it, and no two
  // neighbouring texts do between them.
  ghost predicate LeaveAlone(c: Command, v: string) {
    && VariablesLeaveAlone(Vars(c), v)
    && NoneMentions(c.args, v) && NoSplits(c.args, v)
    && NoneMentions(OtherFlags(c) + Directory(c), v) && NoSplits(OtherFlags(c) + Directory(c), v)
  }

  lemma SplitsInConcat(a: seq<string>, b: seq<string>, v: string)
    ensures NoSplits(a + b, v) <==>
      NoSplits(a, v) && NoSplits(b, v) && (a != [] && b != [] ==> !Splits(a[|a| - 1], b[0], v))
  {
    hide Splits;
    var ab := a + b;
    assert forall i :: 0 <= i < |a| ==> ab[i] == a[i];
    assert forall i :: 0 <= i < |b| ==> ab[|a| + i] == b[i];
    if NoSplits(ab, v) {
      forall i | 0 <= i < |b| - 1 ensures !Splits(b[i], b[i + 1], v) {
        assert !Splits(ab[|a| + i], ab[|a| + i + 1], v);
      }
    }
    if a != [] && b != [] {
      assert ab[|a| - 1] == a[|a| - 1] && ab[|a| - 1 + 1] == b[0];
    }
  }

  // A variable flag neither ends nor begins like half an opening.
  lemma FlagsDoNotSplit(key: string, value: string, text: string, v: string)
    ensures !Splits(VarFlag(key, value), text, v) && !Splits(text, VarFlag(key, value), v)
  {
    var flag := VarFlag(key, value);
    assert flag[|flag| - 4..][3] == '\'' && "-var"[3] == 'r';
    assert flag[0] == '-' && ("'" + v + "=")[0] == '\'';
  }

  lemma SeamsOfBuild(args: seq<string>, flags: seq<string>, tail: seq<string>, v: string)
    requires flags != [] && forall i :: 0 <= i < |flags| ==> exists k, x :: flags[i] == VarFlag(k, x)
    ensures NoSplits(["packer", "build"] + args + flags + tail, v) <==> NoSplits(args, v) && NoSplits(tail, v)
  {
    var head := ["packer", "build"];
    forall text, i | 0 <= i < |flags| ensures !Splits(flags[i], text, v) && !Splits(text, flags[i], v) {
      var k, x :| flags[i] == VarFlag(k, x);
      FlagsDoNotSplit(k, x, text, v);
    }
    assert forall text :: !Splits("build", text, v) by {
      assert "build"[1..] == "uild" && "uild"[0] == 'u';
    }
    assert !Splits("packer", "build", v) by {
      assert "build"[0] == 'b' && ("'" + v + "=")[0] == '\'';
    }
    hide Splits;
    SplitsInConcat(head, args, v);
    SplitsInConcat(head + args, flags, v);
    SplitsInConcat(head + args + flags, tail, v);
    assert (head + args + flags)[|head + args + flags| - 1] == flags[|flags| - 1];
  }

  lemma MentionsInConcat(a: seq<string>, b: seq<string>, p: int, v: string)
    ensures NoneMentions(a + b, v) <==> NoneMentions(a, v) && NoneMentions(b, v)
    ensures 0 <= p < |a| ==> (OnlyMentions(a + b, p, v) <==> OnlyMentions(a, p, v) && NoneMentions(b, v))
    ensures |a| <= p ==> (OnlyMentions(a + b, p, v) <==> NoneMentions(a, v) && OnlyMentions(b, p - |a|, v))
  {
    hide Mentions;
    var ab := a + b;
    assert forall i :: 0 <= i < |a| ==> ab[i] == a[i];
    assert forall i :: |a| <= i < |ab| ==> ab[i] == b[i - |a|];
    assert forall i :: 0 <= i < |b| ==> b[i] == ab[|a| + i];
  }

  lemma MentionsOfBuild(args: seq<string>, flags: seq<string>, j: nat, tail: seq<string>, v: string)
    requires j < |flags| && Name(v)
    ensures OnlyMentions(["packer", "build"] + args + flags + tail, 2 + |args| + j, v) <==>
      NoneMentions(args, v) && NoneMentions(tail, v) && OnlyMentions(flags, j, v)
  {
    var head := ["packer", "build"];
    OpeningChars(v);
    assert NoneMentions(head, v);
    hide NoneMentions, OnlyMentions;
    MentionsInConcat(head, args, 0, v);
    MentionsInConcat(head + args, flags, 2 + |args| + j, v);
    MentionsInConcat(head + args + flags, tail, 2 + |args| + j, v);
  }

  lemma MentionsOfFlags(m: map<string, string>, order: seq<string>, j: nat, v: string)
    requires IsOrder(order, m) && j < |order| && order[j] == v && Name(v)
    ensures Once(VarFlag(v, m[v]), v) && OnlyMentions(VarFlags(m, order), j, v) <==> VariablesLeaveAlone(m, v)
    ensures Mentions(VarFlag(v, m[v]), v)
  {
    var flags := VarFlags(m, order);
    forall i | 0 <= i < |flags|
      ensures Mentions(flags[i], v) <==> order[i] == v || v + "=" <= order[i] || Mentions(order[i] + "=" + m[order[i]], v)
    {
      FlagMentions(order[i], m[order[i]], v);
    }
    FlagMentions(v, m[v], v);
    assert !(v + "=" <= v);
    hide Mentions, Once;
    if OnlyMentions(flags, j, v) {
      forall k | k in m && k != v ensures !(v + "=" <= k) && !Mentions(k + "=" + m[k], v) {
        assert k in order;
        var i :| 0 <= i < |order| && order[i] == k;
        assert !Mentions(flags[i], v);
      }
    }
  }

  // The text of a build sets a variable it has a flag for exactly once if and only if the
  // user's texts leave its name alone, in whatever order the variables are walked.
  lemma SetOnce(c: Command, order: seq<string>, v: string)
    requires c.subCommand == Build && IsOrder(order, Vars(c)) && v in Vars(c) && Name(v)
    ensures Once(Join(Parts(c, order), " "), v) <==> LeaveAlone(c, v)
  {
    var flags, tail := VarFlags(Vars(c), order), OtherFlags(c) + Directory(c);
    assert v in order;
    var j :| 0 <= j < |order| && order[j] == v;
    PartsOfBuild(c, order);
    hide *;
    MentionsOfFlags(Vars(c), order, j, v);
    TextSetsOnce(c.args, flags, j, tail, VarFlag(v, Vars(c)[v]), v);
  }

  lemma PartsOfBuild(c: Command, order: seq<string>)
    requires c.subCommand == Build && IsOrder(order, Vars(c))
    ensures Parts(c, order) == ["packer", "build"] + c.args + VarFlags(Vars(c), order) + (OtherFlags(c) + Directory(c))
  {
    hide OtherFlags, Directory, VarFlags;
  }

  lemma TextSetsOnce(args: seq<string>, flags: seq<string>, j: nat, tail: seq<string>, own: string, v: string)
    requires j < |flags| && flags[j] == own && Mentions(own, v) && Name(v)
    requires forall i :: 0 <= i < |flags| ==> exists k, x :: flags[i] == VarFlag(k, x)
    ensures Once(Join(["packer", "build"] + args + flags + tail, " "), v) <==>
      && Once(own, v) && OnlyMentions(flags, j, v)
      && NoneMentions(args, v) && NoSplits(args, v) && NoneMentions(tail, v) && NoSplits(tail, v)
  {
    var parts := ["packer", "build"] + args + flags + tail;
    assert parts[2 + |args| + j] == own;
    hide *;
    OnceJoin(parts, 2 + |args| + j, v);
    SeamsOfBuild(args, flags, tail, v);
    MentionsOfBuild(args, flags, j, tail, v);
  }

  // ---------------------------------------------------------------- all builds of a job

  lemma {:induction false} EmittedAreListed(xs: seq<Command>, seenBuild: bool)
    ensures forall c :: c in Emitted(xs, seenBuild) ==> c in xs
  {
    if xs != [] {
      EmittedAreListed(xs[1..], seenBuild || xs[0].subCommand == Build);
    }
  }

  // Every build of a filtered job has the base image and the region among its variables.
  lemma BuildsAreFilledIn(cfg: Config, xs: seq<Command>, c: Command)
    requires cfg.filtered && c in Emitted(Normal(cfg, xs), false) && c.subCommand == Build
    ensures AMI_ID in Vars(c) && Vars(c)[AMI_ID] == cfg.baseImage
    ensures REGION in Vars(c) && Vars(c)[REGION] == cfg.region
  {
    EmittedAreListed(Normal(cfg, xs), false);
    var i :| 0 <= i < |Normal(cfg, xs)| && Normal(cfg, xs)[i] == c;
    UpdatedFrame(cfg, Shape(xs)[i]);
  }

  // Whatever the user's command list and in whatever order Go walks its maps: the line of
  // every build of a filtered job sets ami_id, and region, exactly once if and only if the
  // texts of that build leave the name alone.
  lemma EveryBuildSetsOnce(cfg: Config, xs: seq<Command>, lines: seq<string>, i: nat)
    requires cfg.filtered && RendersAll(lines, Emitted(Normal(cfg, xs), false))
    requires i < |lines| && Emitted(Normal(cfg, xs), false)[i].subCommand == Build
    ensures var c := Emitted(Normal(cfg, xs), false)[i];
      (Once(lines[i], AMI_ID) <==> LeaveAlone(c, AMI_ID)) && (Once(lines[i], REGION) <==> LeaveAlone(c, REGION))
  {
    var c := Emitted(Normal(cfg, xs), false)[i];
    assert Renders(lines[i], c);
    assert Name(AMI_ID) && Name(REGION);
    hide *;
    BuildsAreFilledIn(cfg, xs, c);
    LineSetsOnce(c, lines[i], AMI_ID);
    LineSetsOnce(c, lines[i], REGION);
  }

  lemma LineSetsOnce(c: Command, line: string, v: string)
    requires Renders(line, c) && c.subCommand == Build && v in Vars(c) && Name(v)
    ensures Once(line, v) <==> LeaveAlone(c, v)
  {
    var order :| IsOrder(order, Vars(c)) && line == Join(Parts(c, order), " ");
    hide *;
    SetOnce(c, order, v);
  }
}
