// The script of a job as the shell reads it: which commands it runs and how often a build
// among them sets a variable.
module Script {
  import opened Options
  import opened Commands
  import opened Rendering
  import opened Settings
  import opened Shell

  // ---------------------------------------------------------------- the texts of a command

  function FixedFlags(c: Command): seq<string> { if c.subCommand == Build then OtherFlags(c) else [] }

  // All texts of a command but its variable flags.
  function FixedTexts(c: Command): seq<string> { ["packer", SubText(c.subCommand)] + c.args + FixedFlags(c) + Directory(c) }

  function FlagTexts(c: Command, order: seq<string>): seq<string>
    requires forall k :: k in order ==> k in Vars(c)
  {
    if c.subCommand == Build then VarFlags(Vars(c), order) else []
  }

  lemma PartsOf(c: Command, order: seq<string>)
    requires IsOrder(order, Vars(c))
    ensures Parts(c, order) == ["packer", SubText(c.subCommand)] + c.args + FlagTexts(c, order) + (FixedFlags(c) + Directory(c))
  {
    hide OtherFlags, Directory, VarFlags;
  }

  // Every text closes its quotes, in the command and in the echo.
  predicate TextsClose(c: Command) {
    && (forall i :: 0 <= i < |FixedTexts(c)| ==> Closes(FixedTexts(c)[i]))
    && (c.subCommand == Build ==> forall k :: k in Vars(c) ==> Closes(VarFlag(k, Vars(c)[k])))
  }

  lemma PartsClose(c: Command, order: seq<string>)
    requires IsOrder(order, Vars(c)) && TextsClose(c)
    ensures forall i :: 0 <= i < |Parts(c, order)| ==> Closes(Parts(c, order)[i])
  {
    var head, flags, tail := ["packer", SubText(c.subCommand)] + c.args, FlagTexts(c, order), FixedFlags(c) + Directory(c);
    PartsOf(c, order);
    assert FixedTexts(c) == head + tail;
    forall i | 0 <= i < |flags| ensures Closes(flags[i]) {
      assert order[i] in Vars(c) && flags[i] == VarFlag(order[i], Vars(c)[order[i]]);
    }
    hide *;
    TwoClose(head, tail);
    TwoClose(head, flags);
    TwoClose(head + flags, tail);
  }

  lemma TwoClose(a: seq<string>, b: seq<string>)
    ensures (forall i :: 0 <= i < |a + b| ==> Closes((a + b)[i])) <==>
      (forall i :: 0 <= i < |a| ==> Closes(a[i])) && (forall i :: 0 <= i < |b| ==> Closes(b[i]))
  {
    assert forall i :: 0 <= i < |a| ==> (a + b)[i] == a[i];
    assert forall i :: 0 <= i < |b| ==> (a + b)[|a| + i] == b[i];
    hide Closes;
  }

  // A line of such texts is one command, read text by text, and gets through the echo.
  lemma LineReads(c: Command, line: string) returns (order: seq<string>)
    requires Renders(line, c) && TextsClose(c)
    ensures IsOrder(order, Vars(c)) && line == Join(Parts(c, order), " ")
    ensures WordsOf(Parts(c, order)).Some? && WordsOf(Parts(c, order)).value != []
    ensures Words(line) == WordsOf(Parts(c, order)) && Through(line)
  {
    order :| IsOrder(order, Vars(c)) && line == Join(Parts(c, order), " ");
    var parts := Parts(c, order);
    PartsClose(c, order);
    assert parts[0] == "packer";
    hide Words, Through, Parts;
    ClosingTextsRead(parts);
    JoinReads(parts);
    UnquotedThrough(" ");
    JoinThrough(parts, " ");
    PackerFirst(parts);
  }

  lemma PackerFirst(parts: seq<string>)
    requires parts != [] && parts[0] == "packer" && WordsOf(parts).Some?
    ensures WordsOf(parts).value != []
  {
    PackerReads("packer");
    hide Words;
  }

  lemma PackerReads(name: string)
    requires name == "packer"
    ensures Words(name) == Some([name])
  {
    TextReadAsWritten(name);
    hide Words;
  }

  function AllWordsOf(cmds: seq<Command>, orders: seq<seq<string>>): (words: seq<seq<string>>)
    requires |cmds| == |orders| && forall i :: 0 <= i < |cmds| ==> forall k :: k in orders[i] ==> k in Vars(cmds[i])
    ensures |words| == |cmds|
    ensures forall i :: 0 <= i < |cmds| ==> words[i] == WordsOf(Parts(cmds[i], orders[i])).GetOr([])
  {
    seq(|cmds|, i requires 0 <= i < |cmds| => WordsOf(Parts(cmds[i], orders[i])).GetOr([]))
  }

  ghost predicate AreOrders(cmds: seq<Command>, orders: seq<seq<string>>) {
    |cmds| == |orders| && forall i :: 0 <= i < |cmds| ==> IsOrder(orders[i], Vars(cmds[i]))
  }

  // If all texts of a job's commands close their quotes, the shell reads the job's script as
  // two echoes and then those commands, each read text by text.
  lemma ScriptReadsTexts(cmds: seq<Command>, lines: seq<string>) returns (orders: seq<seq<string>>, echoed: seq<string>)
    requires cmds != [] && RendersAll(lines, cmds) && forall i :: 0 <= i < |cmds| ==> TextsClose(cmds[i])
    ensures AreOrders(cmds, orders)
    ensures forall i :: 0 <= i < |cmds| ==> WordsOf(Parts(cmds[i], orders[i])).Some?
    ensures forall i :: 0 <= i < |cmds| ==> lines[i] == Join(Parts(cmds[i], orders[i]), " ")
    ensures CommandsOf(ScriptOf(lines)) == Some([Banner, ["echo"] + echoed] + AllWordsOf(cmds, orders))
  {
    hide TextsClose, Words, WordsOf, Through, Parts, Renders, ScriptOf;
    orders := [];
    for n := 0 to |cmds|
      invariant |orders| == n && forall i :: 0 <= i < n ==> ReadAs(cmds[i], orders[i], lines[i])
    {
      var order := LineReads(cmds[n], lines[n]);
      orders := orders + [order];
    }
    var words := AllWordsOf(cmds, orders);
    forall i | 0 <= i < |cmds| ensures Words(lines[i]) == Some(words[i]) && words[i] != [] && Through(lines[i]) {
      assert ReadAs(cmds[i], orders[i], lines[i]);
    }
    UnquotedThrough(" && ");
    JoinThrough(lines, " && ");
    echoed := ScriptReads(lines, words);
  }

  ghost predicate ReadAs(c: Command, order: seq<string>, line: string) {
    && IsOrder(order, Vars(c)) && line == Join(Parts(c, order), " ")
    && WordsOf(Parts(c, order)).Some? && WordsOf(Parts(c, order)).value != []
    && Words(line) == WordsOf(Parts(c, order)) && Through(line)
  }

  // ---------------------------------------------------------------- what commands are meant to be

  // The words that variable flags are meant to be.
  function FlagWords(m: map<string, string>, order: seq<string>): (words: seq<string>)
    requires forall k :: k in order ==> k in m
    ensures |words| == 2 * |order|
    ensures forall j :: 0 <= j < |order| ==> words[2 * j] == "-var" && words[2 * j + 1] == order[j] + "=" + m[order[j]]
  {
    if order == [] then []
    else FlagWords(m, order[..|order| - 1]) + ["-var", order[|order| - 1] + "=" + m[order[|order| - 1]]]
  }

  // What the words of a command are meant to be.
  function Meant(c: Command, order: seq<string>): seq<string>
    requires forall k :: k in order ==> k in Vars(c)
  {
    ["packer", SubText(c.subCommand)] + c.args
    + (if c.subCommand == Build then FlagWords(Vars(c), order) else [])
    + (FixedFlags(c) + Directory(c))
  }

  function MeantAll(cmds: seq<Command>, orders: seq<seq<string>>): (words: seq<seq<string>>)
    requires |cmds| == |orders| && forall i :: 0 <= i < |cmds| ==> forall k :: k in orders[i] ==> k in Vars(cmds[i])
    ensures |words| == |cmds| && forall i :: 0 <= i < |cmds| ==> words[i] == Meant(cmds[i], orders[i])
  {
    seq(|cmds|, i requires 0 <= i < |cmds| => Meant(cmds[i], orders[i]))
  }

  // ---------------------------------------------------------------- settings, as words

  // `-var` and its word `name=...`, the way the operator writes them. (Packer takes
  // `-var=name=...` in one word as well; that form is not counted.)
  predicate SetsAt(words: seq<string>, i: int, v: string) {
    0 <= i < |words| - 1 && words[i] == "-var" && v + "=" <= words[i + 1]
  }

  ghost predicate SetsOnce(words: seq<string>, v: string) {
    exists i :: SetsAt(words, i, v) && forall j :: SetsAt(words, j, v) ==> j == i
  }

  lemma WordSets(key: string, value: string, v: string)
    requires Name(v)
    ensures v + "=" <= key + "=" + value <==> key == v || v + "=" <= key
    ensures key + "=" + value != "-var" && !(v + "=" <= "-var")
  {
    var q, t := v + "=", key + "=" + value;
    assert t[|key|] == '=' && q[|v|] == '=' && "-var"[0] != '=' && "-var"[1] != '=' && "-var"[2] != '=' && "-var"[3] != '=';
    assert forall i :: 0 <= i < |v| ==> q[i] == v[i] && q[i] != '=';
    if q <= t {
      assert |v| <= |key|;
      assert forall i :: 0 <= i < |v| ==> t[i] == key[i];
    }
    if key == v {
      assert t[..|q|] == q;
    }
  }

  predicate Named(key: string, v: string) { key == v || v + "=" <= key }

  // Word `x` of the variable flags is the `-var` of one that sets `v`.
  predicate FlagAt(order: seq<string>, x: int, v: string) { 0 <= x < 2 * |order| && x % 2 == 0 && Named(order[x / 2], v) }

  // Where the words of a build set a variable: in its arguments and at its variable flags.
  lemma WhereWordsSet(c: Command, order: seq<string>, i: int, v: string)
    requires IsOrder(order, Vars(c)) && c.subCommand == Build && order != [] && Name(v)
    ensures SetsAt(Meant(c, order), i, v) <==> SetsAt(c.args, i - 2, v) || FlagAt(order, i - 2 - |c.args|, v)
  {
    var flags, tail := FlagWords(Vars(c), order), OtherFlags(c) + Directory(c);
    assert Meant(c, order) == ["packer", "build"] + c.args + flags + tail;
    WordSets("", "", v);
    LastFlagWord(Vars(c), order);
    FlagWordsSet(Vars(c), order, i - 2 - |c.args|, v);
    TailSetsNothing(c, i - 2 - |c.args| - |flags|, v);
    hide *;
    SetsInFour(c.args, flags, tail, i, v);
  }

  lemma SetsInFour(args: seq<string>, flags: seq<string>, tail: seq<string>, i: int, v: string)
    requires flags != [] && !(v + "=" <= flags[0]) && flags[|flags| - 1] != "-var"
    ensures SetsAt(["packer", "build"] + args + flags + tail, i, v) <==>
      SetsAt(args, i - 2, v) || SetsAt(flags, i - 2 - |args|, v) || SetsAt(tail, i - 2 - |args| - |flags|, v)
  {
    var start := ["packer", "build"];
    StartSetsNothing(i, v);
    hide SetsAt;
    SetsAcross(start, args, i, v);
    SetsAcross(start + args, flags, i, v);
    SetsAcross(start + args + flags, tail, i, v);
  }

  lemma SetsAcross(a: seq<string>, b: seq<string>, i: int, v: string)
    requires a != [] && b != [] ==> a[|a| - 1] != "-var" || !(v + "=" <= b[0])
    ensures SetsAt(a + b, i, v) <==> SetsAt(a, i, v) || SetsAt(b, i - |a|, v)
  {}

  lemma StartSetsNothing(i: int, v: string)
    ensures !SetsAt(["packer", "build"], i, v) && "build" != "-var"
  {
    assert |"packer"| == 6 && |"build"| == 5 && |"-var"| == 4;
  }

  lemma LastFlagWord(m: map<string, string>, order: seq<string>)
    requires IsOrder(order, m) && order != []
    ensures var flags := FlagWords(m, order); flags[0] == "-var" && flags[|flags| - 1] != "-var"
  {
    var flags, last := FlagWords(m, order), |order| - 1;
    assert flags[2 * 0] == "-var" && flags[2 * last + 1] == order[last] + "=" + m[order[last]];
    assert flags[2 * last + 1][|order[last]|] == '=' && '=' !in "-var";
  }

  lemma FlagWordsSet(m: map<string, string>, order: seq<string>, x: int, v: string)
    requires IsOrder(order, m) && Name(v)
    ensures SetsAt(FlagWords(m, order), x, v) <==> FlagAt(order, x, v)
  {
    if 0 <= x < 2 * |order| {
      var j := x / 2;
      var flags := FlagWords(m, order);
      WordSets(order[j], m[order[j]], v);
      assert flags[2 * j] == "-var" && flags[2 * j + 1] == order[j] + "=" + m[order[j]];
    }
  }

  // The fixed flags are none of them a bare `-var`, and the directory comes last.
  lemma TailSetsNothing(c: Command, i: int, v: string)
    ensures !SetsAt(OtherFlags(c) + Directory(c), i, v)
  {
    var other := OtherFlags(c);
    if 0 <= i < |other + Directory(c)| - 1 {
      assert (other + Directory(c))[i] == other[i];
      assert |"-var-file=" + c.variablesFile| > 4 && |"-on-error=" + c.onError| > 4;
      assert |"-debug"| > 4 && |"-color=false"| > 4 && |"-var"| == 4;
    }
  }

  // Of a build that is read as written, the words set a variable it has a flag for exactly
  // once if and only if no name begins with that name and an equals sign, and the arguments
  // do not set it.
  lemma MeantSetsOnce(c: Command, order: seq<string>, own: nat, v: string)
    requires c.subCommand == Build && IsOrder(order, Vars(c)) && own < |order| && order[own] == v && Name(v)
    ensures SetsOnce(Meant(c, order), v) <==>
      (forall k :: k in Vars(c) ==> !(v + "=" <= k)) && (forall i :: !SetsAt(c.args, i, v))
  {
    if SetsOnce(Meant(c, order), v) {
      OnlyOwnFlag(c, order, own, v);
      NoArgumentSets(c, order, own, v);
    }
    if (forall k :: k in Vars(c) ==> !(v + "=" <= k)) && (forall i :: !SetsAt(c.args, i, v)) {
      OwnFlagSets(c, order, own, v);
    }
  }

  lemma NoArgumentSets(c: Command, order: seq<string>, own: nat, v: string)
    requires c.subCommand == Build && IsOrder(order, Vars(c)) && own < |order| && order[own] == v && Name(v)
    requires SetsOnce(Meant(c, order), v)
    ensures forall i :: !SetsAt(c.args, i, v)
  {
    forall i ensures !SetsAt(c.args, i, v) {
      WhereWordsSet(c, order, i + 2, v);
      FlagSets(c, order, own, v);
      assert SetsAt(c.args, i, v) ==> i < |c.args|;
      hide SetsAt, Meant, FlagAt;
    }
  }

  lemma OwnFlagSets(c: Command, order: seq<string>, own: nat, v: string)
    requires c.subCommand == Build && IsOrder(order, Vars(c)) && own < |order| && order[own] == v && Name(v)
    requires (forall k :: k in Vars(c) ==> !(v + "=" <= k)) && (forall i :: !SetsAt(c.args, i, v))
    ensures SetsOnce(Meant(c, order), v)
  {
    var words, at := Meant(c, order), 2 + |c.args| + 2 * own;
    FlagSets(c, order, own, v);
    forall i | SetsAt(words, i, v) ensures i == at {
      hide *;
      SetsOnlyHere(c, order, own, i, v);
    }
    hide SetsAt, Meant;
    assert SetsAt(words, at, v);
  }

  lemma SetsOnlyHere(c: Command, order: seq<string>, own: nat, i: int, v: string)
    requires c.subCommand == Build && IsOrder(order, Vars(c)) && own < |order| && order[own] == v && Name(v)
    requires (forall k :: k in Vars(c) ==> !(v + "=" <= k)) && (forall i :: !SetsAt(c.args, i, v))
    requires SetsAt(Meant(c, order), i, v)
    ensures i == 2 + |c.args| + 2 * own
  {
    hide *;
    WhereWordsSet(c, order, i, v);
    assert !SetsAt(c.args, i - 2, v);
    OnlyOwnFlagAt(c, order, own, i - 2 - |c.args|, v);
  }

  lemma OnlyOwnFlagAt(c: Command, order: seq<string>, own: nat, x: int, v: string)
    requires IsOrder(order, Vars(c)) && own < |order| && order[own] == v
    requires (forall k :: k in Vars(c) ==> !(v + "=" <= k)) && FlagAt(order, x, v)
    ensures x == 2 * own
  {
    assert order[x / 2] in Vars(c);
  }

  lemma OnlyOwnFlag(c: Command, order: seq<string>, own: nat, v: string)
    requires c.subCommand == Build && IsOrder(order, Vars(c)) && own < |order| && order[own] == v && Name(v)
    requires SetsOnce(Meant(c, order), v)
    ensures forall k :: k in Vars(c) ==> !(v + "=" <= k)
  {
    forall k | k in Vars(c) ensures !(v + "=" <= k) {
      assert k in order;
      var j :| 0 <= j < |order| && order[j] == k;
      OtherFlagSetsNot(c, order, own, j, v);
    }
  }

  lemma OtherFlagSetsNot(c: Command, order: seq<string>, own: nat, j: nat, v: string)
    requires c.subCommand == Build && IsOrder(order, Vars(c)) && own < |order| && order[own] == v && j < |order| && Name(v)
    requires SetsOnce(Meant(c, order), v)
    ensures !(v + "=" <= order[j])
  {
    hide Meant, SetsAt;
    if v + "=" <= order[j] {
      assert Named(v, v) && Named(order[j], v);
      hide Named;
      FlagSets(c, order, own, v);
      FlagSets(c, order, j, v);
    }
  }

  lemma FlagSets(c: Command, order: seq<string>, j: nat, v: string)
    requires c.subCommand == Build && IsOrder(order, Vars(c)) && j < |order| && Named(order[j], v) && Name(v)
    ensures SetsAt(Meant(c, order), 2 + |c.args| + 2 * j, v)
  {
    FlagIsAt(order, j, v);
    hide *;
    WhereWordsSet(c, order, 2 + |c.args| + 2 * j, v);
  }

  lemma FlagIsAt(order: seq<string>, j: nat, v: string)
    requires j < |order| && Named(order[j], v)
    ensures FlagAt(order, 2 * j, v)
  {}

  // ---------------------------------------------------------------- any texts that close their quotes

  ghost predicate SetsAny(words: seq<string>, v: string) { exists i :: SetsAt(words, i, v) }

  // The last word of one text and the first of the next make a setting.
  predicate Seam(a: seq<string>, b: seq<string>, v: string) {
    a != [] && b != [] && a[|a| - 1] == "-var" && v + "=" <= b[0]
  }

  lemma WhereConcatSets(a: seq<string>, b: seq<string>, v: string)
    ensures forall i :: SetsAt(a + b, i, v) <==>
      SetsAt(a, i, v) || (i == |a| - 1 && Seam(a, b, v)) || SetsAt(b, i - |a|, v)
    ensures forall i :: SetsAt(a, i, v) ==> i < |a| - 1
    ensures forall i :: SetsAt(b, i, v) ==> i >= 0 && SetsAt(a + b, i + |a|, v)
  {
    var ab := a + b;
    assert forall i :: 0 <= i < |a| ==> ab[i] == a[i];
    assert forall i :: |a| <= i < |ab| ==> ab[i] == b[i - |a|];
    assert forall i :: 0 <= i < |b| ==> b[i] == ab[i + |a|];
  }

  lemma ConcatSets(a: seq<string>, b: seq<string>, v: string)
    ensures SetsAny(a + b, v) <==> SetsAny(a, v) || SetsAny(b, v) || Seam(a, b, v)
    ensures SetsAny(a, v) || SetsAny(b, v) ==>
      (SetsOnce(a + b, v) <==>
         !Seam(a, b, v) && ((SetsOnce(a, v) && !SetsAny(b, v)) || (!SetsAny(a, v) && SetsOnce(b, v))))
  {
    WhereConcatSets(a, b, v);
    hide SetsAt, Seam;
    if Seam(a, b, v) {
      assert SetsAt(a + b, |a| - 1, v);
    }
    if i :| SetsAt(a, i, v) {
      assert SetsAt(a + b, i, v);
    }
    if i :| SetsAt(b, i, v) {
      assert SetsAt(a + b, i + |a|, v);
    }
    if SetsAny(a, v) || SetsAny(b, v) {
      ConcatSetsOnce(a, b, v);
    }
  }

  lemma ConcatSetsOnce(a: seq<string>, b: seq<string>, v: string)
    requires SetsAny(a, v) || SetsAny(b, v)
    ensures SetsOnce(a + b, v) <==>
      !Seam(a, b, v) && ((SetsOnce(a, v) && !SetsAny(b, v)) || (!SetsAny(a, v) && SetsOnce(b, v)))
  {
    WhereConcatSets(a, b, v);
    hide SetsAt, Seam;
    var ab := a + b;
    if SetsOnce(ab, v) {
      var k :| SetsAt(ab, k, v) && forall j :: SetsAt(ab, j, v) ==> j == k;
      assert Seam(a, b, v) ==> SetsAt(ab, |a| - 1, v);
      assert forall i :: SetsAt(b, i, v) ==> SetsAt(ab, i + |a|, v);
      if SetsAny(a, v) {
        var i :| SetsAt(a, i, v);
        assert SetsAt(ab, i, v);
      } else {
        var i :| SetsAt(b, i, v);
        assert SetsAt(ab, i + |a|, v);
      }
    }
    if !Seam(a, b, v) && SetsOnce(a, v) && !SetsAny(b, v) {
      var i :| SetsAt(a, i, v) && forall j :: SetsAt(a, j, v) ==> j == i;
      assert SetsAt(ab, i, v);
    }
    if !Seam(a, b, v) && !SetsAny(a, v) && SetsOnce(b, v) {
      var i :| SetsAt(b, i, v) && forall j :: SetsAt(b, j, v) ==> j == i;
      assert SetsAt(ab, i + |a|, v);
    }
  }

  // What the words of some texts set.
  ghost predicate NoneSets(texts: seq<string>, v: string) {
    forall i :: 0 <= i < |texts| ==> !SetsAny(Words(texts[i]).GetOr([]), v)
  }

  ghost predicate OnlySets(texts: seq<string>, p: int, v: string) {
    forall i :: 0 <= i < |texts| && i != p ==> !SetsAny(Words(texts[i]).GetOr([]), v)
  }

  // No text's last word makes a setting with the first word after it.
  predicate NoSeams(texts: seq<string>, v: string) {
    texts != [] ==> !Seam(Words(texts[0]).GetOr([]), WordsOf(texts[1..]).GetOr([]), v) && NoSeams(texts[1..], v)
  }

  lemma FirstAndOthers(texts: seq<string>, p: nat, v: string)
    requires texts != []
    ensures NoneSets(texts, v) <==> !SetsAny(Words(texts[0]).GetOr([]), v) && NoneSets(texts[1..], v)
    ensures OnlySets(texts, 0, v) <==> NoneSets(texts[1..], v)
    ensures p > 0 ==> (OnlySets(texts, p, v) <==> !SetsAny(Words(texts[0]).GetOr([]), v) && OnlySets(texts[1..], p - 1, v))
  {
    hide Words, SetsAny;
    var rest := texts[1..];
    assert forall i :: 1 <= i < |texts| ==> texts[i] == rest[i - 1];
  }

  lemma {:induction false} NoneSetsJoined(texts: seq<string>, v: string)
    requires WordsOf(texts).Some?
    ensures SetsAny(WordsOf(texts).value, v) <==> !(NoneSets(texts, v) && NoSeams(texts, v))
  {
    if texts == [] {
      assert forall i :: !SetsAt([], i, v);
    } else {
      NoneSetsJoined(texts[1..], v);
      FirstAndOthers(texts, 0, v);
      ConcatSets(Words(texts[0]).value, WordsOf(texts[1..]).value, v);
      hide SetsAny, SetsOnce, Words, Seam, NoneSets;
    }
  }

  // With text `p` known to set the variable: all of them together set it once if and only if
  // that text does, no other does, and none does with the first word after it.
  lemma {:induction false} OnceJoined(texts: seq<string>, p: nat, v: string)
    requires WordsOf(texts).Some? && p < |texts| && SetsAny(Words(texts[p]).GetOr([]), v)
    ensures SetsOnce(WordsOf(texts).value, v) <==>
      SetsOnce(Words(texts[p]).GetOr([]), v) && OnlySets(texts, p, v) && NoSeams(texts, v)
  {
    hide SetsAny, SetsOnce, Seam, NoneSets, OnlySets;
    var first, rest := Words(texts[0]).value, texts[1..];
    NoneSetsJoined(rest, v);
    FirstAndOthers(texts, p, v);
    ConcatSets(first, WordsOf(rest).value, v);
    OnceSetsAny(first, v);
    if p > 0 {
      assert rest[p - 1] == texts[p];
      OnceJoined(rest, p - 1, v);
      OneSets(rest, p - 1, v);
    }
    hide SetsAny, SetsOnce, Words, Seam, NoneSets, OnlySets;
  }

  lemma OneSets(texts: seq<string>, p: nat, v: string)
    requires p < |texts| && SetsAny(Words(texts[p]).GetOr([]), v)
    ensures !NoneSets(texts, v)
  {}

  lemma OnceSetsAny(words: seq<string>, v: string)
    ensures SetsOnce(words, v) ==> SetsAny(words, v)
  {}

  // A variable flag that closes its quotes sets at least its own variable.
  lemma OwnFlagSetsAny(v: string, value: string)
    requires Name(v) && '\'' !in v && Words(VarFlag(v, value)).Some?
    ensures SetsAny(Words(VarFlag(v, value)).value, v)
  {
    var q := v + "=";
    FlagFeeds(v, value);
    FeedQuoted(Opened, q);
    assert v + "=" + value + "'" == q + (value + "'") && "" + q == q;
    FeedThen(Opened, q, value + "'");
    SecondWordStays(Opened.(word := Some(q)), value + "'", q);
    var words := Words(VarFlag(v, value)).value;
    assert words[0] == "-var" && q <= words[1];
    assert SetsAt(words, 0, v);
  }

  // A word once begun is read to its end.
  lemma {:induction false} SecondWordStays(r: Reader, text: string, q: string)
    requires |r.AllWords()| > 1 && r.AllWords()[0] == "-var" && q <= r.AllWords()[1] && (r.word.Some? ==> |r.words| > 0)
    requires Feed(r, text).Some? && Feed(r, text).value.commands == r.commands
    ensures var words := Feed(r, text).value.AllWords(); |words| > 1 && words[0] == "-var" && q <= words[1]
    decreases text
  {
    if text != "" {
      var next := Next(r, text[0]).value;
      FeedGrows(next, text[1..]);
      SecondWordStays(next, text[1..], q);
    }
  }

  // Of a build whose texts each close their quotes, the words set a variable it has a flag
  // for exactly once if and only if its flag does so once, no other text does, and no two
  // texts do between them.
  lemma TextsSetOnce(c: Command, order: seq<string>, own: nat, v: string)
    requires c.subCommand == Build && IsOrder(order, Vars(c)) && own < |order| && order[own] == v
    requires Name(v) && '\'' !in v && TextsClose(c)
    ensures WordsOf(Parts(c, order)).Some?
    ensures SetsOnce(WordsOf(Parts(c, order)).value, v) <==>
      && SetsOnce(Words(VarFlag(v, Vars(c)[v])).GetOr([]), v)
      && OnlySets(Parts(c, order), 2 + |c.args| + own, v) && NoSeams(Parts(c, order), v)
  {
    var parts, p := Parts(c, order), 2 + |c.args| + own;
    hide Parts, VarFlag, WordsOf, Words, SetsOnce, OnlySets, NoSeams, Closes;
    OwnPart(c, order, own);
    PartsClose(c, order);
    PartsSetOnce(parts, p, Vars(c)[v], v);
  }

  lemma PartsSetOnce(parts: seq<string>, p: nat, value: string, v: string)
    requires p < |parts| && parts[p] == VarFlag(v, value) && Name(v) && '\'' !in v
    requires forall i :: 0 <= i < |parts| ==> Closes(parts[i])
    ensures WordsOf(parts).Some?
    ensures SetsOnce(WordsOf(parts).value, v) <==>
      SetsOnce(Words(VarFlag(v, value)).GetOr([]), v) && OnlySets(parts, p, v) && NoSeams(parts, v)
  {
    hide Words, WordsOf, VarFlag, SetsAny, SetsOnce, OnlySets, NoSeams, Closes;
    ClosingTextsRead(parts);
    EachReads(parts, p);
    OwnFlagSetsAny(v, value);
    OnceJoined(parts, p, v);
  }

  lemma OwnPart(c: Command, order: seq<string>, own: nat)
    requires c.subCommand == Build && IsOrder(order, Vars(c)) && own < |order|
    ensures |Parts(c, order)| > 2 + |c.args| + own && Parts(c, order)[2 + |c.args| + own] == VarFlag(order[own], Vars(c)[order[own]])
  {
    PartsOfBuild(c, order);
  }
}
