// When exactly the shell runs the commands of a job as they are meant: Script shows what is
// enough, counting characters shows that nothing less is.
module AsWritten {
  import opened Options
  import opened Commands
  import opened Rendering
  import opened Shell
  import opened Script

  // ---------------------------------------------------------------- counting characters

  function Count(ch: char, text: string): nat { multiset(text)[ch] }

  function Sum(ch: char, texts: seq<string>): nat {
    if texts == [] then 0 else Count(ch, texts[0]) + Sum(ch, texts[1..])
  }

  function SumAll(ch: char, commands: seq<seq<string>>): nat {
    if commands == [] then 0 else Sum(ch, commands[0]) + SumAll(ch, commands[1..])
  }

  lemma CountThen(ch: char, a: string, b: string)
    ensures Count(ch, a + b) == Count(ch, a) + Count(ch, b)
  {}

  lemma CountFirst(ch: char, text: string)
    requires text != ""
    ensures Count(ch, text) == (if text[0] == ch then 1 else 0) + Count(ch, text[1..])
  {
    assert text == [text[0]] + text[1..];
  }

  lemma CountNone(ch: char, text: string)
    ensures Count(ch, text) == 0 <==> ch !in text
  {}

  lemma {:induction false} SumThen(ch: char, a: seq<string>, b: seq<string>)
    ensures Sum(ch, a + b) == Sum(ch, a) + Sum(ch, b)
  {
    if a == [] {
      assert a + b == b;
    } else {
      SumThen(ch, a[1..], b);
      assert (a + b)[1..] == a[1..] + b;
    }
  }

  lemma SumOne(ch: char, text: string)
    ensures Sum(ch, [text]) == Count(ch, text)
  {
    assert [text][1..] == [];
  }

  lemma {:induction false} SumAllThen(ch: char, a: seq<seq<string>>, b: seq<seq<string>>)
    ensures SumAll(ch, a + b) == SumAll(ch, a) + SumAll(ch, b)
  {
    if a == [] {
      assert a + b == b;
    } else {
      SumAllThen(ch, a[1..], b);
      assert (a + b)[1..] == a[1..] + b;
    }
  }

  lemma SumAllOne(ch: char, words: seq<string>)
    ensures SumAll(ch, [words]) == Sum(ch, words)
  {
    assert [words][1..] == [];
  }

  lemma {:induction false} SumNone(ch: char, texts: seq<string>)
    ensures Sum(ch, texts) == 0 <==> forall i :: 0 <= i < |texts| ==> ch !in texts[i]
  {
    if texts != [] {
      SumNone(ch, texts[1..]);
      assert forall i :: 0 <= i < |texts[1..]| ==> texts[1..][i] == texts[i + 1];
    }
  }

  lemma {:induction false} SumAllNone(ch: char, commands: seq<seq<string>>, i: nat)
    requires i < |commands| && SumAll(ch, commands) == 0
    ensures Sum(ch, commands[i]) == 0
  {
    if i > 0 {
      SumAllNone(ch, commands[1..], i - 1);
    }
  }

  // ---------------------------------------------------------------- what reading keeps

  function Kept(ch: char, r: Reader): nat {
    SumAll(ch, r.commands) + Sum(ch, r.words) + Count(ch, r.word.GetOr(""))
  }

  function All(r: Reader): seq<seq<string>> { r.commands + [r.AllWords()] }

  predicate Sound(r: Reader) { r.place == HalfAnd ==> r.word == None }

  predicate Keeps(place: Place, ch: char) {
    match place
    case InSingle => ch != '\''
    case InDouble => ch != '"'
    case HalfAnd => false
    case Outside => PlainChar(ch)
  }

  lemma KeptWords(ch: char, r: Reader)
    ensures Sum(ch, r.AllWords()) == Sum(ch, r.words) + Count(ch, r.word.GetOr(""))
    ensures SumAll(ch, All(r)) == Kept(ch, r)
  {
    if r.word.Some? {
      SumThen(ch, r.words, [r.word.value]);
      SumOne(ch, r.word.value);
    } else {
      assert r.AllWords() == r.words;
    }
    SumAllThen(ch, r.commands, [r.AllWords()]);
    SumAllOne(ch, r.AllWords());
  }

  lemma KeptLonger(ch: char, r: Reader, x: char)
    ensures Kept(ch, r.Longer(x)) == Kept(ch, r) + if x == ch then 1 else 0
  {
    CountThen(ch, r.word.GetOr(""), [x]);
  }

  lemma KeptWordEnds(ch: char, r: Reader, place: Place)
    ensures Kept(ch, Reader(place, None, r.AllWords(), r.commands)) == Kept(ch, r)
  {
    KeptWords(ch, r);
    CountNone(ch, "");
  }

  lemma KeptCommandEnds(ch: char, r: Reader)
    requires r.word == None
    ensures Kept(ch, Reader(Outside, None, [], r.commands + [r.words])) == Kept(ch, r)
  {
    SumAllThen(ch, r.commands, [r.words]);
    SumAllOne(ch, r.words);
    CountNone(ch, "");
  }

  // Kept looks at the place no more than at where a word begins.
  lemma KeptPlace(ch: char, r: Reader, place: Place)
    ensures Kept(ch, r.(place := place)) == Kept(ch, r)
    ensures Kept(ch, r.(place := place, word := Some(r.word.GetOr("")))) == Kept(ch, r)
  {}

  lemma KeptStep(ch: char, r: Reader, x: char)
    requires Next(r, x).Some? && Sound(r)
    ensures Sound(Next(r, x).value)
    ensures Kept(ch, Next(r, x).value) == Kept(ch, r) + if x == ch && Keeps(r.place, x) then 1 else 0
  {
    hide Kept;
    var next := Next(r, x).value;
    if next == r.Longer(x) {
      KeptLonger(ch, r, x);
    } else if r.place == HalfAnd {
      KeptCommandEnds(ch, r);
    } else {
      KeptWordEnds(ch, r, next.place);
      KeptPlace(ch, r, next.place);
    }
  }

  // Reading never adds characters, and loses none of the plain ones.
  lemma {:induction false} KeptFeed(ch: char, r: Reader, text: string)
    requires Feed(r, text).Some? && Sound(r)
    ensures Sound(Feed(r, text).value) && Kept(ch, Feed(r, text).value) <= Kept(ch, r) + Count(ch, text)
    ensures PlainChar(ch) ==> Kept(ch, Feed(r, text).value) == Kept(ch, r) + Count(ch, text)
    decreases text
  {
    if text != "" {
      hide Kept, Count;
      CountFirst(ch, text);
      KeptStep(ch, r, text[0]);
      KeptFeed(ch, Next(r, text[0]).value, text[1..]);
    } else {
      CountNone(ch, text);
    }
  }

  // The commands before do not matter.
  lemma {:induction false} CommandsFrame(r: Reader, text: string, before: seq<seq<string>>)
    ensures var r' := Feed(r, text);
      Feed(r.(commands := before + r.commands), text) ==
        if r'.Some? then Some(r'.value.(commands := before + r'.value.commands)) else None
    decreases text
  {
    if text != "" {
      var next := Next(r, text[0]);
      var framed := r.(commands := before + r.commands);
      assert framed.AllWords() == r.AllWords();
      assert before + r.commands + [r.words] == before + (r.commands + [r.words]);
      assert Next(framed, text[0]) ==
        if next.Some? then Some(next.value.(commands := before + next.value.commands)) else None;
      if next.Some? {
        CommandsFrame(next.value, text[1..], before);
      }
    }
  }

  // ---------------------------------------------------------------- inside single quotes

  // Is the number of single quotes odd?
  function Odd(text: string): bool { text != "" && (text[0] == '\'') != Odd(text[1..]) }

  // The characters inside single quotes, where no others count.
  function Quoted(text: string, inside: bool): string {
    if text == "" then ""
    else if text[0] == '\'' then Quoted(text[1..], !inside)
    else (if inside then [text[0]] else "") + Quoted(text[1..], inside)
  }

  lemma {:induction false} QuotedThen(a: string, b: string, inside: bool)
    ensures Quoted(a + b, inside) == Quoted(a, inside) + Quoted(b, inside != Odd(a))
    ensures Odd(a + b) == (Odd(a) != Odd(b))
    decreases a
  {
    if a == "" {
      assert a + b == b;
    } else {
      assert (a + b)[0] == a[0] && (a + b)[1..] == a[1..] + b;
      QuotedThen(a[1..], b, if a[0] == '\'' then !inside else inside);
    }
  }

  lemma {:induction false} NoQuotes(text: string, inside: bool)
    requires '\'' !in text
    ensures !Odd(text) && Quoted(text, inside) == if inside then text else ""
    decreases text
  {
    if text != "" {
      NoQuotes(text[1..], inside);
      assert text == [text[0]] + text[1..];
    }
  }

  // A step that keeps a double quote if it reads one: none is opened, and what is not plain
  // is kept inside single quotes only.
  lemma QuotedStep(r: Reader, x: char, ch: char)
    requires Next(r, x).Some? && Sound(r) && r.place != InDouble && !PlainChar(ch)
    requires Kept('"', Next(r, x).value) == Kept('"', r) + if x == '"' then 1 else 0
    ensures var next := Next(r, x).value;
      && next.place != InDouble && ((next.place == InSingle) == ((r.place == InSingle) != (x == '\'')))
      && Kept(ch, next) == Kept(ch, r) + if x == ch && r.place == InSingle && x != '\'' then 1 else 0
  {
    KeptStep('"', r, x);
    KeptStep(ch, r, x);
    hide Kept;
  }

  // If no double quote is lost, none was ever opened: what is not plain was then kept inside
  // single quotes only, and no single quote at all.
  lemma {:induction false} OnlyQuotedKept(r: Reader, text: string, ch: char)
    requires Feed(r, text).Some? && Sound(r) && r.place != InDouble
    requires Kept('"', Feed(r, text).value) == Kept('"', r) + Count('"', text)
    requires !PlainChar(ch)
    ensures Kept(ch, Feed(r, text).value) == Kept(ch, r) + if ch == '\'' then 0 else Count(ch, Quoted(text, r.place == InSingle))
    decreases text
  {
    if text == "" {
      CountNone(ch, text);
    } else {
      var x, next := text[0], Next(r, text[0]).value;
      CountFirst('"', text);
      KeptStep('"', r, x);
      KeptFeed('"', next, text[1..]);
      QuotedFirst(text, r.place == InSingle, ch);
      hide Kept, Count, Next, Quoted, Keeps;
      QuotedStep(r, x, ch);
      OnlyQuotedKept(next, text[1..], ch);
    }
  }

  lemma QuotedFirst(text: string, inside: bool, ch: char)
    requires text != ""
    ensures Count(ch, Quoted(text, inside)) ==
      (if inside && text[0] == ch && ch != '\'' then 1 else 0) + Count(ch, Quoted(text[1..], inside != (text[0] == '\'')))
  {
    if text[0] != '\'' && inside {
      CountThen(ch, [text[0]], Quoted(text[1..], inside));
    }
  }

  // ---------------------------------------------------------------- the lines of a job

  // The lines are the texts of the commands, for these walks of their variables.
  ghost predicate AreLines(lines: seq<string>, cmds: seq<Command>, orders: seq<seq<string>>) {
    && AreOrders(cmds, orders) && |lines| == |cmds| > 0
    && forall i :: 0 <= i < |lines| ==> lines[i] == Join(Parts(cmds[i], orders[i]), " ")
  }

  function FlagPart(c: Command, order: seq<string>): seq<string>
    requires forall k :: k in order ==> k in Vars(c)
  {
    if c.subCommand == Build then FlagWords(Vars(c), order) else []
  }

  // What is not a variable flag, on either side of the flags.
  function Head(c: Command): seq<string> { ["packer", SubText(c.subCommand)] + c.args }

  function Tail(c: Command): seq<string> { FixedFlags(c) + Directory(c) }

  lemma {:induction false} JoinCount(ch: char, texts: seq<string>, separator: string)
    requires ch !in separator
    ensures Count(ch, Join(texts, separator)) == Sum(ch, texts)
  {
    if |texts| == 1 {
      SumOne(ch, texts[0]);
      assert texts == [texts[0]];
    } else if texts != [] {
      JoinCount(ch, texts[1..], separator);
      CountThen(ch, texts[0] + separator, Join(texts[1..], separator));
      CountThen(ch, texts[0], separator);
      CountNone(ch, separator);
    } else {
      CountNone(ch, "");
    }
  }

  lemma OpeningCount(ch: char, opening: string)
    requires ch != ' ' && ch != '\'' && opening == "-var '"
    ensures Count(ch, opening) == Count(ch, "-var") && Count(ch, "'") == 0
  {
    assert opening == "-var" + " '";
    CountNone(ch, " '");
    CountNone(ch, "'");
    hide Count;
    CountThen(ch, "-var", " '");
  }

  // A flag's text has the characters of its two words, one blank and two quotes.
  lemma FlagCount(ch: char, key: string, value: string)
    requires ch != ' ' && ch != '\''
    ensures Count(ch, VarFlag(key, value)) == Count(ch, "-var") + Count(ch, key + "=" + value)
  {
    hide Count;
    OpeningCount(ch, "-var '");
    FlagText(key, value);
    CountThen(ch, "-var '" + (key + "=" + value), "'");
    CountThen(ch, "-var '", key + "=" + value);
  }

  lemma FlagText(key: string, value: string)
    ensures VarFlag(key, value) == "-var '" + (key + "=" + value) + "'"
  {}

  lemma LastFlag(m: map<string, string>, order: seq<string>)
    requires order != [] && forall k :: k in order ==> k in m
    ensures var init, last := order[..|order| - 1], order[|order| - 1];
      && VarFlags(m, order) == VarFlags(m, init) + [VarFlag(last, m[last])]
      && FlagWords(m, order) == FlagWords(m, init) + ["-var", last + "=" + m[last]]
  {
    hide VarFlag;
  }

  lemma {:induction false} FlagsCount(ch: char, m: map<string, string>, order: seq<string>)
    requires (forall k :: k in order ==> k in m) && ch != ' ' && ch != '\''
    ensures Sum(ch, VarFlags(m, order)) == Sum(ch, FlagWords(m, order))
  {
    if order != [] {
      var init, last := order[..|order| - 1], order[|order| - 1];
      hide VarFlag, VarFlags, FlagWords, Sum, Count;
      FlagsCount(ch, m, init);
      LastFlag(m, order);
      FlagCount(ch, last, m[last]);
      SumThen(ch, VarFlags(m, init), [VarFlag(last, m[last])]);
      SumOne(ch, VarFlag(last, m[last]));
      SumThen(ch, FlagWords(m, init), ["-var", last + "=" + m[last]]);
      TwoTexts(ch, "-var", last + "=" + m[last]);
    } else {
      assert VarFlags(m, order) == [] && FlagWords(m, order) == [];
    }
  }

  lemma TwoTexts(ch: char, a: string, b: string)
    ensures Sum(ch, [a, b]) == Count(ch, a) + Count(ch, b)
  {
    SumOne(ch, b);
    assert [a, b][1..] == [b];
  }

  lemma MeantParts(ch: char, c: Command, order: seq<string>)
    requires IsOrder(order, Vars(c))
    ensures Meant(c, order) == Head(c) + FlagPart(c, order) + Tail(c)
    ensures Sum(ch, Meant(c, order)) == Sum(ch, Head(c)) + Sum(ch, FlagPart(c, order)) + Sum(ch, Tail(c))
  {
    hide Sum;
    SumThen(ch, Head(c) + FlagPart(c, order), Tail(c));
    SumThen(ch, Head(c), FlagPart(c, order));
  }

  lemma LineCount(ch: char, c: Command, order: seq<string>)
    requires IsOrder(order, Vars(c)) && ch != ' ' && ch != '\''
    ensures Count(ch, Join(Parts(c, order), " ")) == Sum(ch, Meant(c, order))
  {
    PartsOf(c, order);
    FlagPartCount(ch, c, order);
    hide Sum, Count, Meant, Parts, FlagPart, FlagTexts;
    JoinCount(ch, Parts(c, order), " ");
    MeantParts(ch, c, order);
    SumThen(ch, Head(c) + FlagTexts(c, order), Tail(c));
    SumThen(ch, Head(c), FlagTexts(c, order));
  }

  lemma FlagPartCount(ch: char, c: Command, order: seq<string>)
    requires IsOrder(order, Vars(c)) && ch != ' ' && ch != '\''
    ensures Sum(ch, FlagTexts(c, order)) == Sum(ch, FlagPart(c, order))
  {
    if c.subCommand == Build {
      hide Sum;
      FlagsCount(ch, Vars(c), order);
    }
  }

  lemma {:induction false} SumsAgree(ch: char, texts: seq<string>, commands: seq<seq<string>>)
    requires |texts| == |commands| && forall i :: 0 <= i < |texts| ==> Count(ch, texts[i]) == Sum(ch, commands[i])
    ensures Sum(ch, texts) == SumAll(ch, commands)
  {
    if texts != [] {
      assert forall i :: 0 <= i < |texts[1..]| ==> texts[1..][i] == texts[i + 1] && commands[1..][i] == commands[i + 1];
      SumsAgree(ch, texts[1..], commands[1..]);
    }
  }

  lemma LinesCount(ch: char, lines: seq<string>, cmds: seq<Command>, orders: seq<seq<string>>)
    requires AreLines(lines, cmds, orders) && ch != ' ' && ch != '\'' && ch != '&'
    ensures Count(ch, Join(lines, " && ")) == SumAll(ch, MeantAll(cmds, orders))
  {
    hide Count, Sum, SumAll, Meant, Parts;
    forall i | 0 <= i < |lines| ensures Count(ch, lines[i]) == Sum(ch, MeantAll(cmds, orders)[i]) {
      LineCount(ch, cmds[i], orders[i]);
    }
    JoinCount(ch, lines, " && ");
    SumsAgree(ch, lines, MeantAll(cmds, orders));
  }

  // ---------------------------------------------------------------- what stands in quotes

  function QuotedAll(texts: seq<string>): (quoted: seq<string>)
    ensures |quoted| == |texts|
  {
    seq(|texts|, i requires 0 <= i < |texts| => Quoted(texts[i], false))
  }

  predicate Even(texts: seq<string>) { forall i :: 0 <= i < |texts| ==> !Odd(texts[i]) }

  lemma {:induction false} JoinQuoted(ch: char, texts: seq<string>, separator: string)
    requires Even(texts) && '\'' !in separator
    ensures !Odd(Join(texts, separator))
    ensures Count(ch, Quoted(Join(texts, separator), false)) == Sum(ch, QuotedAll(texts))
  {
    if |texts| == 1 {
      SumOne(ch, Quoted(texts[0], false));
      assert QuotedAll(texts) == [Quoted(texts[0], false)];
    } else if texts != [] {
      hide Odd, Quoted, Count;
      var rest := Join(texts[1..], separator);
      assert forall i :: 0 <= i < |texts[1..]| ==> texts[1..][i] == texts[i + 1];
      JoinQuoted(ch, texts[1..], separator);
      PrefixQuoted(texts[0], separator, rest);
      CountThen(ch, Quoted(texts[0], false), Quoted(rest, false));
      assert QuotedAll(texts)[0] == Quoted(texts[0], false) && QuotedAll(texts)[1..] == QuotedAll(texts[1..]);
    } else {
      CountNone(ch, "");
    }
  }

  lemma PrefixQuoted(text: string, separator: string, rest: string)
    requires !Odd(text) && '\'' !in separator
    ensures Odd(text + separator + rest) == Odd(rest)
    ensures Quoted(text + separator + rest, false) == Quoted(text, false) + Quoted(rest, false)
  {
    hide Odd, Quoted;
    NoQuotes(separator, false);
    QuotedThen(text + separator, rest, false);
    QuotedThen(text, separator, false);
    assert Quoted(text, false) + "" == Quoted(text, false);
  }

  // No text holds a single quote, and no name or value does.
  predicate Unquoted(c: Command) {
    && (forall i :: 0 <= i < |FixedTexts(c)| ==> '\'' !in FixedTexts(c)[i])
    && (c.subCommand == Build ==> forall k :: k in Vars(c) ==> '\'' !in k + "=" + Vars(c)[k])
  }

  lemma {:induction false} BareQuoted(ch: char, texts: seq<string>)
    requires forall i :: 0 <= i < |texts| ==> '\'' !in texts[i]
    ensures Even(texts) && Sum(ch, QuotedAll(texts)) == 0
  {
    forall i | 0 <= i < |texts| ensures !Odd(texts[i]) && QuotedAll(texts)[i] == "" {
      NoQuotes(texts[i], false);
    }
    SumNone(ch, QuotedAll(texts));
  }

  lemma FlagQuoted(key: string, value: string)
    requires '\'' !in key + "=" + value
    ensures !Odd(VarFlag(key, value)) && Quoted(VarFlag(key, value), false) == key + "=" + value
  {
    var t := key + "=" + value;
    assert VarFlag(key, value) == "-var " + ("'" + (t + "'"));
    assert ("'" + (t + "'"))[1..] == t + "'" && "'"[1..] == "";
    NoQuotes("-var ", false);
    NoQuotes(t, true);
    QuotedThen("-var ", "'" + (t + "'"), false);
    QuotedThen(t, "'", true);
    assert "" + (t + "") == t;
  }

  lemma QuotedAllThen(ch: char, a: seq<string>, b: seq<string>)
    ensures Sum(ch, QuotedAll(a + b)) == Sum(ch, QuotedAll(a)) + Sum(ch, QuotedAll(b))
    ensures Even(a) && Even(b) ==> Even(a + b)
  {
    hide Quoted, Odd, Sum;
    assert QuotedAll(a + b) == QuotedAll(a) + QuotedAll(b);
    SumThen(ch, QuotedAll(a), QuotedAll(b));
  }

  lemma {:induction false} FlagsQuoted(ch: char, m: map<string, string>, order: seq<string>)
    requires (forall k :: k in order ==> k in m && '\'' !in k + "=" + m[k]) && ch !in "-var"
    ensures Even(VarFlags(m, order)) && Sum(ch, QuotedAll(VarFlags(m, order))) == Sum(ch, FlagWords(m, order))
  {
    if order != [] {
      var init, last := order[..|order| - 1], order[|order| - 1];
      var t := last + "=" + m[last];
      hide VarFlag, VarFlags, FlagWords, Sum, Count, Odd, Quoted;
      FlagsQuoted(ch, m, init);
      LastFlag(m, order);
      FlagQuoted(last, m[last]);
      QuotedAllThen(ch, VarFlags(m, init), [VarFlag(last, m[last])]);
      assert QuotedAll([VarFlag(last, m[last])]) == [t];
      SumOne(ch, t);
      CountNone(ch, "-var");
      SumThen(ch, FlagWords(m, init), ["-var", t]);
      TwoTexts(ch, "-var", t);
    } else {
      assert VarFlags(m, order) == [] && FlagWords(m, order) == [];
    }
  }

  lemma LineQuoted(ch: char, c: Command, order: seq<string>)
    requires IsOrder(order, Vars(c)) && Unquoted(c) && ch !in "-var"
    ensures var line := Join(Parts(c, order), " ");
      !Odd(line) && Count(ch, Quoted(line, false)) == Sum(ch, FlagPart(c, order))
  {
    var head, flags, tail := Head(c), FlagTexts(c, order), Tail(c);
    hide Sum, Count, Odd, Quoted, QuotedAll, Even, Parts, VarFlags, FlagWords;
    FixedQuoted(ch, c);
    FlagPartQuoted(ch, c, order);
    PartsOf(c, order);
    hide FixedTexts, Head, Tail;
    QuotedAllThen(ch, head + flags, tail);
    QuotedAllThen(ch, head, flags);
    JoinQuoted(ch, head + flags + tail, " ");
  }

  lemma FixedQuoted(ch: char, c: Command)
    requires Unquoted(c)
    ensures Even(Head(c)) && Even(Tail(c)) && Sum(ch, QuotedAll(Head(c))) == Sum(ch, QuotedAll(Tail(c))) == 0
  {
    var head, tail := Head(c), Tail(c);
    hide Odd, Quoted, Sum, FixedFlags, Directory;
    assert FixedTexts(c) == head + tail;
    assert forall i :: 0 <= i < |head| ==> head[i] == FixedTexts(c)[i];
    assert forall i :: 0 <= i < |tail| ==> tail[i] == FixedTexts(c)[|head| + i];
    BareQuoted(ch, head);
    BareQuoted(ch, tail);
  }

  lemma FlagPartQuoted(ch: char, c: Command, order: seq<string>)
    requires IsOrder(order, Vars(c)) && Unquoted(c) && ch !in "-var"
    ensures Even(FlagTexts(c, order)) && Sum(ch, QuotedAll(FlagTexts(c, order))) == Sum(ch, FlagPart(c, order))
  {
    if c.subCommand == Build {
      FlagsQuoted(ch, Vars(c), order);
    } else {
      assert QuotedAll([]) == [];
    }
  }

  // ---------------------------------------------------------------- nothing less is enough

  // Each text stands for itself: no name or value of a variable holds a single quote, and
  // every other text is plain and not empty.
  predicate Literal(c: Command) {
    && PlainTexts(FixedTexts(c))
    && (c.subCommand == Build ==> forall k :: k in Vars(c) ==> '\'' !in k + "=" + Vars(c)[k])
  }

  lemma {:induction false} Termwise(ch: char, texts: seq<string>, commands: seq<seq<string>>)
    requires |texts| == |commands| && forall i :: 0 <= i < |texts| ==> Count(ch, texts[i]) <= Sum(ch, commands[i])
    ensures Sum(ch, texts) <= SumAll(ch, commands)
    ensures Sum(ch, texts) == SumAll(ch, commands) ==> forall i :: 0 <= i < |texts| ==> Count(ch, texts[i]) == Sum(ch, commands[i])
  {
    if texts != [] {
      hide Count;
      assert forall i :: 0 <= i < |texts[1..]| ==> texts[1..][i] == texts[i + 1] && commands[1..][i] == commands[i + 1];
      Termwise(ch, texts[1..], commands[1..]);
      assert forall i :: 0 < i < |texts| ==> texts[i] == texts[1..][i - 1] && commands[i] == commands[1..][i - 1];
    }
  }

  // A script of commands that reads as they are meant loses no double quote.
  lemma NoDoubleLost(lines: seq<string>, cmds: seq<Command>, orders: seq<seq<string>>)
    requires AreLines(lines, cmds, orders) && CommandsOf(Join(lines, " && ")) == Some(MeantAll(cmds, orders))
    ensures var r := Feed(Begin, Join(lines, " && "));
      && r.Some? && All(r.value) == MeantAll(cmds, orders)
      && Kept('"', Begin) == 0 && Kept('"', r.value) == Count('"', Join(lines, " && "))
  {
    LinesCount('"', lines, cmds, orders);
    KeptWords('"', Feed(Begin, Join(lines, " && ")).value);
    CountNone('"', "");
  }

  lemma ReadKept(ch: char, lines: seq<string>, cmds: seq<Command>, orders: seq<seq<string>>)
    requires AreLines(lines, cmds, orders) && CommandsOf(Join(lines, " && ")) == Some(MeantAll(cmds, orders))
    requires !PlainChar(ch)
    ensures SumAll(ch, MeantAll(cmds, orders)) == if ch == '\'' then 0 else Count(ch, Quoted(Join(lines, " && "), false))
  {
    NoDoubleLost(lines, cmds, orders);
    var r := Feed(Begin, Join(lines, " && ")).value;
    CountNone(ch, "");
    assert Kept(ch, Begin) == 0;
    KeptWords(ch, r);
    hide Kept, Count, Sum, SumAll, Feed, Quoted, MeantAll;
    OnlyQuotedKept(Begin, Join(lines, " && "), ch);
  }

  lemma ReadMeansUnquoted(lines: seq<string>, cmds: seq<Command>, orders: seq<seq<string>>, i: nat)
    requires AreLines(lines, cmds, orders) && CommandsOf(Join(lines, " && ")) == Some(MeantAll(cmds, orders)) && i < |cmds|
    ensures Unquoted(cmds[i])
  {
    ReadKept('\'', lines, cmds, orders);
    SumAllNone('\'', MeantAll(cmds, orders), i);
    assert MeantAll(cmds, orders)[i] == Meant(cmds[i], orders[i]);
    hide MeantAll, Sum, SumAll, CommandsOf;
    MeantUnquoted(cmds[i], orders[i]);
  }

  lemma MeantUnquoted(c: Command, order: seq<string>)
    requires IsOrder(order, Vars(c)) && Sum('\'', Meant(c, order)) == 0
    ensures Unquoted(c)
  {
    MeantParts('\'', c, order);
    FixedNone('\'', c);
    hide Sum, Meant, FixedTexts;
    if c.subCommand == Build {
      NoneInFlags('\'', Vars(c), order);
    }
  }

  lemma NoneInFlags(ch: char, m: map<string, string>, order: seq<string>)
    requires IsOrder(order, m) && Sum(ch, FlagWords(m, order)) == 0
    ensures forall k :: k in m ==> ch !in k + "=" + m[k]
  {
    SumNone(ch, FlagWords(m, order));
    hide Sum;
    forall k | k in m ensures ch !in k + "=" + m[k] {
      assert k in order;
      var j :| 0 <= j < |order| && order[j] == k;
      assert FlagWords(m, order)[2 * j + 1] == k + "=" + m[k];
    }
  }

  lemma FixedNone(ch: char, c: Command)
    requires Sum(ch, Head(c)) == 0 && Sum(ch, Tail(c)) == 0
    ensures forall i :: 0 <= i < |FixedTexts(c)| ==> ch !in FixedTexts(c)[i]
  {
    hide OtherFlags, Directory, SubText;
    assert FixedTexts(c) == Head(c) + Tail(c);
    SumNone(ch, Head(c));
    SumNone(ch, Tail(c));
    hide Sum, Head, Tail, FixedTexts;
    forall i | 0 <= i < |FixedTexts(c)| ensures ch !in FixedTexts(c)[i] {
      if i < |Head(c)| {
        assert FixedTexts(c)[i] == Head(c)[i];
      } else {
        assert FixedTexts(c)[i] == Tail(c)[i - |Head(c)|];
      }
    }
  }

  // Of what is not plain, a line has in quotes what its names and values have.
  lemma QuotedAtMost(ch: char, lines: seq<string>, cmds: seq<Command>, orders: seq<seq<string>>, i: nat)
    requires AreLines(lines, cmds, orders) && CommandsOf(Join(lines, " && ")) == Some(MeantAll(cmds, orders))
    requires i < |cmds| && !PlainChar(ch) && ch != '\''
    ensures !Odd(lines[i])
    ensures Count(ch, QuotedAll(lines)[i]) + Sum(ch, Head(cmds[i])) + Sum(ch, Tail(cmds[i])) == Sum(ch, MeantAll(cmds, orders)[i])
  {
    hide Sum, SumAll, Count, Quoted, Odd, Parts, FlagPart, CommandsOf, Head, Tail, Unquoted, Meant;
    ReadMeansUnquoted(lines, cmds, orders, i);
    LineQuoted(ch, cmds[i], orders[i]);
    MeantParts(ch, cmds[i], orders[i]);
  }

  // What is not plain stands in names and values only.
  lemma ReadMeansPlain(ch: char, lines: seq<string>, cmds: seq<Command>, orders: seq<seq<string>>, i: nat)
    requires AreLines(lines, cmds, orders) && CommandsOf(Join(lines, " && ")) == Some(MeantAll(cmds, orders))
    requires i < |cmds| && !PlainChar(ch) && ch != '\''
    ensures forall j :: 0 <= j < |FixedTexts(cmds[i])| ==> ch !in FixedTexts(cmds[i])[j]
  {
    hide Sum, SumAll, Count, Quoted, Odd, Parts, FixedTexts, CommandsOf, Head, Tail, MeantAll, QuotedAll, Join, PlainChar;
    ReadKept(ch, lines, cmds, orders);
    forall l | 0 <= l < |lines|
      ensures !Odd(lines[l]) && Count(ch, QuotedAll(lines)[l]) <= Sum(ch, MeantAll(cmds, orders)[l])
    {
      QuotedAtMost(ch, lines, cmds, orders, l);
    }
    assert Even(lines);
    JoinQuoted(ch, lines, " && ");
    Termwise(ch, QuotedAll(lines), MeantAll(cmds, orders));
    QuotedAtMost(ch, lines, cmds, orders, i);
    FixedNone(ch, cmds[i]);
  }

  lemma FlagReads(key: string, value: string)
    requires '\'' !in key + "=" + value
    ensures Words(VarFlag(key, value)) == Some(["-var", key + "=" + value])
  {
    FlagFeeds(key, value);
    QuotedOrLost(key + "=" + value);
  }

  lemma {:induction false} LiteralFlagsRead(m: map<string, string>, order: seq<string>)
    requires forall k :: k in order ==> k in m && '\'' !in k + "=" + m[k]
    ensures WordsOf(VarFlags(m, order)) == Some(FlagWords(m, order))
  {
    if order != [] {
      var init, last := order[..|order| - 1], order[|order| - 1];
      hide Words, VarFlag, VarFlags, FlagWords;
      LiteralFlagsRead(m, init);
      LastFlag(m, order);
      FlagReads(last, m[last]);
      OneTextReads(VarFlag(last, m[last]));
      hide WordsOf;
      WordsOfThen(VarFlags(m, init), [VarFlag(last, m[last])]);
    } else {
      assert VarFlags(m, order) == [] && FlagWords(m, order) == [];
    }
  }

  lemma OneTextReads(text: string)
    requires Words(text).Some?
    ensures WordsOf([text]) == Words(text)
  {
    assert [text][1..] == [] && Words(text).value + [] == Words(text).value;
  }

  // Plain texts: an empty one is not read at all.
  lemma {:induction false} EmptyIsLost(texts: seq<string>)
    requires forall i :: 0 <= i < |texts| ==> Plain(texts[i])
    ensures WordsOf(texts).Some? && |WordsOf(texts).value| <= |texts|
    ensures |WordsOf(texts).value| == |texts| ==> forall i :: 0 <= i < |texts| ==> texts[i] != ""
  {
    if texts != [] {
      assert forall i :: 0 <= i < |texts[1..]| ==> texts[1..][i] == texts[i + 1];
      EmptyIsLost(texts[1..]);
      if texts[0] == "" {
        EmptyReads(texts[0]);
      } else {
        TextReadAsWritten(texts[0]);
      }
      hide Words;
      assert forall i :: 0 < i < |texts| ==> texts[i] == texts[1..][i - 1];
    }
  }

  // The words of a line whose texts are plain but perhaps empty.
  lemma LineWords(c: Command, order: seq<string>)
    requires IsOrder(order, Vars(c)) && Unquoted(c)
    requires forall i :: 0 <= i < |FixedTexts(c)| ==> Plain(FixedTexts(c)[i])
    ensures var words := Words(Join(Parts(c, order), " ")); words.Some? && words.value != []
    ensures Words(Join(Parts(c, order), " ")) == Some(Meant(c, order)) ==> PlainTexts(FixedTexts(c))
  {
    FixedRead(c);
    FlagPartReads(c, order);
    MeantParts(' ', c, order);
    PartsOf(c, order);
    hide WordsOf, Words, Plain, PlainTexts, Parts, Meant, FixedTexts, FlagPart, FlagTexts, Sum;
    WordsOfThen(Head(c), FlagTexts(c, order));
    WordsOfThen(Head(c) + FlagTexts(c, order), Tail(c));
    JoinReads(Parts(c, order));
    hide Head, Tail;
  }

  lemma FixedRead(c: Command)
    requires forall i :: 0 <= i < |FixedTexts(c)| ==> Plain(FixedTexts(c)[i])
    ensures WordsOf(Head(c)).Some? && WordsOf(Head(c)).value != [] && |WordsOf(Head(c)).value| <= |Head(c)|
    ensures WordsOf(Tail(c)).Some? && |WordsOf(Tail(c)).value| <= |Tail(c)|
    ensures |WordsOf(Head(c)).value| == |Head(c)| && |WordsOf(Tail(c)).value| == |Tail(c)| ==> PlainTexts(FixedTexts(c))
  {
    FixedIsHeadTail(c);
    assert Head(c)[0] == "packer";
    hide WordsOf, Words, Plain, FixedTexts, Head, Tail;
    EmptyIsLost(Head(c));
    EmptyIsLost(Tail(c));
    HeadReads(Head(c));
  }

  lemma FlagPartReads(c: Command, order: seq<string>)
    requires IsOrder(order, Vars(c)) && Unquoted(c)
    ensures WordsOf(FlagTexts(c, order)) == Some(FlagPart(c, order))
  {
    if c.subCommand == Build {
      LiteralFlagsRead(Vars(c), order);
    }
  }

  lemma FixedIsHeadTail(c: Command)
    ensures FixedTexts(c) == Head(c) + Tail(c)
    ensures forall i :: 0 <= i < |Head(c)| ==> FixedTexts(c)[i] == Head(c)[i]
    ensures forall i :: 0 <= i < |Tail(c)| ==> FixedTexts(c)[|Head(c)| + i] == Tail(c)[i]
  {
    hide OtherFlags, Directory, SubText;
    assert FixedTexts(c) == Head(c) + Tail(c);
  }

  lemma HeadReads(head: seq<string>)
    requires head != [] && head[0] == "packer" && WordsOf(head).Some?
    ensures WordsOf(head).value != []
  {
    PackerReads(head[0]);
  }

  // The joined lines are read as the commands are meant only if every text stands for itself.
  lemma ReadMeansLiteral(lines: seq<string>, cmds: seq<Command>, orders: seq<seq<string>>)
    requires AreLines(lines, cmds, orders) && CommandsOf(Join(lines, " && ")) == Some(MeantAll(cmds, orders))
    ensures forall i :: 0 <= i < |cmds| ==> Literal(cmds[i])
  {
    forall i | 0 <= i < |cmds|
      ensures Unquoted(cmds[i]) && forall j :: 0 <= j < |FixedTexts(cmds[i])| ==> Plain(FixedTexts(cmds[i])[j])
    {
      hide Words, CommandsOf, Meant, MeantAll, Parts, FixedTexts, Unquoted;
      ReadMeansUnquoted(lines, cmds, orders, i);
      FixedArePlain(lines, cmds, orders, i);
    }
    LinesAsMeant(lines, cmds, orders);
    forall i | 0 <= i < |cmds| ensures Literal(cmds[i]) {
      hide Words, CommandsOf, MeantAll, Parts, FixedTexts;
      LineWords(cmds[i], orders[i]);
    }
  }

  lemma FixedArePlain(lines: seq<string>, cmds: seq<Command>, orders: seq<seq<string>>, i: nat)
    requires AreLines(lines, cmds, orders) && CommandsOf(Join(lines, " && ")) == Some(MeantAll(cmds, orders))
    requires i < |cmds|
    ensures forall j :: 0 <= j < |FixedTexts(cmds[i])| ==> Plain(FixedTexts(cmds[i])[j])
  {
    hide CommandsOf, MeantAll, Parts, FixedTexts;
    forall j, l | 0 <= j < |FixedTexts(cmds[i])| && 0 <= l < |FixedTexts(cmds[i])[j]|
      ensures PlainChar(FixedTexts(cmds[i])[j][l])
    {
      var ch := FixedTexts(cmds[i])[j][l];
      assert ch in FixedTexts(cmds[i])[j];
      if ch == '\'' {
        ReadMeansUnquoted(lines, cmds, orders, i);
      } else if !PlainChar(ch) {
        ReadMeansPlain(ch, lines, cmds, orders, i);
      }
    }
  }

  // Lines whose texts are plain or quoted are read one by one.
  lemma LinesAsMeant(lines: seq<string>, cmds: seq<Command>, orders: seq<seq<string>>)
    requires AreLines(lines, cmds, orders) && CommandsOf(Join(lines, " && ")) == Some(MeantAll(cmds, orders))
    requires forall i :: 0 <= i < |cmds| ==>
      Unquoted(cmds[i]) && forall j :: 0 <= j < |FixedTexts(cmds[i])| ==> Plain(FixedTexts(cmds[i])[j])
    ensures forall i :: 0 <= i < |cmds| ==> Words(lines[i]) == Some(Meant(cmds[i], orders[i]))
  {
    var words := seq(|lines|, i requires 0 <= i < |lines| => Words(lines[i]).GetOr([]));
    forall i | 0 <= i < |lines| ensures Words(lines[i]) == Some(words[i]) && words[i] != [] {
      hide Words, CommandsOf, Meant, MeantAll, Parts, FixedTexts, Unquoted;
      LineWords(cmds[i], orders[i]);
    }
    hide Words, Meant, Parts, FixedTexts, Unquoted;
    FeedLines([], lines, words);
    assert [] + words == words;
  }

  // ---------------------------------------------------------------- the whole script

  // The shell runs two echoes and then the commands, word for word.
  ghost predicate RunsAsMeant(lines: seq<string>, cmds: seq<Command>, orders: seq<seq<string>>)
    requires AreOrders(cmds, orders)
  {
    exists echoed :: CommandsOf(ScriptOf(lines)) == Some([Banner, ["echo"] + echoed] + MeantAll(cmds, orders))
  }

  // The main result: the shell runs a job's commands as they are meant if and only if every
  // text stands for itself and the joined commands, set between the single quotes of the
  // echo, get back there within the one command.
  lemma ScriptRunsAsMeant(lines: seq<string>, cmds: seq<Command>, orders: seq<seq<string>>)
    requires AreLines(lines, cmds, orders)
    ensures RunsAsMeant(lines, cmds, orders) <==>
      (forall i :: 0 <= i < |cmds| ==> Literal(cmds[i])) && Through(Join(lines, " && "))
  {
    if RunsAsMeant(lines, cmds, orders) {
      var echoed :| CommandsOf(ScriptOf(lines)) == Some([Banner, ["echo"] + echoed] + MeantAll(cmds, orders));
      hide CommandsOf, ScriptOf, Through, Literal, Parts, MeantAll, RunsAsMeant;
      RunsApart(lines, cmds, orders, echoed);
      ReadMeansLiteral(lines, cmds, orders);
    }
    if (forall i :: 0 <= i < |cmds| ==> Literal(cmds[i])) && Through(Join(lines, " && ")) {
      hide CommandsOf, ScriptOf, Through, Parts, Words, Meant;
      forall i | 0 <= i < |cmds| ensures Words(lines[i]) == Some(MeantAll(cmds, orders)[i]) && MeantAll(cmds, orders)[i] != [] {
        hide Literal;
        LiteralReads(cmds[i], orders[i]);
      }
      var echoed := ScriptReads(lines, MeantAll(cmds, orders));
    }
  }

  // Enough for that: every name and value could stand unquoted within one command.
  lemma EachPassesThrough(lines: seq<string>, cmds: seq<Command>, orders: seq<seq<string>>)
    requires AreLines(lines, cmds, orders) && forall i :: 0 <= i < |cmds| ==> Literal(cmds[i])
    requires forall i, k :: 0 <= i < |cmds| && cmds[i].subCommand == Build && k in Vars(cmds[i]) ==> Passes(k + "=" + Vars(cmds[i])[k])
    ensures Through(Join(lines, " && "))
  {
    forall i | 0 <= i < |cmds| ensures Through(lines[i]) {
      assert TextsClose(cmds[i]) by {
        PlainTextsRead(FixedTexts(cmds[i]));
        if cmds[i].subCommand == Build {
          forall k | k in Vars(cmds[i]) ensures Closes(VarFlag(k, Vars(cmds[i])[k])) {
            FlagReadAsWritten(k, Vars(cmds[i])[k]);
          }
        }
      }
      PartsClose(cmds[i], orders[i]);
      UnquotedThrough(" ");
      JoinThrough(Parts(cmds[i], orders[i]), " ");
    }
    UnquotedThrough(" && ");
    JoinThrough(lines, " && ");
  }

  lemma LiteralReads(c: Command, order: seq<string>)
    requires IsOrder(order, Vars(c)) && Literal(c)
    ensures Words(Join(Parts(c, order), " ")) == Some(Meant(c, order)) && Meant(c, order) != []
  {
    FixedIsHeadTail(c);
    assert PlainTexts(Head(c)) && PlainTexts(Tail(c));
    PlainTextsRead(Head(c));
    PlainTextsRead(Tail(c));
    if c.subCommand == Build {
      LiteralFlagsRead(Vars(c), order);
    }
    MeantParts(' ', c, order);
    PartsOf(c, order);
    hide WordsOf, Words, Plain, PlainTexts, Parts, Meant, FixedTexts, Sum, FlagWords, VarFlags;
    WordsOfThen(Head(c), FlagTexts(c, order));
    WordsOfThen(Head(c) + FlagTexts(c, order), Tail(c));
    JoinReads(Parts(c, order));
  }

  // The echo ends where it is meant to, and the commands are read after it.
  lemma RunsApart(lines: seq<string>, cmds: seq<Command>, orders: seq<seq<string>>, echoed: seq<string>)
    requires AreLines(lines, cmds, orders)
    requires CommandsOf(ScriptOf(lines)) == Some([Banner, ["echo"] + echoed] + MeantAll(cmds, orders))
    ensures Through(Join(lines, " && ")) && CommandsOf(Join(lines, " && ")) == Some(MeantAll(cmds, orders))
  {
    LinesCount('p', lines, cmds, orders);
    StartsWithPacker(lines, cmds, orders);
    hide Join, MeantAll, Feed, Through, Count, SumAll, Parts, CommandsOf, ScriptOf;
    var r1, r2, end := ScriptInThree(lines);
    hide Meant, AreLines, All, Sound;
    WhereEchoEnds(Join(lines, " && "), r1, r2, end, ["echo"] + echoed, MeantAll(cmds, orders));
  }

  // A text that begins with "packer" is read in three parts as an echo and then commands,
  // the first of which is "packer".
  ghost predicate InThree(command: string, r1: Reader, r2: Reader, end: Reader, echo: seq<string>, meant: seq<seq<string>>) {
    && Feed(Copy, command) == Some(r1) && Feed(r1, "' && ") == Some(r2) && Feed(r2, command) == Some(end) && Sound(r1)
    && end.place == Outside && end.AllWords() != [] && All(end) == [Banner, echo] + meant
    && "packer" <= command && meant != [] && meant[0] != [] && meant[0][0] == "packer"
  }

  lemma WhereEchoEnds(command: string, r1: Reader, r2: Reader, end: Reader, echo: seq<string>, meant: seq<seq<string>>)
    requires InThree(command, r1, r2, end, echo, meant) && Count('p', command) == SumAll('p', meant)
    ensures Through(command) && CommandsOf(command) == Some(meant)
  {
    CommandsStay(Copy, command);
    assert r1.commands[0] == Banner;
    if |r1.commands| == 1 && r1.place == InSingle {
      EchoEnds(command, r1, r2, end, echo, meant);
    } else if |r1.commands| == 1 {
      hide Feed, Count, SumAll;
      EchoTooLong(command, r1, r2, end, echo, meant);
    } else {
      hide Feed, Count, SumAll;
      EchoTooShort(command, r1, r2, end, echo, meant);
    }
  }

  const Copy := Reader(InSingle, Some(""), ["echo"], [Banner])

  lemma StartsWithPacker(lines: seq<string>, cmds: seq<Command>, orders: seq<seq<string>>)
    requires AreLines(lines, cmds, orders)
    ensures "packer" <= Join(lines, " && ")
    ensures MeantAll(cmds, orders) != [] && MeantAll(cmds, orders)[0] != [] && MeantAll(cmds, orders)[0][0] == "packer"
  {
    var parts := Parts(cmds[0], orders[0]);
    assert parts[0] == "packer" && |parts| > 1;
    assert MeantAll(cmds, orders)[0] == Meant(cmds[0], orders[0]);
    assert lines[0] == "packer" + " " + Join(parts[1..], " ");
    hide Parts, Meant;
  }

  // The script is the prologue, the copy in the echo, the end of the echo, and the commands.
  lemma ScriptInThree(lines: seq<string>) returns (r1: Reader, r2: Reader, end: Reader)
    requires CommandsOf(ScriptOf(lines)).Some?
    ensures Feed(Copy, Join(lines, " && ")) == Some(r1) && Feed(r1, "' && ") == Some(r2)
    ensures Feed(r2, Join(lines, " && ")) == Some(end) && Sound(r1)
    ensures CommandsOf(ScriptOf(lines)) == Some(All(end)) && end.place == Outside && end.AllWords() != []
  {
    var command := Join(lines, " && ");
    FeedBanner();
    hide Feed, Prologue;
    FeedThen(Begin, Prologue, command);
    FeedThen(Begin, Prologue + command, "' && ");
    FeedThen(Begin, Prologue + command + "' && ", command);
    r1 := Feed(Copy, command).value;
    r2 := Feed(r1, "' && ").value;
    end := Feed(r2, command).value;
    KeptFeed('p', Copy, command);
  }

  // The echo has closed its quotes.
  lemma EchoEnds(command: string, r1: Reader, r2: Reader, end: Reader, echo: seq<string>, meant: seq<seq<string>>)
    requires Feed(Copy, command) == Some(r1) && Feed(r1, "' && ") == Some(r2) && Feed(r2, command) == Some(end)
    requires r1.place == InSingle && r1.commands == [Banner]
    requires end.place == Outside && end.AllWords() != [] && All(end) == [Banner, echo] + meant && meant != []
    ensures Through(command) && CommandsOf(command) == Some(meant)
  {
    SameWay(Copy, Reader(InSingle, Some(""), [], []), command);
    WordUnderWay(Copy, command);
    FeedOne(r1, '\'');
    FeedThen(r1, "'", " && ");
    assert "' && " == "'" + " && " && "'" == ['\''];
    FeedAnd(r1.(place := Outside));
    CommandsFrame(Begin, command, r2.commands);
    hide Feed;
    assert r2 == Begin.(commands := r2.commands + []);
    var last := Feed(Begin, command).value;
    assert All(end) == r2.commands + All(last);
    assert r2.commands == All(end)[..2] && All(last) == All(end)[2..] == meant;
  }

  // Letters are never lost, so commands that begin later than their text have too few.
  lemma EchoTooLong(command: string, r1: Reader, r2: Reader, end: Reader, echo: seq<string>, meant: seq<seq<string>>)
    requires InThree(command, r1, r2, end, echo, meant)
    requires |r1.commands| == 1 && r1.place != InSingle
    ensures SumAll('p', meant) < Count('p', command)
  {
    hide Feed, Count, SumAll;
    MiddleSwallowed(r1);
    FirstLetters(command);
    WithoutFirst(r2, command[..6], command[6..]);
    assert All(end)[2..] == meant;
  }

  lemma FirstLetters(command: string)
    requires "packer" <= command
    ensures command == command[..6] + command[6..] && '\'' !in command[..6] && '"' !in command[..6]
    ensures Count('p', command) > Count('p', command[6..])
  {
    hide Count;
    var first := command[..6];
    assert first == "packer" && first[0] == 'p';
    assert command == first + command[6..];
    CountThen('p', first, command[6..]);
    CountNone('p', first);
  }

  lemma WithoutFirst(r: Reader, first: string, rest: string)
    requires |r.commands| == 1 && (r.place == InSingle || r.place == InDouble) && Feed(r, first + rest).Some?
    requires '\'' !in first && '"' !in first
    ensures var all := All(Feed(r, first + rest).value); |all| >= 2 && SumAll('p', all[2..]) <= Count('p', rest)
  {
    hide Feed;
    FeedThen(r, first, rest);
    QuotedStays(r, first);
    LaterCommands(Feed(r, first).value, rest);
  }

  lemma MiddleSwallowed(r: Reader)
    requires Feed(r, "' && ").Some? && r.place != InSingle
    ensures var r' := Feed(r, "' && ").value;
      r'.commands == r.commands && (r'.place == InSingle || r'.place == InDouble)
    ensures Feed(r, "' && ").value.word == Some(r.word.GetOr("") + if r.place == InDouble then "' && " else " && ")
    ensures Feed(r, "' && ").value.words == r.words
  {
    assert "' && "[1..] == " && ";
    FeedOneMore(r, '\'', " && ");
    var next := Next(r, '\'').value;
    FeedFour(next);
    assert r.word.GetOr("") + "'" + " && " == r.word.GetOr("") + "' && ";
  }

  lemma FeedOneMore(r: Reader, ch: char, text: string)
    ensures Feed(r, [ch] + text) == if Next(r, ch).Some? then Feed(Next(r, ch).value, text) else None
  {
    assert ([ch] + text)[1..] == text;
  }

  lemma FeedFour(r: Reader)
    requires r.place == InSingle || r.place == InDouble
    ensures Feed(r, " && ") == Some(r.(word := Some(r.word.GetOr("") + " && ")))
  {
    assert " && "[1..] == "&& " && "&& "[1..] == "& " && "& "[1..] == " " && " "[1..] == "";
    assert r.word.GetOr("") + " " + "&" + "&" + " " == r.word.GetOr("") + " && ";
  }

  // Within quotes no command ends.
  lemma {:induction false} QuotedStays(r: Reader, text: string)
    requires (r.place == InSingle || r.place == InDouble) && '\'' !in text && '"' !in text && Feed(r, text).Some?
    ensures Feed(r, text).value.commands == r.commands && Feed(r, text).value.place == r.place
    decreases text
  {
    if text != "" {
      assert text == [text[0]] + text[1..];
      QuotedStays(Next(r, text[0]).value, text[1..]);
    }
  }

  // From within the echo: the commands after it have no more letters than are still to come.
  lemma {:induction false} LaterCommands(r: Reader, text: string)
    requires |r.commands| == 1 && Sound(r) && Feed(r, text).Some?
    ensures var all := All(Feed(r, text).value); |all| >= 2 && SumAll('p', all[2..]) <= Count('p', text)
    decreases text
  {
    if text == "" {
      assert All(r)[2..] == [];
    } else {
      var next := Next(r, text[0]).value;
      CountFirst('p', text);
      if next.commands == r.commands {
        KeptStep('p', r, text[0]);
        LaterCommands(next, text[1..]);
      } else {
        NewCommand(next, text[1..]);
      }
    }
  }

  lemma NewCommand(r: Reader, text: string)
    requires r == Begin.(commands := r.commands) && |r.commands| == 2 && Feed(r, text).Some?
    ensures var all := All(Feed(r, text).value); |all| >= 2 && SumAll('p', all[2..]) <= Count('p', text)
  {
    CommandsFrame(Begin, text, r.commands);
    assert r == Begin.(commands := r.commands + []);
    var later := Feed(Begin, text).value;
    assert All(Feed(r, text).value)[2..] == All(later);
    KeptFeed('p', Begin, text);
    KeptWords('p', later);
    CountNone('p', "");
  }

  // Commands that begin earlier than their text have its letters and more.
  lemma EchoTooShort(command: string, r1: Reader, r2: Reader, end: Reader, echo: seq<string>, meant: seq<seq<string>>)
    requires InThree(command, r1, r2, end, echo, meant) && |r1.commands| >= 2
    ensures SumAll('p', meant) > Count('p', command)
  {
    hide Feed, Count, SumAll;
    var before, base := r1.commands[..2], r1.(commands := r1.commands[2..]);
    CommandsFrame(base, "' && ", before);
    assert before + base.commands == r1.commands;
    var middle := Feed(base, "' && ").value;
    CommandsFrame(middle, command, before);
    var last := Feed(middle, command).value;
    assert All(end) == before + All(last);
    assert All(last) == All(end)[2..] == meant;
    KeptFeed('p', base, "' && ");
    KeptFeed('p', middle, command);
    KeptWords('p', last);
    HasLetter(base, middle, last, command);
  }

  // What was read before the commands' own text holds a letter: else their first word would
  // be another.
  lemma HasLetter(base: Reader, middle: Reader, last: Reader, command: string)
    requires Feed(base, "' && ") == Some(middle) && Feed(middle, command) == Some(last) && Sound(base) && Sound(middle)
    requires All(last)[0] != [] && All(last)[0][0] == "packer"
    ensures Kept('p', middle) > 0
  {
    CommandsStay(base, "' && ");
    CommandsStay(middle, command);
    var first := "packer";
    assert first[0] == 'p';
    CountNone('p', first);
    hide Feed, Count;
    if middle.commands != [] {
      assert All(last)[0] == middle.commands[0];
      SumAtLeast('p', middle.commands[0], 0);
    } else {
      WordAlreadyRead(base, middle, last, command);
      WordsStay(middle, command);
      SumAtLeast('p', middle.words, 0);
    }
  }

  lemma {:induction false} SumAtLeast(ch: char, texts: seq<string>, i: nat)
    requires i < |texts|
    ensures Sum(ch, texts) >= Count(ch, texts[i])
  {
    if i > 0 {
      SumAtLeast(ch, texts[1..], i - 1);
    }
  }

  // The end of the echo has not become part of the first word.
  lemma WordAlreadyRead(base: Reader, middle: Reader, last: Reader, command: string)
    requires Feed(base, "' && ") == Some(middle) && Feed(middle, command) == Some(last) && Sound(middle)
    requires middle.commands == [] && base.commands == [] && All(last)[0] != [] && All(last)[0][0] == "packer"
    ensures middle.words != []
  {
    hide Feed;
    if base.place == InSingle {
      EchoCloses(base);
    } else {
      MiddleSwallowed(base);
      hide *;
      FirstWordOther(middle, last, command, base.word.GetOr(""));
    }
  }

  lemma FirstWordOther(r: Reader, last: Reader, command: string, start: string)
    requires Feed(r, command) == Some(last) && r.commands == [] && (r.place == InSingle || r.place == InDouble)
    requires r.word == Some(start + " && ") || r.word == Some(start + "' && ")
    requires All(last)[0] != [] && All(last)[0][0] == "packer"
    ensures r.words != []
  {
    if r.words == [] {
      var word := r.word.value;
      OtherWord(word, start, "packer");
      hide Feed;
      assert r.AllWords() == [word];
      FirstWordStays(r, command, word);
    }
  }

  lemma OtherWord(word: string, start: string, other: string)
    requires (word == start + " && " || word == start + "' && ") && ' ' !in other
    ensures !(word <= other)
  {
    assert word[|word| - 1] == ' ';
  }

  lemma EchoCloses(r: Reader)
    requires Feed(r, "' && ").Some? && r.place == InSingle
    ensures Feed(r, "' && ").value.commands != r.commands
  {
    assert "' && "[1..] == " && " && " && "[1..] == "&& " && "&& "[1..] == "& " && "& "[1..] == " " && " "[1..] == "";
  }

  lemma {:induction false} WordsStay(r: Reader, text: string)
    requires Feed(r, text).Some? && Sound(r)
    ensures |All(Feed(r, text).value)| > |r.commands|
    ensures r.words <= All(Feed(r, text).value)[|r.commands|]
    decreases text
  {
    if text != "" {
      var next := Next(r, text[0]).value;
      if next.commands == r.commands {
        WordsStay(next, text[1..]);
      } else {
        CommandsStay(next, text[1..]);
      }
    }
  }
}
