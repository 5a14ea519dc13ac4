// How `sh -c` reads a script: words at blanks, single and double quotes, and commands joined
// by `&&`. A text that uses more of the shell than that is not read at all.
module Shell {
  import opened Options
  import opened Rendering

  // `HalfAnd`: one `&` has been read.
  datatype Place = Outside | InSingle | InDouble | HalfAnd

  // What has been read: the commands before the last `&&`, the words after it, and the word
  // under way, if any.
  datatype Reader = Reader(place: Place, word: Option<string>, words: seq<string>, commands: seq<seq<string>>)
  {
    function AllWords(): seq<string> { words + if word.Some? then [word.value] else [] }

    function Longer(ch: char): Reader { this.(word := Some(word.GetOr("") + [ch])) }
  }

  // Characters that mean more to the shell than themselves.
  predicate Special(ch: char) { ch in "\t\n|;<>()$`\\*?[]#~{}!" }

  predicate SpecialInDouble(ch: char) { ch in "$`\\" }

  function Next(r: Reader, ch: char): Option<Reader> {
    match r.place
    case InSingle => Some(if ch == '\'' then r.(place := Outside) else r.Longer(ch))
    case InDouble =>
      if ch == '"' then Some(r.(place := Outside)) else if SpecialInDouble(ch) then None else Some(r.Longer(ch))
    case HalfAnd => if ch == '&' then Some(Reader(Outside, None, [], r.commands + [r.words])) else None
    case Outside =>
      if ch == ' ' then Some(r.(word := None, words := r.AllWords()))
      else if ch == '\'' then Some(r.(place := InSingle, word := Some(r.word.GetOr(""))))
      else if ch == '"' then Some(r.(place := InDouble, word := Some(r.word.GetOr(""))))
      else if ch == '&' then
        if r.AllWords() == [] then None else Some(Reader(HalfAnd, None, r.AllWords(), r.commands))
      else if Special(ch) then None
      else Some(r.Longer(ch))
  }

  function Feed(r: Reader, text: string): Option<Reader>
    decreases text
  {
    if text == "" then Some(r)
    else
      var next := Next(r, text[0]);
      if next.None? then None else Feed(next.value, text[1..])
  }

  const Begin := Reader(Outside, None, [], [])

  // The commands of a script.
  function CommandsOf(text: string): Option<seq<seq<string>>> {
    var r := Feed(Begin, text);
    if r.Some? && r.value.place == Outside && r.value.AllWords() != []
    then Some(r.value.commands + [r.value.AllWords()]) else None
  }

  // The words of a text that is part of one command and closes its quotes.
  function Words(text: string): Option<seq<string>> {
    var r := Feed(Begin, text);
    if r.Some? && r.value.place == Outside && r.value.commands == [] then Some(r.value.AllWords()) else None
  }

  // A text inside single quotes that gets back there, within the same command.
  predicate Through(text: string) {
    var r := Feed(Reader(InSingle, Some(""), [], []), text);
    r.Some? && r.value.place == InSingle && r.value.commands == []
  }

  // A text in the middle of an unquoted word that gets back there, within the same command.
  predicate Passes(text: string) {
    var r := Feed(Reader(Outside, Some(""), [], []), text);
    r.Some? && r.value.place == Outside && r.value.commands == []
  }

  // ---------------------------------------------------------------- composition

  lemma {:induction false} FeedThen(r: Reader, a: string, b: string)
    ensures Feed(r, a + b) == if Feed(r, a).Some? then Feed(Feed(r, a).value, b) else None
    decreases a
  {
    if a == "" {
      assert a + b == b;
    } else {
      assert (a + b)[0] == a[0] && (a + b)[1..] == a[1..] + b;
      var next := Next(r, a[0]);
      if next.Some? {
        FeedThen(next.value, a[1..], b);
      }
    }
  }

  lemma {:induction false} FeedGrows(r: Reader, text: string)
    requires Feed(r, text).Some?
    ensures |Feed(r, text).value.commands| >= |r.commands|
    decreases text
  {
    if text != "" {
      FeedGrows(Next(r, text[0]).value, text[1..]);
    }
  }

  // Within one command, what was read before does not matter.
  lemma {:induction false} FeedFrame(r: Reader, text: string, words: seq<string>, commands: seq<seq<string>>)
    requires Feed(r, text).Some? && Feed(r, text).value.commands == r.commands
    ensures var r' := Feed(r, text).value;
      Feed(r.(words := words + r.words, commands := commands), text) ==
        Some(r'.(words := words + r'.words, commands := commands))
    decreases text
  {
    if text != "" {
      var next := Next(r, text[0]).value;
      var framed := r.(words := words + r.words, commands := commands);
      FeedGrows(next, text[1..]);
      assert framed.AllWords() == words + r.AllWords();
      assert Next(framed, text[0]) == Some(next.(words := words + next.words, commands := commands));
      FeedFrame(next, text[1..], words, commands);
    }
  }

  // Two readers in the same place take the same way through a text within one command.
  lemma {:induction false} SameWay(r: Reader, s: Reader, text: string)
    requires r.place == s.place && (r.word.Some? <==> s.word.Some?) && s.AllWords() != []
    requires Feed(r, text).Some? && Feed(r, text).value.commands == r.commands
    ensures Feed(s, text).Some?
    ensures var r', s' := Feed(r, text).value, Feed(s, text).value;
      && s'.place == r'.place && (r'.word.Some? <==> s'.word.Some?)
      && s'.commands == s.commands && s.words <= s'.words && s'.AllWords() != []
    decreases text
  {
    if text != "" {
      var next := Next(r, text[0]).value;
      FeedGrows(next, text[1..]);
      SameWay(next, Next(s, text[0]).value, text[1..]);
    }
  }

  lemma {:induction false} WordUnderWay(r: Reader, text: string)
    requires r.place.InSingle? || r.place.InDouble? ==> r.word.Some?
    requires Feed(r, text).Some?
    ensures var r' := Feed(r, text).value; r'.place.InSingle? || r'.place.InDouble? ==> r'.word.Some?
    decreases text
  {
    if text != "" {
      WordUnderWay(Next(r, text[0]).value, text[1..]);
    }
  }

  lemma WordsThen(a: string, b: string)
    requires Words(a).Some? && Words(b).Some?
    ensures Words(a + " " + b) == Some(Words(a).value + Words(b).value)
  {
    FeedThen(Begin, a + " ", b);
    FeedThen(Begin, a, " ");
    var after := Feed(Begin, a).value;
    FeedOne(after, ' ');
    FeedFrame(Begin, b, Words(a).value, []);
    assert " " == [' '] && a + " " + b == (a + " ") + b;
    assert Begin.(words := Words(a).value + [], commands := []) == Reader(Outside, None, Words(a).value, []);
    var last := Feed(Begin, b).value;
    assert last.(words := Words(a).value + last.words).AllWords() == Words(a).value + last.AllWords();
  }

  lemma FeedOne(r: Reader, ch: char)
    ensures Feed(r, [ch]) == Next(r, ch)
  {
    assert [ch][1..] == "";
  }

  lemma ThroughThen(a: string, b: string)
    requires Through(a) && Through(b)
    ensures Through(a + b)
  {
    var q := Reader(InSingle, Some(""), [], []);
    FeedThen(q, a, b);
    WordUnderWay(q, a);
    SameWay(q, Feed(q, a).value, b);
  }

  // ---------------------------------------------------------------- simple texts

  lemma {:induction false} FeedQuoted(r: Reader, text: string)
    requires r.place == InSingle && r.word.Some? && '\'' !in text
    ensures Feed(r, text) == Some(r.(word := Some(r.word.value + text)))
    decreases text
  {
    if text == "" {
      assert r.word.value + text == r.word.value;
    } else {
      assert r.word.value + [text[0]] + text[1..] == r.word.value + text;
      FeedQuoted(r.Longer(text[0]), text[1..]);
    }
  }

  lemma UnquotedThrough(text: string)
    requires '\'' !in text
    ensures Through(text)
  {
    FeedQuoted(Reader(InSingle, Some(""), [], []), text);
  }

  // A character that stands for itself outside quotes, and does not end a word.
  predicate PlainChar(ch: char) { !Special(ch) && ch != ' ' && ch != '\'' && ch != '"' && ch != '&' }

  predicate Plain(text: string) { forall i :: 0 <= i < |text| ==> PlainChar(text[i]) }

  lemma {:induction false} FeedPlain(r: Reader, text: string)
    requires r.place == Outside && Plain(text) && text != ""
    ensures Feed(r, text) == Some(r.(word := Some(r.word.GetOr("") + text)))
    decreases text
  {
    var longer := r.Longer(text[0]);
    assert Next(r, text[0]) == Some(longer);
    if text[1..] == "" {
      assert text == [text[0]];
    } else {
      FeedPlain(longer, text[1..]);
      assert r.word.GetOr("") + [text[0]] + text[1..] == r.word.GetOr("") + text;
    }
  }

  // ---------------------------------------------------------------- characters are lost, never made

  function Total(words: seq<string>): nat { if words == [] then 0 else |words[0]| + Total(words[1..]) }

  lemma {:induction false} TotalThen(a: seq<string>, b: seq<string>)
    ensures Total(a + b) == Total(a) + Total(b)
  {
    if a == [] {
      assert a + b == b;
    } else {
      assert (a + b)[1..] == a[1..] + b;
      TotalThen(a[1..], b);
    }
  }

  function Size(r: Reader): nat { Total(r.words) + |r.word.GetOr("")| }

  lemma SizeIsTotal(r: Reader)
    ensures Total(r.AllWords()) == Size(r)
  {
    TotalThen(r.words, r.AllWords()[|r.words|..]);
    assert r.AllWords() == r.words + r.AllWords()[|r.words|..];
    if r.word.Some? {
      assert [r.word.value][1..] == [];
    }
  }

  // Reading makes up no characters, and loses one at every quote or blank passed outside.
  lemma {:induction false} FeedLoses(r: Reader, text: string)
    requires Feed(r, text).Some? && Feed(r, text).value.commands == r.commands
    ensures Size(Feed(r, text).value) <= Size(r) + |text|
    ensures r.place == Outside && ('\'' in text || '"' in text || ' ' in text) ==>
      Size(Feed(r, text).value) < Size(r) + |text|
    decreases text
  {
    if text != "" {
      assert text == [text[0]] + text[1..];
      var next := Next(r, text[0]).value;
      FeedGrows(next, text[1..]);
      SizeIsTotal(r);
      FeedLoses(next, text[1..]);
    }
  }

  // ---------------------------------------------------------------- texts read as written

  // A text between blanks is read as itself, and passed over inside single quotes, if and
  // only if it is plain and not empty.
  lemma TextReadAsWritten(text: string)
    ensures Words(text) == Some([text]) && Through(text) <==> text != "" && Plain(text)
  {
    if text != "" && Plain(text) {
      FeedPlain(Begin, text);
      assert "" + text == text && [] + [text] == [text];
      UnquotedThrough(text);
    }
    if Words(text) == Some([text]) {
      var last := Feed(Begin, text).value;
      FeedLoses(Begin, text);
      SizeIsTotal(last);
      assert [text][1..] == [] && Total([text]) == |text|;
      NothingSpecial(Begin, text);
    }
  }

  // Without quotes, a text stays outside of them and within one command only if none of its
  // characters means more than itself.
  lemma {:induction false} NothingSpecial(r: Reader, text: string)
    requires r.place == Outside && '\'' !in text && '"' !in text
    requires Feed(r, text).Some? && Feed(r, text).value.place == Outside && Feed(r, text).value.commands == r.commands
    ensures forall i :: 0 <= i < |text| ==> !Special(text[i]) && text[i] != '&'
    decreases text
  {
    if text != "" {
      assert text == [text[0]] + text[1..];
      var next := Next(r, text[0]).value;
      FeedGrows(next, text[1..]);
      if text[0] == '&' && text[1..] != "" {
        FeedGrows(Next(next, text[1]).value, text[1..][1..]);
      }
      NothingSpecial(next, text[1..]);
    }
  }

  lemma {:induction false} NothingSpecialPasses(r: Reader, text: string)
    requires r.place == Outside && '\'' !in text && '"' !in text
    requires forall i :: 0 <= i < |text| ==> !Special(text[i]) && text[i] != '&'
    ensures Feed(r, text).Some? && Feed(r, text).value.place == Outside && Feed(r, text).value.commands == r.commands
    decreases text
  {
    if text != "" {
      assert text == [text[0]] + text[1..];
      NothingSpecialPasses(Next(r, text[0]).value, text[1..]);
    }
  }

  // What passes unquoted, for a text without quotes: blanks, and characters that stand for
  // themselves.
  lemma PassesMeaning(text: string)
    requires '\'' !in text && '"' !in text
    ensures Passes(text) <==> forall i :: 0 <= i < |text| ==> !Special(text[i]) && text[i] != '&'
  {
    var r := Reader(Outside, Some(""), [], []);
    if Passes(text) {
      NothingSpecial(r, text);
    }
    if forall i :: 0 <= i < |text| ==> !Special(text[i]) && text[i] != '&' {
      NothingSpecialPasses(r, text);
    }
  }

  const Opened := Reader(InSingle, Some(""), ["-var"], [])

  lemma FeedTwo(r: Reader, a: char, b: char)
    requires Next(r, a).Some?
    ensures Feed(r, [a, b]) == Next(Next(r, a).value, b)
  {
    FeedThen(r, [a], [b]);
    FeedOne(r, a);
    FeedOne(Next(r, a).value, b);
    assert [a] + [b] == [a, b];
    hide Feed;
  }

  // A word ends, and a quoted one begins.
  lemma FeedPause(r: Reader)
    requires r.place == Outside
    ensures Feed(r, " '") == Some(Reader(InSingle, Some(""), r.AllWords(), r.commands))
  {
    assert " '" == [' ', '\''];
    FeedTwo(r, ' ', '\'');
    hide Feed;
  }

  lemma FeedOpening()
    ensures Feed(Begin, "-var '") == Some(Opened)
  {
    PlainThenPause(Begin, "-var", "-var '");
  }

  lemma PlainThenPause(r: Reader, word: string, text: string)
    requires r.place == Outside && r.AllWords() == [] && Plain(word) && word != "" && text == word + " '"
    ensures Feed(r, text) == Some(Reader(InSingle, Some(""), [word], r.commands))
  {
    FeedPlain(r, word);
    FeedThen(r, word, " '");
    assert "" + word == word && [] + [word] == [word];
    hide Feed;
    FeedPause(r.(word := Some(word)));
  }

  lemma FlagFeeds(key: string, value: string)
    ensures Feed(Begin, VarFlag(key, value)) == Feed(Opened, key + "=" + value + "'")
  {
    FeedOpening();
    assert VarFlag(key, value) == "-var '" + (key + "=" + value + "'");
    FeedThen(Begin, "-var '", key + "=" + value + "'");
  }

  // Inside single quotes the flag's own quotes let its content out.
  lemma FlagThrough(key: string, value: string)
    ensures Through(VarFlag(key, value)) <==> Passes(key + "=" + value)
  {
    var t := key + "=" + value;
    var p, out := Reader(Outside, Some(""), [], []), Reader(Outside, Some("-var "), [], []);
    FlagFeedsThrough(key, value);
    FeedThen(out, t, "'");
    if Feed(out, t).Some? {
      FeedOne(Feed(out, t).value, '\'');
      assert "'" == ['\''];
    }
    hide Feed;
    if Passes(t) {
      SameWay(p, out, t);
    }
    if Through(VarFlag(key, value)) {
      SameWay(out, p, t);
    }
  }

  lemma FlagFeedsThrough(key: string, value: string)
    ensures Feed(Reader(InSingle, Some(""), [], []), VarFlag(key, value)) ==
      Feed(Reader(Outside, Some("-var "), [], []), key + "=" + value + "'")
  {
    var q := Reader(InSingle, Some(""), [], []);
    FeedToValue(q, "");
    assert "" + "-var " == "-var " && "" + "-var '" == "-var '";
    assert VarFlag(key, value) == "-var '" + (key + "=" + value + "'");
    hide Feed, VarFlag;
    FeedThen(q, "-var '", key + "=" + value + "'");
  }

  // A variable flag is read as the two words meant, and passed over inside single quotes, if
  // and only if its name and value hold no single quote and could stand unquoted within one
  // command.
  lemma FlagReadAsWritten(key: string, value: string)
    ensures Words(VarFlag(key, value)) == Some(["-var", key + "=" + value]) && Through(VarFlag(key, value)) <==>
      '\'' !in key + "=" + value && Passes(key + "=" + value)
  {
    FlagFeeds(key, value);
    FlagThrough(key, value);
    QuotedOrLost(key + "=" + value);
  }

  lemma QuotedOrLost(t: string)
    ensures var r := Feed(Opened, t + "'");
      (r.Some? && r.value.place == Outside && r.value.commands == [] && r.value.AllWords() == ["-var", t]) <==> '\'' !in t
  {
    if '\'' in t {
      QuoteLost(t);
    } else {
      FeedQuoted(Opened, t);
      FeedThen(Opened, t, "'");
      FeedOne(Feed(Opened, t).value, '\'');
      assert "'" == ['\''] && "" + t == t && ["-var"] + [t] == ["-var", t];
    }
  }

  // With a quote in the middle the word comes out too short.
  lemma QuoteLost(t: string)
    requires '\'' in t
    ensures var r := Feed(Opened, t + "'");
      r.Some? && r.value.commands == [] ==> r.value.AllWords() != ["-var", t]
  {
    var i := 0;
    while t[i] != '\''
      invariant i < |t| && '\'' in t[i..] && '\'' !in t[..i]
      decreases |t| - i
    {
      assert t[i..] == [t[i]] + t[i + 1..] && t[..i + 1] == t[..i] + [t[i]];
      i := i + 1;
    }
    assert t + "'" == t[..i] + ("'" + (t[i + 1..] + "'"));
    WordCutShort(t[..i], t[i + 1..] + "'");
    TwoWords("-var", t);
  }

  lemma WordCutShort(before: string, after: string)
    requires '\'' !in before && '\'' in after
    ensures var r := Feed(Opened, before + ("'" + after));
      r.Some? && r.value.commands == [] ==> Total(r.value.AllWords()) < 4 + |before| + |after|
  {
    assert ("'" + after)[1..] == after && "" + before == before;
    FeedQuoted(Opened, before);
    FeedThen(Opened, before, "'" + after);
    var out := Reader(Outside, Some(before), ["-var"], []);
    assert Feed(Opened, before + ("'" + after)) == Feed(out, after);
    if Feed(out, after).Some? && Feed(out, after).value.commands == [] {
      FeedLoses(out, after);
      SizeIsTotal(Feed(out, after).value);
      assert ["-var"][1..] == [] && Total(["-var"]) == 4;
    }
  }

  lemma TwoWords(a: string, b: string)
    ensures Total([a, b]) == |a| + |b|
  {
    assert [a, b][1..] == [b] && [b][1..] == [] && Total([b]) == |b|;
  }

  // ---------------------------------------------------------------- lists of texts

  // A text closes its quotes wherever it is put in the script.
  predicate Closes(text: string) { Words(text).Some? && Through(text) }

  // The words of texts read one by one.
  function WordsOf(texts: seq<string>): Option<seq<string>> {
    if texts == [] then Some([])
    else
      var first, later := Words(texts[0]), WordsOf(texts[1..]);
      if first.Some? && later.Some? then Some(first.value + later.value) else None
  }

  lemma EmptyReads(text: string)
    requires text == ""
    ensures Words(text) == Some([])
  {
    assert Feed(Begin, text) == Some(Begin) && Begin.AllWords() == [];
  }

  lemma {:induction false} JoinReads(texts: seq<string>)
    requires WordsOf(texts).Some?
    ensures Words(Join(texts, " ")) == WordsOf(texts)
  {
    if |texts| == 1 {
      assert WordsOf(texts[1..]) == Some([]) && Words(texts[0]).value + [] == Words(texts[0]).value;
    } else if texts != [] {
      JoinReads(texts[1..]);
      WordsThen(texts[0], Join(texts[1..], " "));
    } else {
      EmptyReads(Join(texts, " "));
    }
  }

  lemma {:induction false} JoinThrough(texts: seq<string>, separator: string)
    requires Through(separator) && forall i :: 0 <= i < |texts| ==> Through(texts[i])
    ensures Through(Join(texts, separator))
  {
    if |texts| > 1 {
      assert forall i :: 0 <= i < |texts[1..]| ==> texts[1..][i] == texts[i + 1];
      JoinThrough(texts[1..], separator);
      ThroughThen(texts[0], separator);
      ThroughThen(texts[0] + separator, Join(texts[1..], separator));
    }
  }

  lemma {:induction false} ClosingTextsRead(texts: seq<string>)
    requires forall i :: 0 <= i < |texts| ==> Closes(texts[i])
    ensures WordsOf(texts).Some?
  {
    if texts != [] {
      assert forall i :: 0 <= i < |texts[1..]| ==> texts[1..][i] == texts[i + 1];
      ClosingTextsRead(texts[1..]);
    }
  }

  lemma {:induction false} EachReads(texts: seq<string>, i: nat)
    requires WordsOf(texts).Some? && i < |texts|
    ensures Words(texts[i]).Some?
  {
    if i > 0 {
      EachReads(texts[1..], i - 1);
    }
  }

  lemma {:induction false} WordsOfThen(a: seq<string>, b: seq<string>)
    requires WordsOf(a).Some? && WordsOf(b).Some?
    ensures WordsOf(a + b) == Some(WordsOf(a).value + WordsOf(b).value)
  {
    if a == [] {
      assert a + b == b && [] + WordsOf(b).value == WordsOf(b).value;
    } else {
      WordsOfThen(a[1..], b);
      assert (a + b)[0] == a[0] && (a + b)[1..] == a[1..] + b;
      hide Words;
      var x, y, z := Words(a[0]).value, WordsOf(a[1..]).value, WordsOf(b).value;
      assert x + (y + z) == (x + y) + z;
    }
  }

  predicate PlainTexts(texts: seq<string>) { forall i :: 0 <= i < |texts| ==> texts[i] != "" && Plain(texts[i]) }

  lemma {:induction false} PlainTextsRead(texts: seq<string>)
    requires PlainTexts(texts)
    ensures WordsOf(texts) == Some(texts) && forall i :: 0 <= i < |texts| ==> Closes(texts[i])
  {
    if texts != [] {
      PlainTextsRead(texts[1..]);
      TextReadAsWritten(texts[0]);
      assert texts == [texts[0]] + texts[1..];
    }
  }

  // ---------------------------------------------------------------- the script of a job

  const Title := "Executing command:"

  // echo 'Executing command:' && echo '
  const Prologue := "echo '" + (Title + "'") + " && " + "echo '"

  // The job echoes its command inside single quotes and then runs it.
  function ScriptOf(lines: seq<string>): string {
    Prologue + Join(lines, " && ") + "' && " + Join(lines, " && ")
  }

  const Banner := ["echo", Title]

  lemma FeedAnd(r: Reader)
    requires r.place == Outside && r.AllWords() != []
    ensures Feed(r, " && ") == Some(Reader(Outside, None, [], r.commands + [r.AllWords()]))
  {
    assert " && "[1..] == "&& " && "&& "[1..] == "& " && "& "[1..] == " " && " "[1..] == "";
    assert r.AllWords() + [] == r.AllWords();
  }

  lemma FeedEcho(r: Reader)
    requires r.place == Outside && r.AllWords() == []
    ensures Feed(r, "echo '") == Some(Reader(InSingle, Some(""), ["echo"], r.commands))
  {
    PlainThenPause(r, "echo", "echo '");
  }

  lemma FeedBanner()
    ensures Feed(Begin, Prologue) == Some(Reader(InSingle, Some(""), ["echo"], [Banner]))
  {
    var quoted := Reader(InSingle, Some(""), ["echo"], []);
    var out := Reader(Outside, Some(Title), ["echo"], []);
    FeedEcho(Begin);
    FeedTitle();
    FeedAnd(out);
    FeedEcho(Reader(Outside, None, [], [Banner]));
    assert out.AllWords() == Banner && [] + [Banner] == [Banner];
    hide Feed;
    FeedThen(Begin, "echo '", Title + "'");
    FeedThen(Begin, "echo '" + (Title + "'"), " && ");
    FeedThen(Begin, "echo '" + (Title + "'") + " && ", "echo '");
  }

  lemma FeedTitle()
    ensures Feed(Reader(InSingle, Some(""), ["echo"], []), Title + "'") == Some(Reader(Outside, Some(Title), ["echo"], []))
  {
    var quoted := Reader(InSingle, Some(""), ["echo"], []);
    FeedQuoted(quoted, Title);
    FeedThen(quoted, Title, "'");
    FeedOne(quoted.(word := Some(Title)), '\'');
    assert "" + Title == Title && "'" == ['\''];
  }

  lemma FeedLine(commands: seq<seq<string>>, line: string, words: seq<string>) returns (r: Reader)
    requires Words(line) == Some(words)
    ensures Feed(Reader(Outside, None, [], commands), line) == Some(r)
    ensures r.place == Outside && r.commands == commands && r.AllWords() == words
  {
    FeedFrame(Begin, line, [], commands);
    var first := Feed(Begin, line).value;
    assert Begin.(words := [] + [], commands := commands) == Reader(Outside, None, [], commands);
    assert [] + first.words == first.words;
    r := first.(commands := commands);
  }

  // Lines joined by `&&`, each the words of one command.
  lemma {:induction false} FeedLines(commands: seq<seq<string>>, lines: seq<string>, words: seq<seq<string>>)
    requires |lines| == |words| > 0
    requires forall i :: 0 <= i < |lines| ==> Words(lines[i]) == Some(words[i]) && words[i] != []
    ensures var r := Feed(Reader(Outside, None, [], commands), Join(lines, " && "));
      r.Some? && r.value.place == Outside && r.value.AllWords() != [] && r.value.commands + [r.value.AllWords()] == commands + words
    decreases lines
  {
    var start := Reader(Outside, None, [], commands);
    var r := FeedLine(commands, lines[0], words[0]);
    hide Feed, Words;
    if |lines| == 1 {
      assert words == [words[0]];
    } else {
      assert forall i :: 0 <= i < |lines[1..]| ==> lines[1..][i] == lines[i + 1] && words[1..][i] == words[i + 1];
      FeedLines(commands + [words[0]], lines[1..], words[1..]);
      FeedAnd(r);
      var rest := Join(lines[1..], " && ");
      FeedThen(start, lines[0] + " && ", rest);
      FeedThen(start, lines[0], " && ");
      assert commands + [words[0]] + words[1..] == commands + words;
    }
  }

  // A script whose lines are each the words of one command, and together get through the
  // quotes of the echo: the shell reads two echoes and then exactly those commands.
  lemma ScriptReads(lines: seq<string>, words: seq<seq<string>>) returns (echoed: seq<string>)
    requires |lines| == |words| > 0
    requires Through(Join(lines, " && "))
    requires forall i :: 0 <= i < |lines| ==> Words(lines[i]) == Some(words[i]) && words[i] != []
    ensures CommandsOf(ScriptOf(lines)) == Some([Banner, ["echo"] + echoed] + words)
  {
    var command := Join(lines, " && ");
    var copy := Reader(InSingle, Some(""), ["echo"], [Banner]);
    SameWay(Reader(InSingle, Some(""), [], []), copy, command);
    var r := Feed(copy, command).value;
    var out := r.(place := Outside);
    FeedOne(r, '\'');
    FeedAnd(out);
    WordUnderWay(copy, command);
    echoed := out.AllWords()[1..];
    assert out.AllWords() == ["echo"] + echoed && "'" == ['\''];
    FeedLines([Banner, ["echo"] + echoed], lines, words);
    assert [Banner] + [["echo"] + echoed] == [Banner, ["echo"] + echoed];
    FeedScript(command, r, out);
  }

  // The script piece by piece.
  lemma FeedScript(command: string, r: Reader, out: Reader)
    requires Feed(Reader(InSingle, Some(""), ["echo"], [Banner]), command) == Some(r)
    requires Feed(r, "'") == Some(out) && Feed(out, " && ").Some?
    ensures Feed(Begin, Prologue + command + "' && " + command) == Feed(Feed(out, " && ").value, command)
  {
    FeedBanner();
    hide Feed, Prologue;
    FeedThen(Begin, Prologue, command);
    FeedThen(Begin, Prologue + command, "'");
    FeedThen(Begin, Prologue + command + "'", " && ");
    FeedThen(Begin, Prologue + command + "'" + " && ", command);
    assert "' && " == "'" + " && ";
    assert Prologue + command + "' && " == Prologue + command + "'" + " && ";
  }

  // ---------------------------------------------------------------- values the echo gives away

  // In the echo a value stands outside quotes: where it holds `&&`, the echo ends there, and
  // what follows is a command of its own, ahead of every command of the job.
  lemma HalfOfValueIsCommand(lines: seq<string>, left: string, key: string, a: string, b: string, right: string)
    requires Join(lines, " && ") == left + VarFlag(key, a + " && " + b) + right
    requires '\'' !in left && Plain(key) && Plain(a) && Plain(b) && b != "" && CommandsOf(ScriptOf(lines)).Some?
    ensures var commands := CommandsOf(ScriptOf(lines)).value;
      |commands| > 2 && commands[0] == Banner && commands[2] != [] && b <= commands[2][0]
  {
    var rest := "'" + right + "' && " + Join(lines, " && ");
    var inValue := Reader(Outside, Some(left + "-var "), ["echo"], [Banner]);
    var next := ValueEndsEcho(inValue, key, a, b, rest);
    UpToValue(lines, left, key, a + " && " + b, right);
    hide Feed, ScriptOf;
    FirstWordStays(next.(word := Some(b)), rest, b);
  }

  // Reading a value that holds `&&`, outside quotes: the second half begins a new command.
  lemma ValueEndsEcho(r: Reader, key: string, a: string, b: string, rest: string) returns (next: Reader)
    requires r.place == Outside && r.word.Some? && Plain(key) && Plain(a) && Plain(b) && b != ""
    ensures next == Reader(Outside, None, [], r.commands + [r.words + [r.word.value + (key + "=" + a)]])
    ensures Feed(r, key + "=" + (a + " && " + b) + rest) == Feed(next.(word := Some(b)), rest)
  {
    var echo := r.(word := Some(r.word.value + (key + "=" + a)));
    next := Reader(Outside, None, [], r.commands + [echo.AllWords()]);
    FeedPlain(r, key + "=" + a);
    FeedAnd(echo);
    FeedPlain(next, b);
    assert "" + b == b;
    Regrouped(key, a, b, rest);
    hide Feed;
    FeedThen(r, key + "=" + a, " && " + (b + rest));
    FeedThen(echo, " && ", b + rest);
    FeedThen(next, b, rest);
  }

  lemma Regrouped(key: string, a: string, b: string, rest: string)
    ensures key + "=" + (a + " && " + b) + rest == (key + "=" + a) + (" && " + (b + rest))
  {}

  // The script up to the first flag's value in the echo.
  lemma UpToValue(lines: seq<string>, left: string, key: string, value: string, right: string)
    requires Join(lines, " && ") == left + VarFlag(key, value) + right && '\'' !in left
    ensures Feed(Begin, ScriptOf(lines)) ==
      Feed(Reader(Outside, Some(left + "-var "), ["echo"], [Banner]),
           key + "=" + value + ("'" + right + "' && " + Join(lines, " && ")))
  {
    var rest := "'" + right + "' && " + Join(lines, " && ");
    var copy := Reader(InSingle, Some(""), ["echo"], [Banner]);
    FeedBanner();
    FeedToValue(copy, left);
    assert VarFlag(key, value) == "-var '" + (key + "=" + value) + "'";
    assert ScriptOf(lines) == Prologue + ((left + "-var '") + (key + "=" + value + rest));
    hide Feed, Prologue, ScriptOf;
    FeedThen(Begin, Prologue, (left + "-var '") + (key + "=" + value + rest));
    FeedThen(copy, left + "-var '", key + "=" + value + rest);
  }

  lemma FeedToValue(r: Reader, left: string)
    requires r.place == InSingle && r.word == Some("") && '\'' !in left
    ensures Feed(r, left + "-var '") == Some(r.(place := Outside, word := Some(left + "-var ")))
  {
    FeedQuoted(r, left + "-var ");
    assert "" + (left + "-var ") == left + "-var " && left + "-var '" == (left + "-var ") + "'" && "'" == ['\''];
    FeedThen(r, left + "-var ", "'");
    FeedOne(r.(word := Some(left + "-var ")), '\'');
  }

  // The first word of the command under way keeps its beginning.
  lemma {:induction false} FirstWordStays(r: Reader, text: string, b: string)
    requires r.AllWords() != [] && b <= r.AllWords()[0] && (r.place == HalfAnd ==> r.word == None) && Feed(r, text).Some?
    ensures var r' := Feed(r, text).value;
      && r.commands <= r'.commands
      && var words := (r'.commands + [r'.AllWords()])[|r.commands|]; words != [] && b <= words[0]
    decreases text
  {
    if text != "" {
      var next := Next(r, text[0]).value;
      FirstWordStep(r, text[0], b);
      hide Next;
      if next.commands == r.commands {
        FirstWordStays(next, text[1..], b);
      } else {
        CommandsStay(next, text[1..]);
      }
    }
  }

  lemma FirstWordStep(r: Reader, ch: char, b: string)
    requires r.AllWords() != [] && b <= r.AllWords()[0] && (r.place == HalfAnd ==> r.word == None) && Next(r, ch).Some?
    ensures var next := Next(r, ch).value;
      if next.commands == r.commands
      then next.AllWords() != [] && b <= next.AllWords()[0] && (next.place == HalfAnd ==> next.word == None)
      else next.commands == r.commands + [r.words] && r.words != [] && b <= r.words[0]
  {}

  lemma {:induction false} CommandsStay(r: Reader, text: string)
    requires Feed(r, text).Some?
    ensures r.commands <= Feed(r, text).value.commands
    decreases text
  {
    if text != "" {
      CommandsStay(Next(r, text[0]).value, text[1..]);
    }
  }

  // A character that means more than itself, in a value without quotes, keeps the script
  // from being read as two echoes and commands at all.
  lemma SpecialValueIsNotRead(lines: seq<string>, left: string, key: string, value: string, right: string)
    requires Join(lines, " && ") == left + VarFlag(key, value) + right && '\'' !in left
    requires var t := key + "=" + value; '\'' !in t && '"' !in t && exists i :: 0 <= i < |t| && Special(t[i])
    ensures CommandsOf(ScriptOf(lines)) == None
  {
    var inValue := Reader(Outside, Some(left + "-var "), ["echo"], [Banner]);
    UpToValue(lines, left, key, value, right);
    SpecialStops(inValue, key + "=" + value);
    FeedThen(inValue, key + "=" + value, "'" + right + "' && " + Join(lines, " && "));
  }

  lemma {:induction false} SpecialStops(r: Reader, text: string)
    requires (r.place == Outside || r.place == HalfAnd) && '\'' !in text && '"' !in text
    requires exists i :: 0 <= i < |text| && Special(text[i])
    ensures Feed(r, text) == None
    decreases text
  {
    assert text == [text[0]] + text[1..];
    if !Special(text[0]) && Next(r, text[0]).Some? {
      var i :| 0 <= i < |text| && Special(text[i]);
      assert text[1..][i - 1] == text[i];
      SpecialStops(Next(r, text[0]).value, text[1..]);
    }
  }
}
