// The log reader of pkg/manager_packer/logstream.go: four patterns, each captured from its
// first matching line, and an image update tried on every line from the one that completes
// them until it succeeds.
module LogScan {
  import opened Options

  // BaseAMIID, LatestAMIID, SecurityGroupID, KeyPair, in the order of getLogPatterns.
  const Patterns := 4
  const Built := 1

  // What a pattern captures from a line, if it matches.
  type Matcher = (nat, string) -> Option<string>

  function FirstMatch(m: Matcher, p: nat, lines: seq<string>): Option<nat> {
    if lines == [] then None
    else
      var earlier := FirstMatch(m, p, lines[..|lines| - 1]);
      if earlier.Some? then earlier
      else if m(p, lines[|lines| - 1]).Some? then Some(|lines| - 1) else None
  }

  lemma {:induction false} FirstMatchMeaning(m: Matcher, p: nat, lines: seq<string>)
    ensures var f := FirstMatch(m, p, lines);
      && (f.Some? ==> f.value < |lines| && m(p, lines[f.value]).Some? && forall i :: 0 <= i < f.value ==> m(p, lines[i]).None?)
      && (f.None? ==> forall i :: 0 <= i < |lines| ==> m(p, lines[i]).None?)
  {
    if lines != [] {
      FirstMatchMeaning(m, p, lines[..|lines| - 1]);
    }
  }

  // What a status field holds after some lines: the first capture, else what it held.
  function Field(m: Matcher, p: nat, lines: seq<string>, before: string): string {
    match FirstMatch(m, p, lines)
    case None => before
    case Some(i) => if i < |lines| then m(p, lines[i]).GetOr(before) else before
  }

  ghost predicate AllSeen(m: Matcher, lines: seq<string>) {
    forall p :: 0 <= p < Patterns ==> FirstMatch(m, p, lines).Some?
  }

  lemma AllSeenMeans(m: Matcher, lines: seq<string>)
    ensures AllSeen(m, lines) <==> Matches(m, 0, lines) && Matches(m, 1, lines) && Matches(m, 2, lines) && Matches(m, 3, lines)
  {
    forall p: nat ensures FirstMatch(m, p, lines).Some? <==> Matches(m, p, lines) {
      FirstMatchMeaning(m, p, lines);
    }
    assert AllSeen(m, lines) ==> FirstMatch(m, 0, lines).Some? && FirstMatch(m, 1, lines).Some?;
    assert AllSeen(m, lines) ==> FirstMatch(m, 2, lines).Some? && FirstMatch(m, 3, lines).Some?;
  }

  ghost predicate Matches(m: Matcher, p: nat, lines: seq<string>) { exists i :: 0 <= i < |lines| && m(p, lines[i]).Some? }

  ghost predicate SeenBy(m: Matcher, lines: seq<string>, k: int)
    requires 0 <= k <= |lines|
  {
    AllSeen(m, lines[..k])
  }

  // One try of the image update.
  datatype Attempt = Attempt(line: nat, image: string, success: bool)

  // How the stream ends: as it should, or with an error that says why.
  datatype StreamEnd = EndOfLog | Cancelled | TimedOut | Broken

  // `Stopped`: the context was found cancelled between two lines.
  datatype Outcome = Done | Stopped | Ended(end: StreamEnd)

  // The tries made while reading `lines`: on exactly the lines at or after the one that
  // completes the patterns, all for the same image, none but the last successful.
  ghost predicate RightAttempts(m: Matcher, lines: seq<string>, attempts: seq<Attempt>, before: string) {
    && |attempts| <= |lines|
    && (forall n :: 0 < n <= |lines| ==> (SeenBy(m, lines, n) <==> n > |lines| - |attempts|))
    && (forall i :: 0 <= i < |attempts| ==> attempts[i].line == |lines| - |attempts| + i)
    && (forall i :: 0 <= i < |attempts| ==> attempts[i].image == Field(m, Built, lines, before))
    && (forall i :: 0 <= i < |attempts| - 1 ==> !attempts[i].success)
  }

  // Reading one more line.
  lemma FieldStep(m: Matcher, p: nat, lines: seq<string>, line: string, before: string)
    ensures var more := lines + [line];
      && FirstMatch(m, p, more).Some? == (FirstMatch(m, p, lines).Some? || m(p, line).Some?)
      && Field(m, p, more, before) ==
           if FirstMatch(m, p, lines).None? && m(p, line).Some? then m(p, line).value else Field(m, p, lines, before)
  {
    FirstMatchMeaning(m, p, lines);
    assert (lines + [line])[..|lines|] == lines;
  }

  lemma AttemptsStep(m: Matcher, lines: seq<string>, line: string, attempts: seq<Attempt>, before: string, success: bool)
    requires RightAttempts(m, lines, attempts, before)
    requires |attempts| > 0 ==> !attempts[|attempts| - 1].success
    ensures var more := lines + [line];
      RightAttempts(m, more,
        if AllSeen(m, more) then attempts + [Attempt(|lines|, Field(m, Built, more, before), success)] else attempts, before)
  {
    var more := lines + [line];
    forall p: nat | p < Patterns ensures FirstMatch(m, p, lines).Some? ==> FirstMatch(m, p, more).Some? {
      FieldStep(m, p, lines, line, before);
    }
    FieldStep(m, Built, lines, line, before);
    assert more[..|more|] == more && lines[..|lines|] == lines;
    forall n | 0 < n <= |lines| ensures SeenBy(m, more, n) == SeenBy(m, lines, n) {
      assert more[..n] == lines[..n];
    }
    if attempts != [] {
      assert SeenBy(m, lines, |lines|);
    }
    assert SeenBy(m, more, |more|) == AllSeen(m, more);
  }

  class LogReader {
    const matcher: Matcher
    var found: seq<bool> // the patterns' Found flags
    var fields: seq<string> // the status fields they fill
    ghost var initial: seq<string>
    ghost var read: seq<string> // the lines processed so far
    ghost var attempts: seq<Attempt>

    ghost predicate Matched()
      reads this
    {
      && |found| == |fields| == |initial| == Patterns
      && (forall p :: 0 <= p < Patterns ==> (found[p] <==> FirstMatch(matcher, p, read).Some?))
      && (forall p :: 0 <= p < Patterns ==> fields[p] == Field(matcher, p, read, initial[p]))
    }

    ghost predicate Valid()
      reads this
    {
      Matched() && RightAttempts(matcher, read, attempts, initial[Built])
    }

    ghost predicate Finished()
      reads this
    {
      |attempts| > 0 && attempts[|attempts| - 1].success
    }

    constructor (matcher: Matcher, fields: seq<string>)
      requires |fields| == Patterns
      ensures Valid() && read == [] && attempts == [] && initial == fields && this.matcher == matcher
    {
      this.matcher := matcher;
      found := [false, false, false, false];
      this.fields, initial := fields, fields;
      attempts, read := [], [];
    }

    // handleAMIUpdates, as far as the reader can tell.
    method TryUpdate() returns (success: bool)
      requires |fields| == Patterns && |read| > 0
      modifies this`attempts
      ensures attempts == old(attempts) + [Attempt(|read| - 1, fields[Built], success)]
    {
      success := *;
      attempts := attempts + [Attempt(|read| - 1, fields[Built], success)];
    }

    // The loop over the patterns.
    method MatchLine(line: string) returns (allFound: bool)
      requires Matched()
      modifies this`found, this`fields, this`read
      ensures Matched() && read == old(read) + [line]
      ensures allFound <==> AllSeen(matcher, read)
    {
      hide FirstMatch, Field;
      ghost var lines := read;
      read := read + [line];
      allFound := true;
      for p := 0 to Patterns
        invariant |found| == |fields| == Patterns && read == lines + [line]
        invariant forall q :: 0 <= q < p ==>
          (found[q] <==> FirstMatch(matcher, q, read).Some?) && fields[q] == Field(matcher, q, read, initial[q])
        invariant forall q :: p <= q < Patterns ==>
          (found[q] <==> FirstMatch(matcher, q, lines).Some?) && fields[q] == Field(matcher, q, lines, initial[q])
        invariant allFound <==> forall q :: 0 <= q < p ==> found[q]
      {
        FieldStep(matcher, p, lines, line, initial[p]);
        if !found[p] && matcher(p, line).Some? {
          found := found[p := true];
          fields := fields[p := matcher(p, line).value];
        }
        if !found[p] {
          allFound := false;
        }
      }
    }

    method ProcessLogLine(line: string) returns (finished: bool)
      requires Valid() && !Finished()
      modifies this
      ensures Valid() && read == old(read) + [line] && initial == old(initial)
      ensures finished == Finished()
      ensures if Matches(matcher, 0, read) && Matches(matcher, 1, read) && Matches(matcher, 2, read) && Matches(matcher, 3, read)
              then attempts == old(attempts) + [Attempt(|read| - 1, fields[1], finished)]
              else attempts == old(attempts) && !finished
    {
      hide FirstMatch, Field, RightAttempts, AllSeen;
      ghost var lines := read;
      var allFound := MatchLine(line);
      finished := false;
      if allFound {
        finished := TryUpdate();
      }
      AttemptsStep(matcher, lines, line, old(attempts), initial[Built], finished);
      AllSeenMeans(matcher, read);
    }

    // The stream delivers `lines` and then ends in one of four ways. The lines that were
    // processed are `read`: all of them when the end was reached, those up to the first
    // successful update when done, or those before the context was cancelled. A time limit
    // that ran out is not reported as an error, and neither is an end without a successful
    // update.
    method ProcessLogStream(lines: seq<string>, end: StreamEnd) returns (outcome: Outcome, failed: bool)
      requires Valid() && read == []
      modifies this
      ensures Valid() && initial == old(initial) && read <= lines
      ensures outcome == Done <==> Finished()
      ensures outcome.Ended? ==> read == lines && outcome.end == end
      ensures outcome.Stopped? ==> read < lines
      ensures failed <==> outcome == Stopped || outcome == Ended(Cancelled) || outcome == Ended(Broken)
    {
      var i := 0;
      while i < |lines|
        invariant i <= |lines| && Valid() && !Finished() && initial == old(initial) && read == lines[..i]
        decreases |lines| - i
      {
        var cancelled: bool := *;
        if cancelled {
          return Stopped, true;
        }
        var finished := ProcessLogLine(lines[i]);
        assert lines[..i + 1] == lines[..i] + [lines[i]];
        if finished {
          return Done, false;
        }
        i := i + 1;
      }
      match end
      case EndOfLog => return Ended(end), false;
      case Cancelled => return Ended(end), true;
      case TimedOut => return Ended(end), false;
      case Broken => return Ended(end), true;
    }
  }
}
