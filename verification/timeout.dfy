// runWithTimeout of pkg/manager_packer/manager.go: an operation in a goroutine, a deadline,
// and two channels of capacity one that the goroutine closes in the wrong order.
module RunWithTimeout {
  import opened Options

  // What the caller gets: the operation's own result, or one of the failures made here.
  datatype Result =
    | OfOperation(success: bool)
    | TimedOut
    | OperationFailed // from errCh: a context error, or the nil of a closed channel
    | ZeroResult // from the closed, empty resultCh
  {
    predicate Success() { OfOperation? && success }
  }

  datatype Goroutine = Running | Selecting(outcome: bool) | Returning | ErrClosed | Finished
  datatype Caller = Waiting | Returned(result: Result)

  // `done` is the context: the deadline, the parent, or the caller's deferred cancel.
  datatype State = State(g: Goroutine, caller: Caller, done: bool, result: Option<bool>, err: Option<()>)
  {
    predicate ErrChClosed() { g == ErrClosed || g == Finished }
    predicate ResultChClosed() { g == Finished }
  }

  const Start := State(Running, Waiting, false, None, None)

  datatype Event =
    | Deadline
    | OpReturns(success: bool)
    | SendResult | SendErr | CloseErr | CloseResult
    | CallerSeesDone | CallerReadsErr | CallerReadsResult

  predicate Enabled(s: State, e: Event) {
    match e
    case Deadline => true
    case OpReturns(_) => s.g == Running
    case SendResult => s.g.Selecting? && s.result.None?
    case SendErr => s.g.Selecting? && s.done && s.err.None?
    case CloseErr => s.g == Returning
    case CloseResult => s.g == ErrClosed
    case CallerSeesDone => s.caller == Waiting && s.done
    case CallerReadsErr => s.caller == Waiting && (s.err.Some? || s.ErrChClosed())
    case CallerReadsResult => s.caller == Waiting && (s.result.Some? || s.ResultChClosed())
  }

  // The caller's return runs the deferred cancel.
  function Step(s: State, e: Event): State
    requires Enabled(s, e)
  {
    match e
    case Deadline => s.(done := true)
    case OpReturns(success) => s.(g := Selecting(success))
    case SendResult => s.(g := Returning, result := Some(s.g.outcome))
    case SendErr => s.(g := Returning, err := Some(()))
    case CloseErr => s.(g := ErrClosed)
    case CloseResult => s.(g := Finished)
    case CallerSeesDone => s.(caller := Returned(TimedOut), done := true)
    case CallerReadsErr => s.(caller := Returned(OperationFailed), done := true, err := None)
    case CallerReadsResult =>
      s.(caller := Returned(if s.result.Some? then OfOperation(s.result.value) else ZeroResult), done := true, result := None)
  }

  function Replay(es: seq<Event>): Option<State> {
    if es == [] then Some(Start)
    else
      match Replay(es[..|es| - 1])
      case None => None
      case Some(s) => if Enabled(s, es[|es| - 1]) then Some(Step(s, es[|es| - 1])) else None
  }

  predicate OpReturned(es: seq<Event>, success: bool) { OpReturns(success) in es }

  predicate Inv(s: State, es: seq<Event>) {
    && (s.g == Running ==> s.result.None? && s.err.None? && forall b :: !OpReturned(es, b))
    && (s.g.Selecting? ==> s.result.None? && s.err.None? && OpReturned(es, s.g.outcome))
    && (s.result.Some? ==> OpReturned(es, s.result.value))
    && (s.caller.Returned? && s.caller.result.OfOperation? ==> OpReturned(es, s.caller.result.success))
    && (OpReturned(es, true) ==> !OpReturned(es, false))
  }

  lemma {:induction false} Reachable(es: seq<Event>)
    requires Replay(es).Some?
    ensures Inv(Replay(es).value, es)
  {
    if es != [] {
      var init, e := es[..|es| - 1], es[|es| - 1];
      Reachable(init);
      assert es == init + [e];
      StepInv(Replay(init).value, init, e);
    }
  }

  lemma StepInv(s: State, es: seq<Event>, e: Event)
    requires Inv(s, es) && Enabled(s, e)
    ensures Inv(Step(s, e), es + [e])
  {
    assert forall b :: OpReturned(es + [e], b) <==> OpReturned(es, b) || e == OpReturns(b);
  }

  // Whatever the scheduler does: a success (or any result of the operation's) is handed out
  // only if the operation gave it; a goroutine ready to send has room, at most one value is
  // ever sent, and no channel it sends on is closed.
  lemma OnlyRealResults(es: seq<Event>)
    requires Replay(es).Some?
    ensures var s := Replay(es).value;
      && (s.caller.Returned? && s.caller.result.Success() ==> OpReturned(es, true) && !OpReturned(es, false))
      && (s.caller.Returned? && s.caller.result == OfOperation(false) ==> OpReturned(es, false))
      && (s.g.Selecting? ==> Enabled(s, SendResult) && !s.ErrChClosed() && !s.ResultChClosed())
      && (s.g.Selecting? && s.done ==> Enabled(s, SendErr))
  {
    Reachable(es);
  }

  // Nobody is stuck: once the operation has returned, the goroutine always has a step until
  // it is finished, and then, or after the deadline, the caller has one.
  lemma NobodyStuck(es: seq<Event>)
    requires Replay(es).Some?
    ensures var s := Replay(es).value;
      && (s.g != Running && s.g != Finished ==> Enabled(s, SendResult) || Enabled(s, CloseErr) || Enabled(s, CloseResult))
      && (s.caller == Waiting && (s.done || s.g == Finished) ==>
            Enabled(s, CallerSeesDone) || (Enabled(s, CallerReadsErr) && Enabled(s, CallerReadsResult)))
  {
    Reachable(es);
  }

  // A success can be lost without any deadline: the closed error channel is ready as well,
  // and reading it reports a failure.
  lemma FastSuccessCanBeLost() returns (es: seq<Event>)
    ensures Deadline !in es && OpReturned(es, true) && Replay(es).Some?
    ensures Replay(es).value.caller == Returned(OperationFailed)
  {
    es := [OpReturns(true), SendResult, CloseErr, CallerReadsErr];
    var s0 := Start;
    var s1 := Step(s0, es[0]);
    var s2 := Step(s1, es[1]);
    var s3 := Step(s2, es[2]);
    assert es[..1][..0] == [] && es[..2][..1] == es[..1] && es[..3][..2] == es[..2];
    assert Replay([]) == Some(s0);
    assert Replay(es[..1]) == Some(s1) && Replay(es[..2]) == Some(s2) && Replay(es[..3]) == Some(s3);
    assert OpReturns(true) == es[0];
  }

  predicate IsReturn(e: Event) { e.CallerSeesDone? || e.CallerReadsErr? || e.CallerReadsResult? }

  // Every way the caller could return right now hands out the operation's own result.
  ghost predicate OnlyOwnResults(s: State) {
    forall e :: IsReturn(e) && Enabled(s, e) ==> Step(s, e).caller.result.OfOperation?
  }

  // After any schedule that leaves the caller waiting: it is sure to return the operation's
  // own result next if and only if no deadline has passed and the error channel has not
  // been closed. What happens after its return does not matter.
  lemma LostExactlyAfterClose(es: seq<Event>)
    requires Replay(es).Some? && Replay(es).value.caller == Waiting
    ensures OnlyOwnResults(Replay(es).value) <==> Deadline !in es && CloseErr !in es
  {
    WhileWaiting(es);
    var s := Replay(es).value;
    if s.done {
      assert IsReturn(CallerSeesDone) && Enabled(s, CallerSeesDone);
    }
    if s.ErrChClosed() {
      assert IsReturn(CallerReadsErr) && Enabled(s, CallerReadsErr);
    }
  }

  // What a waiting caller's state says about the schedule.
  lemma {:induction false} WhileWaiting(es: seq<Event>)
    requires Replay(es).Some? && Replay(es).value.caller == Waiting
    ensures var s := Replay(es).value;
      && (s.done <==> Deadline in es) && (s.ErrChClosed() <==> CloseErr in es)
      && (s.err.Some? ==> s.done)
  {
    if es != [] {
      var init := es[..|es| - 1];
      assert es == init + [es[|es| - 1]];
      WhileWaiting(init);
    }
  }
}
