// The build watch (watchBuild, watchJobCompletion, streamPodLogs, runningBuild): two
// producers, one consumer and a clean-up over two channels of capacity one.
module BuildWatch {
  import opened Options

  const Capacity := 1

  datatype JobWatcher = Connecting | Watching | SendingError(last: bool) | SendingResult | WatcherDone
  datatype LogStreamer = Streaming | SendingLogError | StreamerDone
  datatype Consumer = Selecting | Left

  // The clean-up's goroutine: after both producers are done it closes the channels in order.
  datatype Closer = NotStarted | Waiting | ResultClosed | AllClosed

  // Channels hold a number of values; the counters remember what went through them.
  datatype State = State(
    jobs: JobWatcher, logs: LogStreamer, consumer: Consumer, cancelled: bool, closer: Closer,
    results: nat, errors: nat,
    jobErrors: nat, logErrors: nat, resultsSent: nat, errorsTaken: nat, resultsTaken: nat)
  {
    predicate ResultChanClosed() { closer.ResultClosed? || closer.AllClosed? }
    predicate ErrChanClosed() { closer.AllClosed? }
    // runningBuild left because it received something.
    predicate LeftByReceiving() { consumer.Left? && errorsTaken + resultsTaken > 0 }
    predicate ProducersDone() { jobs.WatcherDone? && logs.StreamerDone? }
  }

  const Start := State(Connecting, Streaming, Selecting, false, NotStarted, 0, 0, 0, 0, 0, 0, 0)

  datatype Event =
    | ConnectFails | Connects
    | WatchClosed | NotAJob | JobNeutral | JobOver | WatcherSeesCancel
    | SendError | SendResult
    | LogsEnd | LogsFail | SendLogError
    | TakeResult | TakeError | TickerLeaves | ContextLeaves
    | Cancel
    | ParentCancelled
    | CloseResult | CloseErr

  predicate Enabled(s: State, e: Event) {
    match e
    case ConnectFails => s.jobs.Connecting?
    case Connects => s.jobs.Connecting?
    case WatchClosed => s.jobs.Watching?
    case NotAJob => s.jobs.Watching?
    case JobNeutral => s.jobs.Watching?
    case JobOver => s.jobs.Watching?
    case WatcherSeesCancel => s.jobs.Watching? && s.cancelled
    case SendError => s.jobs.SendingError? && s.errors < Capacity
    case SendResult => s.jobs.SendingResult? && s.results < Capacity
    case LogsEnd => s.logs.Streaming?
    case LogsFail => s.logs.Streaming?
    case SendLogError => s.logs.SendingLogError? && s.errors < Capacity
    case TakeResult => s.consumer.Selecting? && s.results > 0
    case TakeError => s.consumer.Selecting? && s.errors > 0
    case TickerLeaves => s.consumer.Selecting?
    case ContextLeaves => s.consumer.Selecting? && s.cancelled
    case Cancel => s.consumer.Left? && s.closer.NotStarted?
    case ParentCancelled => true
    case CloseResult => s.closer.Waiting? && s.ProducersDone()
    case CloseErr => s.closer.ResultClosed?
  }

  function Step(s: State, e: Event): State
    requires Enabled(s, e)
  {
    match e
    case ConnectFails => s.(jobs := SendingError(true))
    case Connects => s.(jobs := Watching)
    case WatchClosed => s.(jobs := SendingError(true))
    case NotAJob => s.(jobs := SendingError(false))
    case JobNeutral => s
    case JobOver => s.(jobs := SendingResult)
    case WatcherSeesCancel => s.(jobs := WatcherDone)
    case SendError =>
      s.(jobs := if s.jobs.last then WatcherDone else Watching, errors := s.errors + 1, jobErrors := s.jobErrors + 1)
    case SendResult => s.(jobs := WatcherDone, results := s.results + 1, resultsSent := s.resultsSent + 1)
    case LogsEnd => s.(logs := StreamerDone)
    case LogsFail => s.(logs := SendingLogError)
    case SendLogError => s.(logs := StreamerDone, errors := s.errors + 1, logErrors := s.logErrors + 1)
    case TakeResult => s.(consumer := Left, results := s.results - 1, resultsTaken := s.resultsTaken + 1)
    case TakeError => s.(consumer := Left, errors := s.errors - 1, errorsTaken := s.errorsTaken + 1)
    case TickerLeaves => s.(consumer := Left)
    case ContextLeaves => s.(consumer := Left)
    case Cancel => s.(cancelled := true, closer := Waiting)
    case ParentCancelled => s.(cancelled := true)
    case CloseResult => s.(closer := ResultClosed)
    case CloseErr => s.(closer := AllClosed)
  }

  function Replay(s: State, es: seq<Event>): Option<State> {
    if es == [] then Some(s)
    else
      match Replay(s, es[..|es| - 1])
      case None => None
      case Some(t) => if Enabled(t, es[|es| - 1]) then Some(Step(t, es[|es| - 1])) else None
  }

  // ---------------------------------------------------------------- closed channels

  // What every interleaving keeps: every value is accounted for, the watcher sends a result
  // at most once and as its last word, the log streamer at most one error, and channels are
  // closed only behind producers that are done and a consumer that has left.
  predicate Inv(s: State) {
    && s.results + s.resultsTaken == s.resultsSent <= 1
    && s.errors + s.errorsTaken == s.jobErrors + s.logErrors
    && s.results <= Capacity && s.errors <= Capacity
    && (s.resultsSent > 0 ==> s.jobs.WatcherDone?)
    && s.logErrors <= 1 && (s.logErrors > 0 ==> s.logs.StreamerDone?)
    && (s.consumer.Selecting? ==> s.errorsTaken + s.resultsTaken == 0)
    && s.errorsTaken + s.resultsTaken <= 1
    && (!s.closer.NotStarted? ==> s.consumer.Left? && s.cancelled)
    && (s.ResultChanClosed() ==> s.ProducersDone())
  }

  // With nothing but Job objects, the watcher's errors are its last word too.
  predicate JobsOnlyInv(s: State) {
    && s.jobErrors + s.resultsSent <= 1
    && (s.jobErrors > 0 ==> s.jobs.WatcherDone?)
    && (s.jobs.SendingError? ==> s.jobs.last)
  }

  predicate JobsOnly(es: seq<Event>) { forall i :: 0 <= i < |es| ==> es[i] != NotAJob }

  lemma StepInv(s: State, e: Event)
    requires Inv(s) && Enabled(s, e)
    ensures Inv(Step(s, e))
  {}

  lemma StepJobsOnly(s: State, e: Event)
    requires Inv(s) && JobsOnlyInv(s) && Enabled(s, e) && e != NotAJob
    ensures JobsOnlyInv(Step(s, e))
  {}

  lemma {:induction false} Reachable(es: seq<Event>)
    requires Replay(Start, es).Some?
    ensures Inv(Replay(Start, es).value)
    ensures JobsOnly(es) ==> JobsOnlyInv(Replay(Start, es).value)
  {
    hide Inv, JobsOnlyInv, Step, Enabled;
    StartInv(Start);
    StartJobsOnly(Start);
    if es != [] {
      var init := es[..|es| - 1];
      Reachable(init);
      StepInv(Replay(Start, init).value, es[|es| - 1]);
      if JobsOnly(es) {
        assert JobsOnly(init) && es[|es| - 1] != NotAJob;
        StepJobsOnly(Replay(Start, init).value, es[|es| - 1]);
      }
    }
  }

  lemma StartInv(s: State)
    requires s == Start
    ensures Inv(s)
  {}

  lemma StartJobsOnly(s: State)
    requires s == Start
    ensures JobsOnlyInv(s)
  {}

  // The watcher is done only after it sent a result or an error that ends it, or saw the
  // cancellation; and it sends a result only when the job is over. The log streamer is done
  // only after the logs ended or it sent its error.
  lemma {:induction false} DoneMeans(es: seq<Event>)
    requires Replay(Start, es).Some?
    ensures Replay(Start, es).value.jobs == WatcherDone ==>
      || (SendResult in es && JobOver in es)
      || (SendError in es && (ConnectFails in es || WatchClosed in es))
      || (WatcherSeesCancel in es && Replay(Start, es).value.cancelled)
    ensures Replay(Start, es).value.jobs == SendingResult ==> JobOver in es
    ensures Replay(Start, es).value.jobs == SendingError(true) ==> ConnectFails in es || WatchClosed in es
    ensures Replay(Start, es).value.logs == StreamerDone ==> LogsEnd in es || (SendLogError in es && LogsFail in es)
    ensures Replay(Start, es).value.logs == SendingLogError ==> LogsFail in es
  {
    if es != [] {
      DoneMeans(es[..|es| - 1]);
      assert forall e :: e in es <==> e in es[..|es| - 1] || e == es[|es| - 1];
    }
  }

  // Nobody is about to send on a closed channel, and a consumer still selecting cannot
  // meet one.
  lemma NoClosedChannelIsUsed(es: seq<Event>)
    requires Replay(Start, es).Some?
    ensures var s := Replay(Start, es).value;
      && (s.jobs.SendingError? || s.logs.SendingLogError? ==> !s.ErrChanClosed())
      && (s.jobs.SendingResult? ==> !s.ResultChanClosed())
      && (s.consumer.Selecting? ==> !s.ErrChanClosed() && !s.ResultChanClosed())
  {
    Reachable(es);
  }

  // ---------------------------------------------------------------- blocking

  // A producer waits for room in a channel that nobody will read again.
  predicate Blocked(s: State) {
    s.consumer.Left? && s.errors >= Capacity && (s.jobs.SendingError? || s.logs.SendingLogError?)
  }

  // If runningBuild left after receiving something and the watch delivers only Job objects,
  // no producer is ever blocked: each can send what it has, and has room for it.
  lemma NeverBlocked(es: seq<Event>)
    requires Replay(Start, es).Some? && JobsOnly(es) && Replay(Start, es).value.LeftByReceiving()
    ensures var s := Replay(Start, es).value;
      && !Blocked(s)
      && (s.jobs.SendingError? ==> Enabled(s, SendError))
      && (s.jobs.SendingResult? ==> Enabled(s, SendResult))
      && (s.logs.SendingLogError? ==> Enabled(s, SendLogError))
  {
    Reachable(es);
  }

  // ... so from there the producers can finish and every channel can be closed, whatever
  // has happened before.
  lemma EverybodyCanFinish(es: seq<Event>) returns (rest: seq<Event>)
    requires Replay(Start, es).Some? && JobsOnly(es) && Replay(Start, es).value.LeftByReceiving()
    ensures JobsOnly(rest) && Replay(Start, es + rest).Some?
    ensures var s := Replay(Start, es + rest).value; s.ProducersDone() && s.closer.AllClosed?
  {
    rest := [];
    assert es + rest == es;
    while !(Replay(Start, es + rest).value.ProducersDone() && Replay(Start, es + rest).value.closer.AllClosed?)
      invariant JobsOnly(rest) && Replay(Start, es + rest).Some? && Replay(Start, es + rest).value.LeftByReceiving()
      decreases Work(Replay(Start, es + rest).value)
    {
      hide Enabled, Step, NextMove, Work, Inv, JobsOnlyInv;
      var s := Replay(Start, es + rest).value;
      Reachable(es + rest);
      var e := NextMove(s);
      MoveWorks(s);
      assert (es + (rest + [e]))[..|es + (rest + [e])| - 1] == es + rest;
      rest := rest + [e];
    }
  }

  function NextMove(s: State): Event {
    if s.closer.NotStarted? then Cancel
    else if s.jobs.Connecting? then Connects
    else if s.jobs.Watching? then WatcherSeesCancel
    else if s.jobs.SendingError? then SendError
    else if s.jobs.SendingResult? then SendResult
    else if s.logs.Streaming? then LogsEnd
    else if s.logs.SendingLogError? then SendLogError
    else if s.closer.Waiting? then CloseResult
    else CloseErr
  }

  lemma MoveWorks(s: State)
    requires Inv(s) && JobsOnlyInv(s) && s.LeftByReceiving() && !(s.ProducersDone() && s.closer.AllClosed?)
    ensures Enabled(s, NextMove(s)) && NextMove(s) != NotAJob
    ensures Step(s, NextMove(s)).LeftByReceiving() && Work(Step(s, NextMove(s))) < Work(s)
  {}

  // Steps left until everything is closed.
  function Work(s: State): nat {
    (match s.jobs case Connecting => 2 case WatcherDone => 0 case _ => 1)
    + (match s.logs case Streaming => 1 case SendingLogError => 1 case StreamerDone => 0)
    + (match s.closer case NotStarted => 3 case Waiting => 2 case ResultClosed => 1 case AllClosed => 0)
  }

  // A blocked producer stays blocked in every continuation: the channels are never closed.
  lemma {:induction false} BlockedForever(s: State, es: seq<Event>)
    requires Inv(s) && Blocked(s) && Replay(s, es).Some?
    ensures Blocked(Replay(s, es).value) && Inv(Replay(s, es).value) && !Replay(s, es).value.ErrChanClosed()
  {
    if es != [] {
      var init := es[..|es| - 1];
      BlockedForever(s, init);
      hide Inv, Step, Enabled, Blocked;
      StepInv(Replay(s, init).value, es[|es| - 1]);
      BlockedStep(Replay(s, init).value, es[|es| - 1]);
    }
    BlockedKeepsOpen(Replay(s, es).value);
  }

  lemma BlockedStep(s: State, e: Event)
    requires Inv(s) && Blocked(s) && Enabled(s, e)
    ensures Blocked(Step(s, e))
  {}

  lemma BlockedKeepsOpen(s: State)
    requires Inv(s) && Blocked(s)
    ensures !s.ErrChanClosed()
  {}

  // Both conditions are needed. The ticker takes runningBuild away while both producers
  // have an error to report ...
  lemma LeavingWithoutReceivingBlocks() returns (es: seq<Event>)
    ensures JobsOnly(es) && Replay(Start, es).Some? && Blocked(Replay(Start, es).value)
  {
    es := [ConnectFails, SendError, LogsFail, TickerLeaves];
    Unroll(es);
  }

  // ... or an object that is not a Job makes the watcher report more than one error.
  lemma OtherObjectsBlock() returns (es: seq<Event>)
    ensures Replay(Start, es).Some? && Blocked(Replay(Start, es).value) && Replay(Start, es).value.LeftByReceiving()
  {
    es := [Connects, NotAJob, SendError, TakeError, NotAJob, SendError, NotAJob];
    Unroll(es);
  }

  // Replay also reads from the front.
  lemma {:induction false} FromTheFront(s: State, es: seq<Event>)
    requires |es| > 0
    ensures Replay(s, es) == if Enabled(s, es[0]) then Replay(Step(s, es[0]), es[1..]) else None
  {
    var n := |es| - 1;
    if n > 0 {
      FromTheFront(s, es[..n]);
      assert es[..n][1..] == es[1..][..n - 1];
    }
  }

  lemma {:induction false} Unroll(es: seq<Event>)
    ensures Replay(Start, es) == RunForward(Start, es)
  {
    UnrollFrom(Start, es);
  }

  function RunForward(s: State, es: seq<Event>): Option<State>
    decreases |es|
  {
    if es == [] then Some(s)
    else if Enabled(s, es[0]) then RunForward(Step(s, es[0]), es[1..]) else None
  }

  lemma {:induction false} UnrollFrom(s: State, es: seq<Event>)
    ensures Replay(s, es) == RunForward(s, es)
    decreases |es|
  {
    if es != [] {
      FromTheFront(s, es);
      if Enabled(s, es[0]) {
        UnrollFrom(Step(s, es[0]), es[1..]);
      }
    }
  }
}
