/**
  The `GET /` handler. A query is executed once and its result returned.
  A subscription's result stream is turned into server-sent events, one per
  response, raced against the process-wide shutdown signal.

  The race is modelled as a sequence of events on one adapter: the engine
  stream yields a response (`Pull`), the engine stream ends (`Exhausted`),
  or shutdown reaches the watcher task (`ShutdownFired`). Serialising a
  response is an opaque partial function `toJson`.
*/
module Handler {
  import opened Wrappers
  import opened GraphQLQuery

  /** One server-sent event: `event` is `None` for a default event, `data` its payload. */
  datatype Frame = Frame(event: Option<string>, data: string)

  /** How the adapter's output stream ended, if it has. */
  datatype Outcome =
    | Running  // still streaming
    | Drained  // the engine stream was exhausted
    | Failed   // a response could not be serialised
    | Aborted  // the shutdown watcher aborted the stream

  datatype StreamEvent<R> = Pull(item: R) | Exhausted | ShutdownFired

  /**
    The adapter's state: the responses taken from the engine stream, the
    frames emitted, the outcome, whether the abort handle was triggered,
    whether the watcher task was cancelled, and how many times it was.
  */
  datatype AdapterState<R> = AdapterState(
    received: seq<R>,
    frames: seq<Frame>,
    outcome: Outcome,
    abortRequested: bool,
    watcherCancelled: bool,
    watcherCancels: nat)

  function Initial<R>(): AdapterState<R>
  {
    AdapterState([], [], Running, false, false, 0)
  }

  /**
    One event. Once the output has ended, the engine stream is polled no
    more, so `Pull` and `Exhausted` change nothing; a watcher that is still
    alive may still trigger the abort handle, which then has no effect.
  */
  function Step<R>(toJson: R -> Option<string>, s: AdapterState<R>, e: StreamEvent<R>): (t: AdapterState<R>)
    ensures s.frames <= t.frames && |t.frames| <= |s.frames| + 1
    ensures |t.frames| == |s.frames| + 1 <==> s.outcome == Running && e.Pull? && toJson(e.item).Some?
    ensures s.outcome != Running ==> t.outcome == s.outcome && t.frames == s.frames
    ensures s.outcome == Running && !s.watcherCancelled && e.ShutdownFired? ==> t.outcome == Aborted && t.abortRequested
    ensures t.watcherCancels == s.watcherCancels + (if s.outcome == Running && e.Exhausted? then 1 else 0)
  {
    match e
    case Pull(item) =>
      if s.outcome != Running then s
      else
        (match toJson(item)
         case Some(data) => s.(received := s.received + [item], frames := s.frames + [Frame(None, data)])
         case None => s.(received := s.received + [item], outcome := Failed))
    case Exhausted =>
      if s.outcome != Running then s
      else s.(outcome := Drained, watcherCancelled := true, watcherCancels := s.watcherCancels + 1)
    case ShutdownFired =>
      if s.watcherCancelled then s
      else s.(abortRequested := true, outcome := if s.outcome == Running then Aborted else s.outcome)
  }

  /** The state after a sequence of events. */
  function Run<R>(toJson: R -> Option<string>, s: AdapterState<R>, events: seq<StreamEvent<R>>): (t: AdapterState<R>)
    ensures s.frames <= t.frames && |t.frames| <= |s.frames| + |events|
    ensures s.outcome != Running ==> t.outcome == s.outcome && t.frames == s.frames
    decreases |events|
  {
    if events == [] then s else Run(toJson, Step(toJson, s, events[0]), events[1..])
  }

  /**
    Reference semantics of the output: the serialised responses pulled
    before the first terminal event, each as a default frame.
  */
  function ExpectedFrames<R>(toJson: R -> Option<string>, events: seq<StreamEvent<R>>): (frames: seq<Frame>)
    ensures |frames| <= |events|
    ensures forall i :: 0 <= i < |frames| ==> frames[i].event == None && events[i].Pull? && toJson(events[i].item) == Some(frames[i].data)
    decreases |events|
  {
    if events == [] then []
    else
      match events[0]
      case Pull(item) =>
        (match toJson(item)
         case Some(data) => [Frame(None, data)] + ExpectedFrames(toJson, events[1..])
         case None => [])
      case Exhausted => []
      case ShutdownFired => []
  }

  /** Reference semantics of the outcome: the first terminal event decides it. */
  function ExpectedOutcome<R>(toJson: R -> Option<string>, events: seq<StreamEvent<R>>): (outcome: Outcome)
    ensures outcome == Running <==> forall i :: 0 <= i < |events| ==> events[i].Pull? && toJson(events[i].item).Some?
    decreases |events|
  {
    if events == [] then Running
    else
      match events[0]
      case Pull(item) => if toJson(item).Some? then ExpectedOutcome(toJson, events[1..]) else Failed
      case Exhausted => Drained
      case ShutdownFired => Aborted
  }

  /**
    What holds of every reachable state: each frame is the default frame of
    the serialisation of the response pulled at the same position; a
    failure consumed one last response and emitted nothing for it; the
    watcher is cancelled, once, exactly on a drained stream; the abort
    handle is triggered on every aborted stream and on no running one.
  */
  ghost predicate Consistent<R>(toJson: R -> Option<string>, s: AdapterState<R>)
  {
    && |s.frames| == |s.received| - (if s.outcome == Failed then 1 else 0)
    && (forall i :: 0 <= i < |s.frames| ==>
          s.frames[i].event == None && toJson(s.received[i]) == Some(s.frames[i].data))
    && (s.outcome == Failed ==> |s.received| > 0 && toJson(s.received[|s.received| - 1]) == None)
    && s.watcherCancelled == (s.outcome == Drained)
    && s.watcherCancels == (if s.outcome == Drained then 1 else 0)
    && (s.outcome == Running ==> !s.abortRequested)
    && (s.outcome == Aborted ==> s.abortRequested)
  }

  lemma StepConsistent<R>(toJson: R -> Option<string>, s: AdapterState<R>, e: StreamEvent<R>)
    requires Consistent(toJson, s)
    ensures Consistent(toJson, Step(toJson, s, e))
  {
    if e.Pull? && s.outcome == Running {
      var t := Step(toJson, s, e);
      forall i | 0 <= i < |t.frames|
        ensures t.frames[i].event == None && toJson(t.received[i]) == Some(t.frames[i].data)
      {
        if i < |s.frames| {
          assert t.frames[i] == s.frames[i] && t.received[i] == s.received[i];
        }
      }
    }
  }

  lemma {:induction false} RunConsistent<R>(toJson: R -> Option<string>, s: AdapterState<R>, events: seq<StreamEvent<R>>)
    requires Consistent(toJson, s)
    ensures Consistent(toJson, Run(toJson, s, events))
    decreases |events|
  {
    if events != [] {
      StepConsistent(toJson, s, events[0]);
      RunConsistent(toJson, Step(toJson, s, events[0]), events[1..]);
    }
  }

  /** Every reachable state satisfies `Consistent`. */
  lemma ReachableConsistent<R>(toJson: R -> Option<string>, events: seq<StreamEvent<R>>)
    ensures Consistent(toJson, Run(toJson, Initial(), events))
  {
    RunConsistent(toJson, Initial(), events);
  }

  lemma {:induction false} RunSnoc<R>(toJson: R -> Option<string>, s: AdapterState<R>, events: seq<StreamEvent<R>>, e: StreamEvent<R>)
    ensures Run(toJson, s, events + [e]) == Step(toJson, Run(toJson, s, events), e)
    decreases |events|
  {
    if events == [] {
      assert [e][1..] == [];
    } else {
      assert (events + [e])[1..] == events[1..] + [e];
      RunSnoc(toJson, Step(toJson, s, events[0]), events[1..], e);
    }
  }

  lemma {:induction false} RunAppend<R>(toJson: R -> Option<string>, s: AdapterState<R>, p: seq<StreamEvent<R>>, q: seq<StreamEvent<R>>)
    ensures Run(toJson, s, p + q) == Run(toJson, Run(toJson, s, p), q)
    decreases |p|
  {
    if p == [] {
      assert p + q == q;
    } else {
      assert (p + q)[0] == p[0];
      assert (p + q)[1..] == p[1..] + q;
      RunAppend(toJson, Step(toJson, s, p[0]), p[1..], q);
    }
  }

  /**
    From a running state the adapter emits exactly the reference frames, in
    event order, and reaches the reference outcome.
  */
  lemma RunMatchesReference<R>(toJson: R -> Option<string>, s: AdapterState<R>, events: seq<StreamEvent<R>>)
    requires s.outcome == Running && !s.watcherCancelled
    ensures Run(toJson, s, events).frames == s.frames + ExpectedFrames(toJson, events)
    ensures Run(toJson, s, events).outcome == ExpectedOutcome(toJson, events)
  {
    RunFramesMatchReference(toJson, s, events);
    RunOutcomeMatchesReference(toJson, s, events);
  }

  lemma {:induction false} RunFramesMatchReference<R>(toJson: R -> Option<string>, s: AdapterState<R>, events: seq<StreamEvent<R>>)
    requires s.outcome == Running && !s.watcherCancelled
    ensures Run(toJson, s, events).frames == s.frames + ExpectedFrames(toJson, events)
    decreases |events|
  {
    if events != [] {
      var t := Step(toJson, s, events[0]);
      assert Run(toJson, s, events) == Run(toJson, t, events[1..]);
      if t.outcome == Running {
        var frame := Frame(None, toJson(events[0].item).value);
        assert t.frames == s.frames + [frame];
        assert ExpectedFrames(toJson, events) == [frame] + ExpectedFrames(toJson, events[1..]);
        RunFramesMatchReference(toJson, t, events[1..]);
        assert s.frames + [frame] + ExpectedFrames(toJson, events[1..]) == s.frames + ([frame] + ExpectedFrames(toJson, events[1..]));
      } else {
        assert ExpectedFrames(toJson, events) == [];
        assert Run(toJson, t, events[1..]).frames == t.frames == s.frames;
      }
    }
  }

  lemma {:induction false} RunOutcomeMatchesReference<R>(toJson: R -> Option<string>, s: AdapterState<R>, events: seq<StreamEvent<R>>)
    requires s.outcome == Running && !s.watcherCancelled
    ensures Run(toJson, s, events).outcome == ExpectedOutcome(toJson, events)
    decreases |events|
  {
    if events != [] {
      var t := Step(toJson, s, events[0]);
      assert Run(toJson, s, events) == Run(toJson, t, events[1..]);
      if t.outcome == Running {
        assert ExpectedOutcome(toJson, events) == ExpectedOutcome(toJson, events[1..]);
        RunOutcomeMatchesReference(toJson, t, events[1..]);
      } else {
        assert ExpectedOutcome(toJson, events) == t.outcome;
        TerminalIsFinal(toJson, t, events[1..]);
      }
    }
  }

  /**
    Once an outcome is reached it never changes, and neither the frames nor
    the responses taken nor the watcher cancellations grow any more.
  */
  lemma {:induction false} TerminalIsFinal<R>(toJson: R -> Option<string>, s: AdapterState<R>, events: seq<StreamEvent<R>>)
    requires s.outcome != Running
    ensures Run(toJson, s, events).outcome == s.outcome
    ensures Run(toJson, s, events).frames == s.frames
    ensures Run(toJson, s, events).received == s.received
    ensures Run(toJson, s, events).watcherCancels == s.watcherCancels
    decreases |events|
  {
    if events != [] {
      TerminalIsFinal(toJson, Step(toJson, s, events[0]), events[1..]);
    }
  }

  /** A response serialised while streaming adds exactly its one frame at the end. */
  lemma PullAppendsOneFrame<R>(toJson: R -> Option<string>, events: seq<StreamEvent<R>>, item: R, data: string)
    requires Run(toJson, Initial(), events).outcome == Running
    requires toJson(item) == Some(data)
    ensures Run(toJson, Initial(), events + [Pull(item)]).frames == Run(toJson, Initial(), events).frames + [Frame(None, data)]
    ensures Run(toJson, Initial(), events + [Pull(item)]).outcome == Running
  {
    RunSnoc(toJson, Initial(), events, Pull(item));
  }

  /** After the shutdown signal reaches the adapter no frame is ever emitted. */
  lemma NoFramesAfterShutdown<R>(toJson: R -> Option<string>, before: seq<StreamEvent<R>>, after: seq<StreamEvent<R>>)
    ensures Run(toJson, Initial(), before + [ShutdownFired] + after).frames == Run(toJson, Initial(), before).frames
  {
    StopsAt(toJson, before, ShutdownFired, after);
  }

  /** A response that fails to serialise emits nothing, and nothing is emitted after it. */
  lemma NoFramesAfterError<R>(toJson: R -> Option<string>, before: seq<StreamEvent<R>>, item: R, after: seq<StreamEvent<R>>)
    requires toJson(item).None?
    ensures Run(toJson, Initial(), before + [Pull(item)] + after).frames == Run(toJson, Initial(), before).frames
  {
    StopsAt(toJson, before, Pull(item), after);
  }

  /** Once the engine stream is exhausted no frame is ever emitted. */
  lemma NoFramesAfterExhaustion<R>(toJson: R -> Option<string>, before: seq<StreamEvent<R>>, after: seq<StreamEvent<R>>)
    ensures Run(toJson, Initial(), before + [Exhausted] + after).frames == Run(toJson, Initial(), before).frames
  {
    StopsAt(toJson, before, Exhausted, after);
  }

  lemma StopsAt<R>(toJson: R -> Option<string>, before: seq<StreamEvent<R>>, e: StreamEvent<R>, after: seq<StreamEvent<R>>)
    requires e.Exhausted? || e.ShutdownFired? || (e.Pull? && toJson(e.item).None?)
    ensures Run(toJson, Initial(), before + [e] + after).frames == Run(toJson, Initial(), before).frames
  {
    var s := Run(toJson, Initial(), before);
    ReachableConsistent(toJson, before);
    RunSnoc(toJson, Initial(), before, e);
    RunAppend(toJson, Initial(), before + [e], after);
    TerminalIsFinal(toJson, Step(toJson, s, e), after);
  }

  /**
    The watcher task is cancelled exactly when the engine stream was
    exhausted, and then exactly once; in particular a stream ended by a
    serialisation error leaves its watcher waiting for shutdown.
  */
  lemma WatcherCancelledOnlyOnDrain<R>(toJson: R -> Option<string>, events: seq<StreamEvent<R>>)
    ensures Run(toJson, Initial(), events).watcherCancelled <==> Run(toJson, Initial(), events).outcome == Drained
    ensures Run(toJson, Initial(), events).watcherCancels == if Run(toJson, Initial(), events).outcome == Drained then 1 else 0
  {
    ReachableConsistent(toJson, events);
  }

  /** Every frame is a default event carrying the serialisation of the response pulled at its position. */
  lemma FramesAreSerialisedResponses<R>(toJson: R -> Option<string>, events: seq<StreamEvent<R>>, i: nat)
    requires i < |Run(toJson, Initial(), events).frames|
    ensures i < |Run(toJson, Initial(), events).received|
    ensures toJson(Run(toJson, Initial(), events).received[i]).Some?
    ensures Run(toJson, Initial(), events).frames[i] ==
            Frame(None, toJson(Run(toJson, Initial(), events).received[i]).value)
  {
    ReachableConsistent(toJson, events);
  }

  /**
    One subscription's adapter: the try-stream over the engine stream,
    wrapped in `Abortable`, and the spawned watcher task that triggers the
    abort handle when shutdown fires.
  */
  class SubscriptionStream<R> {
    const request: Request
    const toJson: R -> Option<string>
    ghost var received: seq<R>
    var frames: seq<Frame>
    var outcome: Outcome
    var abortRequested: bool
    var watcherCancelled: bool
    ghost var watcherCancels: nat

    ghost function State(): AdapterState<R>
      reads this
    {
      AdapterState(received, frames, outcome, abortRequested, watcherCancelled, watcherCancels)
    }

    ghost predicate Valid()
      reads this
    {
      Consistent(toJson, State())
    }

    /** Creates the abort pair, spawns the watcher and opens the engine stream. */
    constructor (request: Request, toJson: R -> Option<string>)
      ensures Valid()
      ensures this.request == request && this.toJson == toJson
      ensures State() == Initial()
    {
      this.request := request;
      this.toJson := toJson;
      received := [];
      frames := [];
      outcome := Running;
      abortRequested := false;
      watcherCancelled := false;
      watcherCancels := 0;
    }

    /** The engine stream yielded `item`: serialise it into one frame, or end the stream with the error. */
    method OnPull(item: R)
      requires Valid()
      modifies this
      ensures Valid()
      ensures State() == Step(toJson, old(State()), Pull(item))
    {
      StepConsistent(toJson, State(), Pull(item));
      if outcome == Running {
        received := received + [item];
        var data := toJson(item);
        if data.Some? {
          frames := frames + [Frame(None, data.value)];
        } else {
          outcome := Failed;
        }
      }
    }

    /** The engine stream ended: cancel the watcher task, then close the output. */
    method OnExhausted()
      requires Valid()
      modifies this
      ensures Valid()
      ensures State() == Step(toJson, old(State()), Exhausted)
    {
      StepConsistent(toJson, State(), Exhausted);
      if outcome == Running {
        watcherCancelled := true;
        watcherCancels := watcherCancels + 1;
        outcome := Drained;
      }
    }

    /** Shutdown reached a live watcher: trigger the abort handle, so the stream yields nothing more. */
    method OnShutdown()
      requires Valid()
      modifies this
      ensures Valid()
      ensures State() == Step(toJson, old(State()), ShutdownFired)
    {
      StepConsistent(toJson, State(), ShutdownFired);
      if !watcherCancelled {
        abortRequested := true;
        if outcome == Running {
          outcome := Aborted;
        }
      }
    }
  }

  /**
    Feeds one interleaving of events to a fresh adapter: the frames the
    client receives are the serialised pulls before the first terminal
    event, in order, and the outcome is decided by that event.
  */
  method Serve<R>(request: Request, toJson: R -> Option<string>, events: seq<StreamEvent<R>>)
    returns (frames: seq<Frame>, outcome: Outcome)
    ensures frames == ExpectedFrames(toJson, events)
    ensures outcome == ExpectedOutcome(toJson, events)
  {
    var stream := new SubscriptionStream(request, toJson);
    var i := 0;
    while i < |events|
      invariant 0 <= i <= |events|
      invariant stream.Valid() && stream.toJson == toJson
      invariant stream.State() == Run(toJson, Initial(), events[..i])
    {
      RunSnoc(toJson, Initial(), events[..i], events[i]);
      assert events[..i + 1] == events[..i] + [events[i]];
      match events[i] {
        case Pull(item) => stream.OnPull(item);
        case Exhausted => stream.OnExhausted();
        case ShutdownFired => stream.OnShutdown();
      }
      i := i + 1;
    }
    assert events[..i] == events;
    RunMatchesReference(toJson, Initial(), events);
    frames, outcome := stream.frames, stream.outcome;
  }

  /** The handler's response: one query result, or an event stream. */
  datatype Response<R> = QueryResponse(result: R) | SseResponse(stream: SubscriptionStream<R>)

  /**
    `GET /`: a query is executed once and answered directly, without an
    abort pair, a watcher or a stream; a subscription gets a fresh adapter
    over the engine stream for the same request.
  */
  method GraphQLHandlerQuery<R>(
    q: GraphQLQuery,
    fromJson: JsonValue -> Variables,
    execute: Request -> R,
    toJson: R -> Option<string>)
    returns (response: Response<R>)
    ensures InQuery(q) <==> response.QueryResponse?
    ensures response.QueryResponse? ==> response.result == execute(ToRequest(q, fromJson))
    ensures response.SseResponse? ==>
              && fresh(response.stream)
              && response.stream.Valid()
              && response.stream.request == ToRequest(q, fromJson)
              && response.stream.toJson == toJson
              && response.stream.State() == Initial()
  {
    if InQuery(q) {
      return QueryResponse(execute(ToRequest(q, fromJson)));
    }
    var stream := new SubscriptionStream(ToRequest(q, fromJson), toJson);
    response := SseResponse(stream);
  }
}
