/** The consumer engine of bot_runner_go: a supervisor `Run` that connects,
    starts `Concurrency` workers and waits for them, and the worker loop
    whose handler returns a HandleResult that the worker turns into one
    acknowledgement call. */
module RunnerConsumer {
  import opened Wrappers
  import opened Nats
  import opened PullLoop

  /** Go's `type HandleResult string`: any string, of which three are named. */
  type HandleResult = string

  const HandleResultAck: HandleResult := "ACK"
  const HandleResultNak: HandleResult := "NAK"
  const HandleResultTerm: HandleResult := "TERM"

  /** The handler receives the worker id through its context. */
  type HandlerFunc = (nat, Msg) -> HandleResult

  /** The acknowledgement call the worker's `switch` makes for a result;
      a value outside the three named ones falls through with no call. */
  function CallFor(result: HandleResult): (k: Option<AckKind>)
    ensures k == Some(Ack) <==> result == HandleResultAck
    ensures k == Some(Nak) <==> result == HandleResultNak
    ensures k == Some(Term) <==> result == HandleResultTerm
  {
    if result == HandleResultAck then Some(Ack)
    else if result == HandleResultNak then Some(Nak)
    else if result == HandleResultTerm then Some(Term)
    else None
  }

  /** The calls made for one fetched message. */
  function DispatchMsg(handler: Option<HandlerFunc>, workerId: nat, m: Msg): (calls: seq<Action>)
    ensures forall a :: a in calls ==> a == Invoke(m) || (a.Acknowledge? && a.msg == m)
    ensures Invoke(m) in calls <==> handler.Some?
    ensures forall i, j :: 0 <= i < j < |calls| ==> !(calls[i].Acknowledge? && calls[j].Acknowledge?)
  {
    match handler
    case None => [Acknowledge(m, Nak)]
    case Some(h) =>
      [Invoke(m)] + match CallFor(h(workerId, m)) {
                      case Some(k) => [Acknowledge(m, k)]
                      case None => []
                    }
  }

  function Dispatch(handler: Option<HandlerFunc>, workerId: nat): Msg -> seq<Action>
  {
    m => DispatchMsg(handler, workerId, m)
  }

  /** With a handler installed, a message is handed to it once, and the
      result becomes exactly one Ack, Nak or Term call, or no call at all
      when the result is none of the three. */
  lemma HandlerResultMapping(h: HandlerFunc, workerId: nat, m: Msg)
    ensures var calls := DispatchMsg(Some(h), workerId, m);
            var r := h(workerId, m);
            && (r == HandleResultAck <==> calls == [Invoke(m), Acknowledge(m, Ack)])
            && (r == HandleResultNak <==> calls == [Invoke(m), Acknowledge(m, Nak)])
            && (r == HandleResultTerm <==> calls == [Invoke(m), Acknowledge(m, Term)])
            && (r !in {HandleResultAck, HandleResultNak, HandleResultTerm} <==> calls == [Invoke(m)])
  {
    var r := h(workerId, m);
    match CallFor(r)
    case Some(k) =>
      assert DispatchMsg(Some(h), workerId, m) == [Invoke(m), Acknowledge(m, k)];
    case None =>
      assert DispatchMsg(Some(h), workerId, m) == [Invoke(m)];
  }

  /** With no handler, every fetched message gets exactly one Nak, in fetch
      order, and nothing else. */
  lemma {:induction false} NilHandlerNaksEach(msgs: seq<Msg>, workerId: nat)
    ensures var calls := DispatchAll(msgs, Dispatch(None, workerId));
            |calls| == |msgs| && forall i :: 0 <= i < |msgs| ==> calls[i] == Acknowledge(msgs[i], Nak)
    decreases |msgs|
  {
    if msgs != [] {
      NilHandlerNaksEach(msgs[..|msgs| - 1], workerId);
    }
  }

  /** With no handler, a worker never calls a handler and never Acks or
      Terms, whatever the broker does. */
  lemma NilHandlerNeverAcksOrTerms(rounds: seq<Round>, workerId: nat)
    ensures forall a :: a in Loop(false, rounds, Dispatch(None, workerId)).trace ==>
              !a.Invoke? && (a.Acknowledge? ==> a.kind == Nak)
  {
    var ok := (a: Action) => !a.Invoke? && (a.Acknowledge? ==> a.kind == Nak);
    TraceFromDispatch(false, rounds, Dispatch(None, workerId), ok);
  }

  /** The `for _, msg := range msgs` loop of consumerWorker. */
  method HandleBatch(workerId: nat, msgs: seq<Msg>, handler: Option<HandlerFunc>) returns (calls: seq<Action>)
    ensures calls == DispatchAll(msgs, Dispatch(handler, workerId))
  {
    calls := [];
    for j := 0 to |msgs|
      invariant calls == DispatchAll(msgs[..j], Dispatch(handler, workerId))
    {
      var m := msgs[j];
      if handler.None? {
        calls := calls + [Acknowledge(m, Nak)];
      } else {
        var result := handler.value(workerId, m);
        calls := calls + [Invoke(m)];
        if result == HandleResultAck {
          calls := calls + [Acknowledge(m, Ack)];
        } else if result == HandleResultNak {
          calls := calls + [Acknowledge(m, Nak)];
        } else if result == HandleResultTerm {
          calls := calls + [Acknowledge(m, Term)];
        }
      }
      assert msgs[..j + 1][..j] == msgs[..j];
    }
    assert msgs[..|msgs|] == msgs;
  }

  /** One pass of consumerWorker's `for` loop, from subscription state `sub`. */
  method Iteration(workerId: nat, sub: bool, r: Round, handler: Option<HandlerFunc>) returns (s: StepResult)
    ensures s == Step(sub, r, Dispatch(handler, workerId))
  {
    if r.cancelled {
      return StepResult(false, if sub then [Unsubscribe] else [], true);
    }
    var held := sub;
    var calls: seq<Action> := [];
    if held && !r.stillValid {
      held := false;
    }
    if !held {
      if !r.subscribeOk {
        return StepResult(false, [Subscribe, Sleep2s], false);
      }
      calls := calls + [Subscribe];
      held := true;
    }
    calls := calls + [Fetch];
    match r.fetch {
      case FetchFailed(err) =>
        if !Is(err, ErrTimeout) && IsConnectionError(err) {
          held := false;
        }
      case Fetched(msgs) =>
        var handled := HandleBatch(workerId, msgs, handler);
        calls := calls + handled;
    }
    s := StepResult(held, calls, false);
  }

  /** consumerWorker: loops over the rounds until one is cancelled or the
      oracle runs out, starting with no subscription. */
  method ConsumerWorker(workerId: nat, rounds: seq<Round>, handler: Option<HandlerFunc>) returns (o: Outcome)
    ensures o == Loop(false, rounds, Dispatch(handler, workerId))
  {
    ghost var d := Dispatch(handler, workerId);
    var sub := false;
    var trace: seq<Action> := [];
    var stopped := false;
    var i := 0;
    while i < |rounds| && !stopped
      invariant 0 <= i <= |rounds|
      invariant stopped ==> !sub && Loop(false, rounds, d) == Outcome(trace, false, true)
      invariant !stopped ==> Loop(false, rounds, d) == After(trace, Loop(sub, rounds[i..], d))
    {
      var s := Iteration(workerId, sub, rounds[i], handler);
      LoopAt(sub, rounds, i, d);
      trace, sub, stopped := trace + s.actions, s.subscribed, s.stopped;
      i := i + 1;
    }
    if !stopped {
      assert rounds[i..] == [];
      assert trace + [] == trace;
    }
    o := Outcome(trace, sub, stopped);
  }

  // ---------------------------------------------------------------------
  // Redelivery

  /** The calls for a message that the broker redelivers after each Nak,
      with its delivery count one higher each time, for at most `fuel`
      further deliveries. */
  function Redelivered(h: HandlerFunc, workerId: nat, m: Msg, fuel: nat): seq<Action>
    decreases fuel
  {
    var calls := DispatchMsg(Some(h), workerId, m);
    if fuel == 0 || h(workerId, m) != HandleResultNak then calls
    else calls + Redelivered(h, workerId, m.(numDelivered := m.numDelivered + 1), fuel - 1)
  }

  /** A handler that Naks the first two deliveries and Acks the third is
      called exactly three times, and the message ends Acked. */
  lemma NakTwiceThenAck(workerId: nat, m: Msg, fuel: nat)
    requires m.numDelivered == 1 && fuel >= 2
    ensures var h := (id: nat, msg: Msg) => if msg.numDelivered < 3 then HandleResultNak else HandleResultAck;
            var m2 := m.(numDelivered := 2);
            var m3 := m.(numDelivered := 3);
            Redelivered(h, workerId, m, fuel) ==
              [Invoke(m), Acknowledge(m, Nak), Invoke(m2), Acknowledge(m2, Nak), Invoke(m3), Acknowledge(m3, Ack)]
  {
    var h := (id: nat, msg: Msg) => if msg.numDelivered < 3 then HandleResultNak else HandleResultAck;
    var m2 := m.(numDelivered := 2);
    var m3 := m.(numDelivered := 3);
    assert Redelivered(h, workerId, m3, fuel - 2) == [Invoke(m3), Acknowledge(m3, Ack)];
    assert Redelivered(h, workerId, m2, fuel - 1) == [Invoke(m2), Acknowledge(m2, Nak)] + Redelivered(h, workerId, m3, fuel - 2);
  }

  // ---------------------------------------------------------------------
  // The supervisor

  datatype SupervisorEvent = Spawn(id: nat) | Join(id: nat) | Drain

  datatype SetupError = ConnectFailed | JetStreamFailed

  /** Run returns (with an error or nil), or is still blocked in wg.Wait
      because some worker has not seen cancellation yet. */
  datatype RunResult = Returned(err: Option<SetupError>) | Blocked

  /** `for i := range c.cfg.Concurrency` runs no iteration for n <= 0. */
  function WorkerCount(concurrency: int): nat
  {
    if concurrency > 0 then concurrency else 0
  }

  function Spawns(n: nat): (s: seq<SupervisorEvent>)
    ensures |s| == n && forall id: nat :: Spawn(id) in s <==> id < n
  {
    var s := seq(n, i requires 0 <= i < n => Spawn(i));
    assert forall id: nat :: id < n ==> s[id] == Spawn(id);
    s
  }

  function Joins(n: nat): (s: seq<SupervisorEvent>)
    ensures |s| == n && forall id: nat :: Join(id) in s <==> id < n
  {
    var s := seq(n, i requires 0 <= i < n => Join(i));
    assert forall id: nat :: id < n ==> s[id] == Join(id);
    s
  }

  /** The oracle of worker `id` (no rounds if none is given). */
  function RoundsFor(workerRounds: seq<seq<Round>>, id: nat): seq<Round>
  {
    if id < |workerRounds| then workerRounds[id] else []
  }

  /** Run: connect, then the JetStream step, then spawn the workers and wait
      for all of them; the connection is drained (by the deferred call) on
      every return after a successful connect, and only after every worker
      has been joined. */
  method Run(concurrency: int, connectOk: bool, jetStreamOk: bool,
             workerRounds: seq<seq<Round>>, handler: Option<HandlerFunc>)
    returns (result: RunResult, log: seq<SupervisorEvent>, workers: seq<Outcome>)
    ensures !connectOk ==> result == Returned(Some(ConnectFailed)) && log == [] && workers == []
    ensures connectOk && !jetStreamOk ==> result == Returned(Some(JetStreamFailed)) && log == [Drain] && workers == []
    ensures connectOk && jetStreamOk ==>
              && |workers| == WorkerCount(concurrency)
              && (forall id :: 0 <= id < |workers| ==>
                    workers[id] == Loop(false, RoundsFor(workerRounds, id), Dispatch(handler, id)))
              && (result == Returned(None) <==> forall id :: 0 <= id < |workers| ==> workers[id].stopped)
              && (result == Returned(None) ==> log == Spawns(|workers|) + Joins(|workers|) + [Drain])
              && (result == Blocked ==> log == Spawns(|workers|))
    ensures result.Returned? || (connectOk && jetStreamOk && result == Blocked)
  {
    if !connectOk {
      return Returned(Some(ConnectFailed)), [], [];
    }
    if !jetStreamOk {
      return Returned(Some(JetStreamFailed)), [Drain], [];
    }
    var n := WorkerCount(concurrency);
    log, workers := [], [];
    for i := 0 to n
      invariant log == Spawns(i)
      invariant |workers| == i
      invariant forall id :: 0 <= id < i ==>
                  workers[id] == Loop(false, RoundsFor(workerRounds, id), Dispatch(handler, id))
    {
      log := log + [Spawn(i)];
      var o := ConsumerWorker(i, RoundsFor(workerRounds, i), handler);
      workers := workers + [o];
    }
    // wg.Wait(): returns once every worker has left its loop
    var allDone := true;
    for k := 0 to n
      invariant allDone <==> forall id :: 0 <= id < k ==> workers[id].stopped
    {
      if !workers[k].stopped {
        allDone := false;
      }
    }
    if !allDone {
      return Blocked, log, workers;
    }
    for k := 0 to n
      invariant log == Spawns(n) + Joins(k)
    {
      log := log + [Join(k)];
    }
    log := log + [Drain];
    result := Returned(None);
  }
}
