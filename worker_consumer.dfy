/** The consumer engine of bot_worker: a `Consumer` object whose Start,
    SetHandler and Close update its connection, wait group and handler, and
    a worker loop whose handler returns nothing (the handler acknowledges
    the message itself) and whose panics are recovered and turned into Nak. */
module WorkerConsumer {
  import opened Wrappers
  import opened Nats
  import opened PullLoop
  import ConsumerConfig

  // ---------------------------------------------------------------------
  // Dispatch of one message

  /** How a handler invocation ends: it returns, or it panics, having made
      `calls` on the message itself before that. */
  datatype HandlerOutcome =
    | Returned(calls: seq<AckKind>)
    | Panicked(calls: seq<AckKind>)

  /** The handler gets the worker id in its Context. */
  type HandlerFunc = (nat, Msg) -> HandlerOutcome

  function OwnCalls(m: Msg, kinds: seq<AckKind>): (calls: seq<Action>)
    ensures |calls| == |kinds| && forall i :: 0 <= i < |kinds| ==> calls[i] == Acknowledge(m, kinds[i])
  {
    seq(|kinds|, i requires 0 <= i < |kinds| => Acknowledge(m, kinds[i]))
  }

  /** The calls made for one fetched message: Nak when no handler is set;
      otherwise the handler's own calls, followed by the Nak of the
      deferred recover if it panicked. */
  function DispatchMsg(handler: Option<HandlerFunc>, workerId: nat, m: Msg): (calls: seq<Action>)
    ensures forall a :: a in calls ==> a == Invoke(m) || (a.Acknowledge? && a.msg == m)
    ensures calls != [] && (handler.Some? <==> calls[0] == Invoke(m))
    ensures handler.None? || handler.value(workerId, m).Panicked? ==> calls[|calls| - 1] == Acknowledge(m, Nak)
  {
    match handler
    case None => [Acknowledge(m, Nak)]
    case Some(h) =>
      var out := h(workerId, m);
      [Invoke(m)] + OwnCalls(m, out.calls) + (if out.Panicked? then [Acknowledge(m, Nak)] else [])
  }

  function Dispatch(handler: Option<HandlerFunc>, workerId: nat): Msg -> seq<Action>
  {
    m => DispatchMsg(handler, workerId, m)
  }

  /** With no handler set (before SetHandler, or after SetHandler(nil)) a
      fetched message gets one Nak and the handler is not called. */
  lemma NilHandlerNaks(workerId: nat, m: Msg)
    ensures DispatchMsg(None, workerId, m) == [Acknowledge(m, Nak)]
  {
  }

  /** A panicking handler's message is Nak'd by the engine after whatever
      the handler did; a handler that returns gets no call from the engine. */
  lemma PanicBecomesNak(h: HandlerFunc, workerId: nat, m: Msg)
    ensures var calls := DispatchMsg(Some(h), workerId, m);
            var out := h(workerId, m);
            && calls[0] == Invoke(m)
            && (out.Panicked? ==> |calls| == |out.calls| + 2 && calls[|calls| - 1] == Acknowledge(m, Nak)
                                  && calls[1..|calls| - 1] == OwnCalls(m, out.calls))
            && (out.Returned? ==> calls[1..] == OwnCalls(m, out.calls))
  {
  }

  /** A panic never ends the worker: whatever the handler does, the worker
      leaves its loop only on cancellation. */
  lemma PanicsDoNotStopWorker(h: HandlerFunc, workerId: nat, rounds: seq<Round>)
    ensures Loop(false, rounds, Dispatch(Some(h), workerId)).stopped <==>
            exists i :: 0 <= i < |rounds| && rounds[i].cancelled
  {
    StopsOnlyWhenCancelled(false, rounds, Dispatch(Some(h), workerId));
  }

  // ---------------------------------------------------------------------
  // Supervisor lifecycle

  datatype Conn = Conn(url: string)

  /** The wait group, with the ids of the workers added to it. */
  datatype WaitGroup = WaitGroup(workers: seq<nat>)

  /** What the supervisor does to the connection and the workers. */
  datatype Event = Connect | Spawn(id: nat) | Cancel | Join(id: nat) | Drain | CloseConn

  datatype StartError = ConnectFailed | JetStreamFailed

  /** Close returns normally (NotStarted: the no-op branch), or dies on the
      nil wait group. */
  datatype CloseOutcome = NotStarted | Closed | NilWaitGroupPanic

  datatype State = State(nc: Option<Conn>, wg: Option<WaitGroup>, cancelled: bool, log: seq<Event>)

  const Initial := State(None, None, false, [])

  /** A started consumer has both its connection and its wait group. */
  ghost predicate Inv(s: State)
  {
    s.nc.Some? <==> s.wg.Some?
  }

  function WorkerCount(concurrency: int): nat
  {
    if concurrency > 0 then concurrency else 0
  }

  function Ids(n: nat): (ids: seq<nat>)
    ensures |ids| == n && forall i :: 0 <= i < n ==> ids[i] == i
  {
    seq(n, i requires 0 <= i < n => i)
  }

  function Spawns(ids: seq<nat>): (events: seq<Event>)
    ensures |events| == |ids| && forall i :: 0 <= i < |ids| ==> events[i] == Spawn(ids[i])
  {
    seq(|ids|, i requires 0 <= i < |ids| => Spawn(ids[i]))
  }

  function Joins(ids: seq<nat>): (events: seq<Event>)
    ensures |events| == |ids| && forall i :: 0 <= i < |ids| ==> events[i] == Join(ids[i])
  {
    seq(|ids|, i requires 0 <= i < |ids| => Join(ids[i]))
  }

  /** Start as written: the connection is stored before the JetStream step,
      which can still fail and leave the wait group unset. */
  function AfterStartAsWritten(s: State, cfg: ConsumerConfig.Value, connectOk: bool, jetStreamOk: bool): (r: (State, Option<StartError>))
    ensures s.nc.Some? ==> r == (s, None)
    ensures r.1.None? <==> s.nc.Some? || (connectOk && jetStreamOk)
    ensures s.nc.None? && connectOk ==> r.0.nc == Some(Conn(cfg.natsURL))
    ensures Inv(s) && r.1 == Some(JetStreamFailed) ==> r.0.nc.Some? && r.0.wg.None?
  {
    if s.nc.Some? then (s, None)
    else if !connectOk then (s, Some(ConnectFailed))
    else
      var s1 := s.(nc := Some(Conn(cfg.natsURL)), log := s.log + [Connect]);
      if !jetStreamOk then (s1, Some(JetStreamFailed))
      else
        var ids := Ids(WorkerCount(cfg.concurrency));
        (s1.(wg := Some(WaitGroup(ids)), log := s1.log + Spawns(ids)), None)
  }

  /** Start with the connection stored only once the JetStream step has
      succeeded; on that failure the fresh connection is closed again. */
  function AfterStart(s: State, cfg: ConsumerConfig.Value, connectOk: bool, jetStreamOk: bool): (r: (State, Option<StartError>))
    ensures s.nc.Some? ==> r == (s, None)
    ensures r.1.Some? ==> r.0.nc == s.nc && r.0.wg == s.wg && r.0.cancelled == s.cancelled
    ensures s.nc.None? && r.1.None? ==>
              && r.0.nc == Some(Conn(cfg.natsURL))
              && r.0.wg == Some(WaitGroup(Ids(WorkerCount(cfg.concurrency))))
              && r.0.log == s.log + [Connect] + Spawns(Ids(WorkerCount(cfg.concurrency)))
    ensures r.1.None? <==> s.nc.Some? || (connectOk && jetStreamOk)
    ensures Inv(s) ==> Inv(r.0)
  {
    if s.nc.Some? then (s, None)
    else if !connectOk then (s, Some(ConnectFailed))
    else if !jetStreamOk then (s.(log := s.log + [Connect, CloseConn]), Some(JetStreamFailed))
    else
      var ids := Ids(WorkerCount(cfg.concurrency));
      (s.(nc := Some(Conn(cfg.natsURL)), wg := Some(WaitGroup(ids)), log := s.log + [Connect] + Spawns(ids)), None)
  }

  /** Close: cancel, wait for every worker, drain (and force-close if the
      drain fails), then forget the connection and the wait group. */
  function AfterClose(s: State, drainOk: bool): (r: (State, CloseOutcome))
    ensures s.nc.None? ==> r == (s, NotStarted)
    ensures s.nc.Some? && s.wg.Some? ==>
              && r == (State(None, None, true, r.0.log), Closed)
              && r.0.log == s.log + [Cancel] + Joins(s.wg.value.workers) + [Drain] + (if drainOk then [] else [CloseConn])
    ensures Inv(s) ==> r.1 != NilWaitGroupPanic && Inv(r.0)
  {
    if s.nc.None? then (s, NotStarted)
    else
      var cancelled := s.(cancelled := true, log := s.log + [Cancel]);
      match s.wg
      case None => (cancelled, NilWaitGroupPanic)
      case Some(wg) =>
        var joined := cancelled.log + Joins(wg.workers) + [Drain] + (if drainOk then [] else [CloseConn]);
        (State(None, None, true, joined), Closed)
  }

  /** Close on a closed (or never started) consumer changes nothing. */
  lemma CloseTwiceIsNoOp(s: State, drainOk: bool, drainOk2: bool)
    requires Inv(s)
    ensures var s1 := AfterClose(s, drainOk).0;
            AfterClose(s1, drainOk2) == (s1, NotStarted)
  {
  }

  /** A started consumer's Start is a no-op that reports success and spawns
      nothing; a successful first Start spawns workers 0..Concurrency-1, in
      order, each once. */
  lemma StartSpawnsEachWorkerOnce(s: State, cfg: ConsumerConfig.Value, connectOk: bool, jetStreamOk: bool)
    requires s.nc.None? && connectOk && jetStreamOk
    ensures var s1 := AfterStart(s, cfg, connectOk, jetStreamOk).0;
            var n := WorkerCount(cfg.concurrency);
            && (forall id: nat :: Spawn(id) in s1.log[|s.log|..] <==> id < n)
            && AfterStart(s1, cfg, connectOk, jetStreamOk) == (s1, None)
  {
    var s1 := AfterStart(s, cfg, connectOk, jetStreamOk).0;
    var n := WorkerCount(cfg.concurrency);
    var added := s1.log[|s.log|..];
    assert added == [Connect] + Spawns(Ids(n));
    forall id: nat
      ensures Spawn(id) in added <==> id < n
    {
      if id < n {
        assert added[id + 1] == Spawn(id);
      }
    }
  }

  /** The defect of Start as written: when the JetStream step fails after a
      successful connect, the consumer holds a connection but no wait group;
      a later Close then dereferences the nil wait group, and a later Start
      reports success without spawning any worker. */
  lemma StartAsWrittenBreaksClose(cfg: ConsumerConfig.Value, drainOk: bool, connectOk: bool, jetStreamOk: bool)
    ensures var (s1, err) := AfterStartAsWritten(Initial, cfg, true, false);
            && err == Some(JetStreamFailed)
            && !Inv(s1)
            && AfterClose(s1, drainOk).1 == NilWaitGroupPanic
            && AfterStartAsWritten(s1, cfg, connectOk, jetStreamOk) == (s1, None)
            && (forall e :: e in s1.log ==> !e.Spawn?)
  {
  }

  /** The corrected Start never reaches that state: from the initial
      consumer, any sequence of Start and Close calls keeps the invariant,
      so Close never panics. */
  lemma {:induction false} CorrectedLifecycleNeverPanics(ops: seq<(bool, bool, bool)>, cfg: ConsumerConfig.Value, s: State)
    requires Inv(s)
    ensures Inv(Replay(s, ops, cfg)) && AfterClose(Replay(s, ops, cfg), true).1 != NilWaitGroupPanic
    decreases |ops|
  {
    if ops != [] {
      var (isStart, a, b) := ops[0];
      var s1 := if isStart then AfterStart(s, cfg, a, b).0 else AfterClose(s, a).0;
      CorrectedLifecycleNeverPanics(ops[1..], cfg, s1);
    }
  }

  /** A sequence of calls: (true, connectOk, jetStreamOk) is a Start,
      (false, drainOk, _) a Close. */
  function Replay(s: State, ops: seq<(bool, bool, bool)>, cfg: ConsumerConfig.Value): State
    decreases |ops|
  {
    if ops == [] then s
    else
      var (isStart, a, b) := ops[0];
      Replay(if isStart then AfterStart(s, cfg, a, b).0 else AfterClose(s, a).0, ops[1..], cfg)
  }

  // ---------------------------------------------------------------------
  // The Consumer object

  class Consumer {
    const cfg: ConsumerConfig.Value
    var handler: Option<HandlerFunc>
    var nc: Option<Conn>
    var wg: Option<WaitGroup>
    var cancelled: bool
    var log: seq<Event>

    function Snapshot(): State
      reads this
    {
      State(nc, wg, cancelled, log)
    }

    ghost predicate Valid()
      reads this
    {
      Inv(Snapshot())
    }

    /** NewConsumer: nothing started, no handler. */
    constructor (cfg: ConsumerConfig.Value)
      ensures Valid() && Snapshot() == Initial && handler.None? && this.cfg == cfg
    {
      this.cfg := cfg;
      handler, nc, wg, cancelled, log := None, None, None, false, [];
    }

    method Start(connectOk: bool, jetStreamOk: bool) returns (err: Option<StartError>)
      requires Valid()
      modifies this
      ensures Valid() && handler == old(handler)
      ensures (Snapshot(), err) == AfterStart(old(Snapshot()), cfg, connectOk, jetStreamOk)
    {
      if nc.Some? {
        return None;
      }
      if !connectOk {
        return Some(ConnectFailed);
      }
      if !jetStreamOk {
        log := log + [Connect, CloseConn];
        return Some(JetStreamFailed);
      }
      log := log + [Connect];
      var n := WorkerCount(cfg.concurrency);
      var ids: seq<nat> := [];
      ghost var log0 := log;
      for i := 0 to n
        invariant ids == Ids(i)
        invariant log == log0 + Spawns(ids)
        invariant handler == old(handler) && nc == old(nc) && wg == old(wg) && cancelled == old(cancelled)
      {
        ids := ids + [i];
        log := log + [Spawn(i)];
      }
      nc := Some(Conn(cfg.natsURL));
      wg := Some(WaitGroup(ids));
      return None;
    }

    method SetHandler(h: Option<HandlerFunc>)
      modifies this`handler
      ensures handler == h
    {
      handler := h;
    }

    method Close(drainOk: bool) returns (outcome: CloseOutcome)
      requires Valid()
      modifies this
      ensures Valid() && handler == old(handler)
      ensures (Snapshot(), outcome) == AfterClose(old(Snapshot()), drainOk)
      ensures outcome != NilWaitGroupPanic
    {
      if nc.None? {
        return NotStarted;
      }
      cancelled := true;
      log := log + [Cancel];
      var workers := wg.value.workers;
      ghost var log0 := log;
      for k := 0 to |workers|
        invariant log == log0 + Joins(workers[..k])
        invariant handler == old(handler) && nc == old(nc) && wg == old(wg) && cancelled
      {
        log := log + [Join(workers[k])];
        assert workers[..k + 1] == workers[..k] + [workers[k]];
      }
      assert workers[..|workers|] == workers;
      var tail := if drainOk then [Drain] else [Drain, CloseConn];
      log := log + tail;
      assert tail == [Drain] + (if drainOk then [] else [CloseConn]);
      ghost var expected := AfterClose(old(Snapshot()), drainOk);
      assert expected.0.log == old(log) + [Cancel] + Joins(workers) + [Drain] + (if drainOk then [] else [CloseConn]);
      assert log == old(log) + [Cancel] + Joins(workers) + [Drain] + (if drainOk then [] else [CloseConn]);
      nc, wg := None, None;
      assert Snapshot() == expected.0;
      return Closed;
    }

    /** The body of the per-message loop: Nak without a handler; otherwise
        call it, and Nak if it panicked. */
    method HandleOne(workerId: nat, m: Msg) returns (calls: seq<Action>)
      ensures calls == DispatchMsg(handler, workerId, m)
    {
      if handler.None? {
        return [Acknowledge(m, Nak)];
      }
      calls := [Invoke(m)];
      var out := handler.value(workerId, m);
      for c := 0 to |out.calls|
        invariant calls == [Invoke(m)] + OwnCalls(m, out.calls[..c])
      {
        calls := calls + [Acknowledge(m, out.calls[c])];
      }
      assert out.calls[..|out.calls|] == out.calls;
      if out.Panicked? {
        calls := calls + [Acknowledge(m, Nak)];
      }
    }

    /** The `for _, msg := range msgs` loop of consumerWorker, reading the
        handler field for every message. */
    method HandleBatch(workerId: nat, msgs: seq<Msg>) returns (calls: seq<Action>)
      ensures calls == DispatchAll(msgs, Dispatch(handler, workerId))
    {
      calls := [];
      for j := 0 to |msgs|
        invariant calls == DispatchAll(msgs[..j], Dispatch(handler, workerId))
      {
        var one := HandleOne(workerId, msgs[j]);
        assert msgs[..j + 1][..j] == msgs[..j];
        calls := calls + one;
      }
      assert msgs[..|msgs|] == msgs;
    }

    /** One pass of consumerWorker's `for` loop, from subscription state `sub`. */
    method Iteration(workerId: nat, sub: bool, r: Round) returns (s: StepResult)
      ensures s == Step(sub, r, Dispatch(handler, workerId))
    {
      if r.cancelled {
        return StepResult(false, if sub then [Unsubscribe] else [], true);
      }
      var held := sub;
      var calls: seq<Action> := [];
      if held && !r.stillValid {
        held := false;
      }
      if !held {
        if !r.subscribeOk {
          return StepResult(false, [Subscribe, Sleep2s], false);
        }
        calls := calls + [Subscribe];
        held := true;
      }
      calls := calls + [Fetch];
      match r.fetch {
        case FetchFailed(err) =>
          if !Is(err, ErrTimeout) && IsConnectionError(err) {
            held := false;
          }
        case Fetched(msgs) =>
          var handled := HandleBatch(workerId, msgs);
          calls := calls + handled;
      }
      s := StepResult(held, calls, false);
    }

    /** consumerWorker: loops over the rounds until one is cancelled or the
        oracle runs out, starting with no subscription. */
    method ConsumerWorker(workerId: nat, rounds: seq<Round>) returns (o: Outcome)
      ensures o == Loop(false, rounds, Dispatch(handler, workerId))
    {
      ghost var d := Dispatch(handler, workerId);
      var sub := false;
      var trace: seq<Action> := [];
      var stopped := false;
      var i := 0;
      while i < |rounds| && !stopped
        invariant 0 <= i <= |rounds|
        invariant stopped ==> !sub && Loop(false, rounds, d) == Outcome(trace, false, true)
        invariant !stopped ==> Loop(false, rounds, d) == After(trace, Loop(sub, rounds[i..], d))
      {
        var s := Iteration(workerId, sub, rounds[i]);
        LoopAt(sub, rounds, i, d);
        trace, sub, stopped := trace + s.actions, s.subscribed, s.stopped;
        i := i + 1;
      }
      if !stopped {
        assert rounds[i..] == [];
        assert trace + [] == trace;
      }
      o := Outcome(trace, sub, stopped);
    }
  }
}
