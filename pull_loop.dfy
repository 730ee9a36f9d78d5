/** The per-worker pull loop shared by both consumer engines, as a state
    machine over an oracle.  Each loop iteration consumes one `Round`: the
    answers the outside world gives to the questions that iteration may ask
    (is the context cancelled, is the held subscription still valid, does a
    new subscribe succeed, what does the fetch return).  An iteration only
    consults the answers it reaches.  The engines differ only in how a
    fetched message is dispatched, which is a parameter here. */
module PullLoop {
  import opened Nats

  datatype FetchOutcome =
    | FetchFailed(err: NatsError)
    | Fetched(msgs: seq<Msg>)

  datatype Round = Round(cancelled: bool, stillValid: bool, subscribeOk: bool, fetch: FetchOutcome)

  /** The effect of one iteration: the subscription held afterwards, the
      calls made, and whether the worker left its loop. */
  datatype StepResult = StepResult(subscribed: bool, actions: seq<Action>, stopped: bool)

  /** The effect of a whole run: the calls made, the subscription held at the
      end, and whether the worker has left its loop (if not, it is still
      running when the oracle runs out). */
  datatype Outcome = Outcome(trace: seq<Action>, subscribed: bool, stopped: bool)

  /** The calls made for each fetched message, in order. */
  function DispatchAll(msgs: seq<Msg>, dispatch: Msg -> seq<Action>): seq<Action>
  {
    if msgs == [] then []
    else DispatchAll(msgs[..|msgs| - 1], dispatch) + dispatch(msgs[|msgs| - 1])
  }

  /** One pass of the `for` loop of consumerWorker. */
  function Step(subscribed: bool, r: Round, dispatch: Msg -> seq<Action>): (s: StepResult)
    ensures s.stopped <==> r.cancelled
    ensures s.stopped ==> !s.subscribed
    ensures s.subscribed ==> (subscribed && r.stillValid) || r.subscribeOk
    ensures !r.cancelled ==> s.actions != [] && (s.actions[0] == Fetch <==> subscribed && r.stillValid)
  {
    if r.cancelled then
      StepResult(false, if subscribed then [Unsubscribe] else [], true)
    else
      var kept := subscribed && r.stillValid;
      if !kept && !r.subscribeOk then
        StepResult(false, [Subscribe, Sleep2s], false)
      else
        var calls := (if kept then [] else [Subscribe]) + [Fetch];
        match r.fetch
        case FetchFailed(err) =>
          if Is(err, ErrTimeout) then StepResult(true, calls, false)
          else StepResult(!IsConnectionError(err), calls, false)
        case Fetched(msgs) =>
          StepResult(true, calls + DispatchAll(msgs, dispatch), false)
  }

  /** The loop run over successive rounds, starting with `subscribed`. */
  function Loop(subscribed: bool, rounds: seq<Round>, dispatch: Msg -> seq<Action>): (o: Outcome)
    ensures o.stopped ==> rounds != [] && !o.subscribed
    ensures !o.stopped ==> |o.trace| >= |rounds|
    decreases |rounds|
  {
    if rounds == [] then Outcome([], subscribed, false)
    else
      var s := Step(subscribed, rounds[0], dispatch);
      if s.stopped then Outcome(s.actions, s.subscribed, true)
      else
        var rest := Loop(s.subscribed, rounds[1..], dispatch);
        Outcome(s.actions + rest.trace, rest.subscribed, rest.stopped)
  }

  /** `o` with `calls` made before it. */
  function After(calls: seq<Action>, o: Outcome): Outcome
  {
    Outcome(calls + o.trace, o.subscribed, o.stopped)
  }

  /** A loop action: one the loop makes by itself, not on behalf of a message. */
  predicate LoopAction(a: Action)
  {
    a == Subscribe || a == Sleep2s || a == Fetch || a == Unsubscribe
  }

  // ---------------------------------------------------------------------
  // One iteration

  /** Cancellation is checked first; on exit the worker unsubscribes if and
      only if it holds a subscription, and makes no other call. */
  lemma CancelledStepExits(subscribed: bool, r: Round, dispatch: Msg -> seq<Action>)
    requires r.cancelled
    ensures Step(subscribed, r, dispatch).stopped
    ensures Step(subscribed, r, dispatch).actions == (if subscribed then [Unsubscribe] else [])
  {
  }

  /** A fetch that times out leaves the subscription held and makes no
      further call. */
  lemma TimeoutKeepsSubscription(subscribed: bool, r: Round, dispatch: Msg -> seq<Action>)
    requires !r.cancelled && ((subscribed && r.stillValid) || r.subscribeOk)
    requires r.fetch.FetchFailed? && Root(r.fetch.err) == ErrTimeout
    ensures var s := Step(subscribed, r, dispatch);
            s.subscribed && !s.stopped && s.actions[|s.actions| - 1] == Fetch
  {
    IsSentinel(r.fetch.err, ErrTimeout);
  }

  /** Any other fetch error clears the subscription exactly when it is
      connection-class; the worker keeps looping either way. */
  lemma FetchErrorClearsIffConnectionClass(subscribed: bool, r: Round, dispatch: Msg -> seq<Action>)
    requires !r.cancelled && ((subscribed && r.stillValid) || r.subscribeOk)
    requires r.fetch.FetchFailed? && Root(r.fetch.err) != ErrTimeout
    ensures var s := Step(subscribed, r, dispatch);
            !s.stopped && s.actions[|s.actions| - 1] == Fetch &&
            (s.subscribed <==> !(Root(r.fetch.err) in {ErrConnectionClosed, ErrNoResponders, ErrBadSubscription}))
  {
    IsSentinel(r.fetch.err, ErrTimeout);
  }

  /** A subscription found invalid is never fetched from: a subscribe comes
      first, and if it fails the worker backs off for 2 s and loops. */
  lemma InvalidSubscriptionReplaced(r: Round, dispatch: Msg -> seq<Action>)
    requires !r.cancelled && !r.stillValid
    ensures var s := Step(true, r, dispatch);
            !s.stopped && s.actions[0] == Subscribe &&
            (r.subscribeOk ==> s.actions[1] == Fetch) &&
            (!r.subscribeOk ==> s.actions == [Subscribe, Sleep2s] && !s.subscribed)
  {
  }

  // ---------------------------------------------------------------------
  // Whole runs

  /** Unfolding of Loop after a step that does not stop. */
  lemma LoopUnfold(subscribed: bool, rounds: seq<Round>, dispatch: Msg -> seq<Action>)
    requires rounds != [] && !Step(subscribed, rounds[0], dispatch).stopped
    ensures var s := Step(subscribed, rounds[0], dispatch);
            Loop(subscribed, rounds, dispatch) == After(s.actions, Loop(s.subscribed, rounds[1..], dispatch))
  {
  }

  /** Unfolding of Loop at a step that stops. */
  lemma LoopStopsAt(subscribed: bool, rounds: seq<Round>, dispatch: Msg -> seq<Action>)
    requires rounds != [] && Step(subscribed, rounds[0], dispatch).stopped
    ensures Loop(subscribed, rounds, dispatch) == Outcome(Step(subscribed, rounds[0], dispatch).actions, false, true)
  {
  }

  /** Loop over the rounds from index `i` on, unfolded by one step. */
  lemma LoopAt(subscribed: bool, rounds: seq<Round>, i: nat, dispatch: Msg -> seq<Action>)
    requires i < |rounds|
    ensures var s := Step(subscribed, rounds[i], dispatch);
            && (s.stopped ==> Loop(subscribed, rounds[i..], dispatch) == Outcome(s.actions, false, true))
            && (!s.stopped ==> Loop(subscribed, rounds[i..], dispatch) ==
                                 After(s.actions, Loop(s.subscribed, rounds[i + 1..], dispatch)))
  {
    var rest := rounds[i..];
    assert rest[0] == rounds[i] && rest[1..] == rounds[i + 1..];
    if Step(subscribed, rounds[i], dispatch).stopped {
      LoopStopsAt(subscribed, rest, dispatch);
    } else {
      LoopUnfold(subscribed, rest, dispatch);
    }
  }

  /** A worker leaves its loop only when it observes cancellation: it has
      stopped exactly when some round it reached was cancelled. */
  lemma {:induction false} StopsOnlyWhenCancelled(subscribed: bool, rounds: seq<Round>, dispatch: Msg -> seq<Action>)
    ensures Loop(subscribed, rounds, dispatch).stopped <==> exists i :: 0 <= i < |rounds| && rounds[i].cancelled
    decreases |rounds|
  {
    if rounds != [] {
      var s := Step(subscribed, rounds[0], dispatch);
      if !s.stopped {
        StopsOnlyWhenCancelled(s.subscribed, rounds[1..], dispatch);
        if exists i :: 0 <= i < |rounds| && rounds[i].cancelled {
          var i :| 0 <= i < |rounds| && rounds[i].cancelled;
          assert i > 0 && rounds[1..][i - 1].cancelled;
        }
        if exists i :: 0 <= i < |rounds[1..]| && rounds[1..][i].cancelled {
          var i :| 0 <= i < |rounds[1..]| && rounds[1..][i].cancelled;
          assert rounds[i + 1].cancelled;
        }
      }
    }
  }

  /** Unsubscribe occurs in `o` only as the last call of a stopped run. */
  predicate UnsubscribeLast(o: Outcome)
  {
    forall k :: 0 <= k < |o.trace| && o.trace[k] == Unsubscribe ==> o.stopped && k == |o.trace| - 1
  }

  /** Unsubscribe happens at most once, as the very last call of a worker
      that has stopped; a subscription discarded as invalid or after a
      connection error is dropped without one. */

  lemma {:induction false} UnsubscribeOnlyOnExit(subscribed: bool, rounds: seq<Round>, dispatch: Msg -> seq<Action>)
    requires forall m, a :: a in dispatch(m) ==> a != Unsubscribe
    ensures UnsubscribeLast(Loop(subscribed, rounds, dispatch))
    decreases |rounds|
  {
    if rounds != [] {
      var s := Step(subscribed, rounds[0], dispatch);
      if !s.stopped {
        UnsubscribeOnlyOnExit(s.subscribed, rounds[1..], dispatch);
        if rounds[0].fetch.Fetched? {
          NoUnsubscribeInDispatch(rounds[0].fetch.msgs, dispatch);
        }
        assert Unsubscribe !in s.actions;
        var rest := Loop(s.subscribed, rounds[1..], dispatch);
        var o := Loop(subscribed, rounds, dispatch);
        assert UnsubscribeLast(rest);
        assert o.trace == s.actions + rest.trace;
        forall k | 0 <= k < |o.trace| && o.trace[k] == Unsubscribe
          ensures o.stopped && k == |o.trace| - 1
        {
          assert k >= |s.actions|;
          assert rest.trace[k - |s.actions|] == Unsubscribe;
        }
      }
    }
  }

  lemma {:induction false} NoUnsubscribeInDispatch(msgs: seq<Msg>, dispatch: Msg -> seq<Action>)
    requires forall m, a :: a in dispatch(m) ==> a != Unsubscribe
    ensures Unsubscribe !in DispatchAll(msgs, dispatch)
    decreases |msgs|
  {
    if msgs != [] {
      NoUnsubscribeInDispatch(msgs[..|msgs| - 1], dispatch);
    }
  }

  /** Every call in a run is a loop action or one that `dispatch` makes for
      some message; so a property every dispatched call has, and every loop
      action has, holds of the whole trace. */
  lemma {:induction false} TraceFromDispatch(subscribed: bool, rounds: seq<Round>, dispatch: Msg -> seq<Action>, ok: Action -> bool)
    requires forall a :: LoopAction(a) ==> ok(a)
    requires forall m, a :: a in dispatch(m) ==> ok(a)
    ensures forall a :: a in Loop(subscribed, rounds, dispatch).trace ==> ok(a)
    decreases |rounds|
  {
    if rounds != [] {
      var s := Step(subscribed, rounds[0], dispatch);
      if rounds[0].fetch.Fetched? {
        DispatchAllFrom(rounds[0].fetch.msgs, dispatch, ok);
      }
      if !s.stopped {
        TraceFromDispatch(s.subscribed, rounds[1..], dispatch, ok);
      }
    }
  }

  lemma {:induction false} DispatchAllFrom(msgs: seq<Msg>, dispatch: Msg -> seq<Action>, ok: Action -> bool)
    requires forall m, a :: a in dispatch(m) ==> ok(a)
    ensures forall a :: a in DispatchAll(msgs, dispatch) ==> ok(a)
    decreases |msgs|
  {
    if msgs != [] {
      DispatchAllFrom(msgs[..|msgs| - 1], dispatch, ok);
    }
  }

  /** The back-off has no retry cap: while not cancelled and every subscribe
      fails, each iteration is one attempt and one 2 s sleep, forever. */
  lemma {:induction false} SubscribeRetriesWithoutCap(rounds: seq<Round>, dispatch: Msg -> seq<Action>)
    requires forall i :: 0 <= i < |rounds| ==> !rounds[i].cancelled && !rounds[i].subscribeOk
    ensures var o := Loop(false, rounds, dispatch);
            !o.stopped && !o.subscribed && |o.trace| == 2 * |rounds| &&
            forall k :: 0 <= k < |rounds| ==> o.trace[2 * k] == Subscribe && o.trace[2 * k + 1] == Sleep2s
    decreases |rounds|
  {
    if rounds != [] {
      assert forall i :: 0 <= i < |rounds[1..]| ==> rounds[1..][i] == rounds[i + 1];
      SubscribeRetriesWithoutCap(rounds[1..], dispatch);
      var rest := Loop(false, rounds[1..], dispatch);
      var o := Loop(false, rounds, dispatch);
      assert o.trace == [Subscribe, Sleep2s] + rest.trace;
      forall k | 0 <= k < |rounds|
        ensures o.trace[2 * k] == Subscribe && o.trace[2 * k + 1] == Sleep2s
      {
        if k > 0 {
          assert o.trace[2 * k] == rest.trace[2 * (k - 1)];
          assert o.trace[2 * k + 1] == rest.trace[2 * (k - 1) + 1];
        }
      }
    }
  }
}
