/** The wxauto runner of bot_worker: its reply handler, which gives up with
    Term when the agent fails, its construction, and its Close. */
module WorkerReply {
  import opened Wrappers
  import opened Nats
  import opened Text
  import opened WxAuto
  import RunnerConsumer
  import RunnerReply
  import ConsumerConfig
  import WorkerConsumer
  import WorkerLogger
  import LogDefaults

  /** The agent answers an accepted message. */
  predicate Answered(env: Env, data: seq<byte>)
  {
    Accepted(env, data) && env.ask(Question(env, data)).Success?
  }

  /** handleMessage of bot_worker. */
  function HandleMessage(env: Env, data: seq<byte>): (h: Handled)
    ensures h.sent.Some? <==> Answered(env, data)
    ensures h.result == RunnerConsumer.HandleResultTerm <==> !Answered(env, data) && !FilteredOut(env, data)
    ensures h.result == RunnerConsumer.HandleResultAck <==>
              FilteredOut(env, data) || (h.sent.Some? && env.publish(h.sent.value).None?)
    ensures h.result == RunnerConsumer.HandleResultNak <==> h.sent.Some? && env.publish(h.sent.value).Some?
    ensures h.sent.Some? ==>
              Addresses(h.sent.value, env.decode(data).value) && h.sent.value.content == env.ask(Question(env, data)).value
  {
    match env.decode(data)
    case Failure(_) => Handled(RunnerConsumer.HandleResultTerm, None)
    case Success(msg) =>
      if msg.attr != MessageAttrFriend then Handled(RunnerConsumer.HandleResultTerm, None)
      else
        match env.filter(msg)
        case FilterFailed(_) => Handled(RunnerConsumer.HandleResultTerm, None)
        case FilterNil => Handled(RunnerConsumer.HandleResultAck, None)
        case FilterBool(pass) =>
          if !pass then Handled(RunnerConsumer.HandleResultAck, None)
          else
            match env.render(msg)
            case Failure(_) => Handled(RunnerConsumer.HandleResultTerm, None)
            case Success(question) =>
              match env.ask(question)
              case Failure(_) => Handled(RunnerConsumer.HandleResultTerm, None)
              case Success(answer) =>
                var reply := ReplyTo(msg, answer);
                if env.publish(reply).Some? then Handled(RunnerConsumer.HandleResultNak, Some(reply))
                else Handled(RunnerConsumer.HandleResultAck, Some(reply))
  }

  /** The two handlers agree on every message except one the agent fails
      on: bot_worker drops it with Term, bot_runner_go still replies. */
  lemma VersionsDifferOnlyOnAgentFailure(env: Env, data: seq<byte>)
    ensures !(Accepted(env, data) && env.ask(Question(env, data)).Failure?) ==>
              HandleMessage(env, data) == RunnerReply.HandleMessage(env, data)
    ensures Accepted(env, data) && env.ask(Question(env, data)).Failure? ==>
              && HandleMessage(env, data) == Handled(RunnerConsumer.HandleResultTerm, None)
              && RunnerReply.HandleMessage(env, data).sent.Some?
  {
  }

  // ---------------------------------------------------------------------
  // The runner object

  const AlreadyClosed := "already closed"

  /** Close returns nil, or panics with the logger's close error. */
  datatype CloseOutcome = Returned | Panicked(err: string)

  class WxAutoRunner {
    var consumer: Option<WorkerConsumer.Consumer>
    var logger: Option<WorkerLogger.Logger>
    const template: string
    const filter: string

    ghost predicate Valid()
      reads this, if consumer.Some? then {consumer.value} else {}
    {
      consumer.Some? ==> consumer.value.Valid()
    }

    constructor (consumer: WorkerConsumer.Consumer, logger: WorkerLogger.Logger, template: string, filter: string)
      requires consumer.Valid()
      ensures Valid() && this.consumer == Some(consumer) && this.logger == Some(logger)
      ensures this.template == template && this.filter == filter
    {
      this.consumer, this.logger := Some(consumer), Some(logger);
      this.template, this.filter := template, filter;
    }

    /** Close the consumer, then the logger, dropping each. `drainOk` is the
        consumer's drain outcome, `hookErr` what closing the logger's hook
        gives. A logger error is tolerated when its text says the logger was
        already closed; any other one is a panic that leaves the logger set. */
    method Close(drainOk: bool, hookErr: Option<string>) returns (outcome: CloseOutcome)
      requires Valid()
      modifies this, if consumer.Some? then {consumer.value} else {}, if logger.Some? then {logger.value} else {}
      ensures Valid() && consumer.None?
      ensures old(consumer).Some? ==>
                old(consumer).value.Snapshot() == WorkerConsumer.AfterClose(old(consumer.value.Snapshot()), drainOk).0
      ensures old(logger).Some? && old(logger.value.hook).Some? && hookErr.None? ==> old(logger).value.hook.None?
      ensures old(logger).Some? && hookErr.Some? ==> old(logger).value.hook == old(logger.value.hook)
      ensures outcome.Panicked? <==>
                old(logger).Some? && old(logger.value.hook).Some? && hookErr.Some? &&
                !Contains(WorkerLogger.CloseErrorPrefix + hookErr.value, AlreadyClosed)
      ensures hookErr.Some? && Contains(hookErr.value, AlreadyClosed) ==> outcome == Returned
      ensures outcome == Returned ==> logger.None?
      ensures outcome.Panicked? ==> logger == old(logger)
    {
      if consumer.Some? {
        var _ := consumer.value.Close(drainOk);
        consumer := None;
      }
      if logger.Some? {
        var err := logger.value.Close(hookErr);
        if err.Some? {
          if hookErr.Some? && Contains(hookErr.value, AlreadyClosed) {
            ContainsAfterPrefix(WorkerLogger.CloseErrorPrefix, hookErr.value, AlreadyClosed);
          }
          if !Contains(err.value, AlreadyClosed) {
            return Panicked(err.value);
          }
        }
        logger := None;
      }
      return Returned;
    }
  }

  /** NewWxAutoRunner: validates the logger configuration (which never
      fails) and the consumer configuration in place, then builds the
      logger, the producer, the consumer and the agent, parses the template
      and compiles the filter. The producer, agent, template and filter
      outcomes are inputs, each the error it fails with, if any. */
  method NewWxAutoRunner(loggerCfg: WorkerLogger.Config, consumerCfg: ConsumerConfig.Config,
                         template: string, filter: string,
                         parseLevel: string -> Option<string>, producerErr: Option<string>, agentErr: Option<string>,
                         parse: string -> Option<string>, compile: string -> Option<string>)
    returns (r: WxAutoRunner?, err: Option<string>)
    modifies loggerCfg, consumerCfg
    ensures loggerCfg.Settings() == LogDefaults.Defaulted(old(loggerCfg.Settings()))
    ensures loggerCfg.logFile == old(loggerCfg.logFile)
    ensures loggerCfg.compress == old(loggerCfg.compress) && loggerCfg.localTime == old(loggerCfg.localTime)
    ensures consumerCfg.Fields() == ConsumerConfig.Validated(old(consumerCfg.Fields())).0
    ensures r != null <==> err.None?
    ensures ConsumerConfig.Validated(old(consumerCfg.Fields())).1.Some? ==>
              err == ConsumerConfig.Validated(old(consumerCfg.Fields())).1
    ensures err.None? <==>
              && ConsumerConfig.Validated(old(consumerCfg.Fields())).1.None?
              && parseLevel(loggerCfg.level).None? && producerErr.None? && agentErr.None?
              && parse(template).None? && compile(filter).None?
    ensures r != null ==>
              && fresh(r) && r.Valid() && r.consumer.Some? && r.logger.Some?
              && r.consumer.value.Snapshot() == WorkerConsumer.Initial
              && r.consumer.value.cfg == consumerCfg.Fields()
  {
    // The logger configuration's Validate never fails.
    var _ := loggerCfg.Validate();
    var verr := consumerCfg.Validate();
    if verr.Some? {
      return null, verr;
    }
    var logger, lerr := WorkerLogger.NewLogger(loggerCfg, parseLevel);
    // NewLogger validates again, which changes nothing the second time.
    LogDefaults.DefaultedIdempotent(old(loggerCfg.Settings()));
    if lerr.Some? {
      return null, lerr;
    }
    if producerErr.Some? {
      return null, producerErr;
    }
    var consumer := new WorkerConsumer.Consumer(consumerCfg.Fields());
    if agentErr.Some? {
      return null, agentErr;
    }
    if parse(template).Some? {
      return null, parse(template);
    }
    if compile(filter).Some? {
      return null, compile(filter);
    }
    r := new WxAutoRunner(consumer, logger, template, filter);
    err := None;
  }
}
