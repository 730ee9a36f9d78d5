/** The wxauto reply handler of bot_runner_go: an early-return decision
    chain from a fetched payload to a HandleResult, which still replies when
    the agent fails, with a fixed fallback text. */
module RunnerReply {
  import opened Wrappers
  import opened Nats
  import opened Text
  import opened WxAuto
  import RunnerConsumer

  const ExceededMaxSteps := "exceeded max steps"
  const TooComplexApology := "抱歉，我无法处理这个请求，当前问题过于复杂"
  const AgentErrorPrefix := "破防，遇到了一些无法处理的错误: "

  /** The reply text for the agent's answer or error. */
  function Answer(asked: Result<string, string>): string
  {
    match asked
    case Success(answer) => answer
    case Failure(err) =>
      if Contains(err, ExceededMaxSteps) then TooComplexApology else AgentErrorPrefix + err
  }

  /** handleMessage of bot_runner_go. */
  function HandleMessage(env: Env, data: seq<byte>): (h: Handled)
    ensures h.sent.Some? <==> Accepted(env, data)
    ensures h.result == RunnerConsumer.HandleResultTerm <==> !Accepted(env, data) && !FilteredOut(env, data)
    ensures h.result == RunnerConsumer.HandleResultAck <==>
              FilteredOut(env, data) || (h.sent.Some? && env.publish(h.sent.value).None?)
    ensures h.result == RunnerConsumer.HandleResultNak <==> h.sent.Some? && env.publish(h.sent.value).Some?
    ensures h.sent.Some? ==> Addresses(h.sent.value, env.decode(data).value)
  {
    match env.decode(data)
    case Failure(_) => Handled(RunnerConsumer.HandleResultTerm, None)
    case Success(msg) =>
      if msg.attr != MessageAttrFriend then Handled(RunnerConsumer.HandleResultTerm, None)
      else
        match env.filter(msg)
        case FilterFailed(_) => Handled(RunnerConsumer.HandleResultTerm, None)
        case FilterNil => Handled(RunnerConsumer.HandleResultAck, None)
        case FilterBool(pass) =>
          if !pass then Handled(RunnerConsumer.HandleResultAck, None)
          else
            match env.render(msg)
            case Failure(_) => Handled(RunnerConsumer.HandleResultTerm, None)
            case Success(question) =>
              var reply := ReplyTo(msg, Answer(env.ask(question)));
              if env.publish(reply).Some? then Handled(RunnerConsumer.HandleResultNak, Some(reply))
              else Handled(RunnerConsumer.HandleResultAck, Some(reply))
  }

  /** An agent failure does not stop the reply: it is still published, with
      the apology when the agent ran out of steps and the error text behind
      a fixed prefix otherwise. */
  lemma AgentErrorStillReplies(env: Env, data: seq<byte>)
    requires Accepted(env, data) && env.ask(Question(env, data)).Failure?
    ensures var err := env.ask(Question(env, data)).error;
            var h := HandleMessage(env, data);
            && h.sent.Some?
            && (Contains(err, ExceededMaxSteps) ==> h.sent.value.content == TooComplexApology)
            && (!Contains(err, ExceededMaxSteps) ==> h.sent.value.content == AgentErrorPrefix + err)
  {
  }

  /** With a successful agent, the reply carries its answer unchanged. */
  lemma AnswerIsReplied(env: Env, data: seq<byte>)
    requires Accepted(env, data) && env.ask(Question(env, data)).Success?
    ensures HandleMessage(env, data).sent == Some(ReplyTo(env.decode(data).value, env.ask(Question(env, data)).value))
  {
  }

  /** Plugged into the consumer engine, the handler makes the engine issue
      exactly one acknowledgement for each message it is given. */
  lemma EngineAcksOncePerMessage(env: Env, workerId: nat, m: Msg)
    ensures var calls := RunnerConsumer.DispatchMsg(Some((id: nat, msg: Msg) => HandleMessage(env, msg.data).result), workerId, m);
            |calls| == 2 && calls[0] == Invoke(m) && calls[1].Acknowledge? && calls[1].msg == m
  {
    var h := (id: nat, msg: Msg) => HandleMessage(env, msg.data).result;
    RunnerConsumer.HandlerResultMapping(h, workerId, m);
  }

  // ---------------------------------------------------------------------
  // Construction

  datatype Config = Config(userMessageTemplate: string, userMessageReplyFilter: string)

  datatype WxAutoRunner = WxAutoRunner(cfg: Config)

  /** MustNew: the consumer configuration's validation outcome is an input
      (its Validate is not part of this model); the template and filter
      texts are parsed and compiled by `parse` and `compile`, which give the
      error they fail with. Failure stands for the panic with that error. */
  function MustNew(cfg: Config, consumerErr: Option<string>,
                   parse: string -> Option<string>, compile: string -> Option<string>): (r: Result<WxAutoRunner, string>)
    ensures r.Success? <==> consumerErr.None? && parse(cfg.userMessageTemplate).None? && compile(cfg.userMessageReplyFilter).None?
    ensures r.Success? ==> r.value.cfg == cfg
    ensures consumerErr.Some? ==> r == Failure(consumerErr.value)
    ensures consumerErr.None? && parse(cfg.userMessageTemplate).Some? ==> r == Failure(parse(cfg.userMessageTemplate).value)
    ensures consumerErr.None? && parse(cfg.userMessageTemplate).None? && compile(cfg.userMessageReplyFilter).Some? ==>
              r == Failure(compile(cfg.userMessageReplyFilter).value)
  {
    if consumerErr.Some? then Failure(consumerErr.value)
    else if parse(cfg.userMessageTemplate).Some? then Failure(parse(cfg.userMessageTemplate).value)
    else if compile(cfg.userMessageReplyFilter).Some? then Failure(compile(cfg.userMessageReplyFilter).value)
    else Success(WxAutoRunner(cfg))
  }
}
