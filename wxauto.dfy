/** The WeChat message types exchanged with the wxauto bridge, and the
    outcome of the collaborators a reply handler calls (JSON decoding, the
    expr filter, the template, the LLM agent and the producer). */
module WxAuto {
  import opened Wrappers
  import opened Nats
  import RunnerConsumer

  /** The source attribute of a message (Go `type MessageAttr string`). */
  type MessageAttr = string

  const MessageAttrSystem: MessageAttr := "system"
  const MessageAttrTime: MessageAttr := "time"
  const MessageAttrTickle: MessageAttr := "tickle"
  const MessageAttrSelf: MessageAttr := "self"
  const MessageAttrFriend: MessageAttr := "friend"
  const MessageAttrOther: MessageAttr := "other"

  datatype ReceivedMessage = ReceivedMessage(
    id: string,
    msgType: string,
    attr: MessageAttr,
    content: string,
    sender: string,
    senderRemark: string)

  datatype SendMessage = SendMessage(
    replyToMsgID: string,
    sendToChat: string,
    content: string,
    at: seq<string>,
    exact: bool)

  /** What the expr filter gives: an evaluation error, nil, or a boolean. */
  datatype FilterOutcome = FilterFailed(err: string) | FilterNil | FilterBool(b: bool)

  /** The collaborators of handleMessage, each given as the outcome it
      produces: decoding the payload, running the filter, executing the
      template, asking the agent, and publishing the reply (None: sent). */
  datatype Env = Env(
    decode: seq<byte> -> Result<ReceivedMessage, string>,
    filter: ReceivedMessage -> FilterOutcome,
    render: ReceivedMessage -> Result<string, string>,
    ask: string -> Result<string, string>,
    publish: SendMessage -> Option<string>)

  /** What handleMessage returns, and the reply it handed to the producer. */
  datatype Handled = Handled(result: RunnerConsumer.HandleResult, sent: Option<SendMessage>)

  /** The reply goes back to the original sender: it quotes the message,
      goes to the sender's chat, @-mentions the sender, matched exactly. */
  predicate Addresses(reply: SendMessage, msg: ReceivedMessage)
  {
    && reply.replyToMsgID == msg.id
    && reply.sendToChat == msg.sender
    && reply.at == [msg.sender]
    && reply.exact
  }

  function ReplyTo(msg: ReceivedMessage, answer: string): (reply: SendMessage)
    ensures Addresses(reply, msg) && reply.content == answer
  {
    SendMessage(msg.id, msg.sender, answer, [msg.sender], true)
  }

  /** The payload decodes to a friend message. */
  predicate FromFriend(env: Env, data: seq<byte>)
  {
    env.decode(data).Success? && env.decode(data).value.attr == MessageAttrFriend
  }

  /** A friend message that the filter lets through and whose template
      renders: the handler goes on to ask the agent. */
  predicate Accepted(env: Env, data: seq<byte>)
  {
    && FromFriend(env, data)
    && env.filter(env.decode(data).value) == FilterBool(true)
    && env.render(env.decode(data).value).Success?
  }

  /** A friend message that the filter rejects with nil or false. */
  predicate FilteredOut(env: Env, data: seq<byte>)
  {
    && FromFriend(env, data)
    && env.filter(env.decode(data).value) in {FilterNil, FilterBool(false)}
  }

  /** The question put to the agent for an accepted message. */
  function Question(env: Env, data: seq<byte>): string
    requires Accepted(env, data)
  {
    env.render(env.decode(data).value).value
  }

}
