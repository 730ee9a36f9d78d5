# sugar-wechat-bot: the pull-consumer engine and its neighbours, in Dafny

This project models the core of the sugar-wechat-bot message pipeline.

- **The pull-consumer engine.** It exists in two versions: `bot_runner_go/pkg/natsconsumer` and `bot_worker/pkg/natsconsumer`.
  - Each worker repeats one cycle: check cancellation, drop an invalid subscription, (re)subscribe, fetch, classify a fetch error, dispatch the fetched messages.
  - A supervisor starts `Concurrency` workers and later stops them.
- **The reply handlers** of both wxauto runners. Each turns a WeChat message fetched from NATS into a HandleResult (`ACK`, `NAK` or `TERM`) and possibly a published reply.
- **The small stateful pieces around them:**
  - the consumer configuration of bot_worker;
  - the NATS producer of bot_runner_go;
  - both zerologger packages;
  - the Python LRU cache of wechat_agent.

## How the model works

- **The worker loop** is a state machine, `PullLoop.Step` / `PullLoop.Loop`.
  - It is driven by an oracle: one `Round` per loop iteration. A round records whether the context is cancelled, whether the held subscription is still valid, whether a new subscribe succeeds, and what the fetch returns.
  - Its output is the trace of calls the worker makes on the broker: `Subscribe`, `Sleep2s`, `Fetch`, `Invoke` (the handler), `Acknowledge(msg, Ack|Nak|Term)` and `Unsubscribe`.
  - A finite oracle that runs out before a cancelled round means the worker is still running.
- **The two engines share the loop and differ in dispatching a message**, which is a parameter of the loop:
  - bot_runner_go maps the handler's HandleResult onto one call;
  - bot_worker calls a handler that acknowledges the message itself, and Naks only when the handler panics.
  - bot_runner_go does not recover a handler panic; that path is outside the model (see "Left out").
- **Loop methods.** `consumerWorker` is an imperative method in each engine, proved equal to `Loop`.
  - In bot_runner_go it is `RunnerConsumer.ConsumerWorker`, with `Run` as a method.
  - In bot_worker it is `WorkerConsumer.Consumer.ConsumerWorker`, inside the `Consumer` class. That class's `Start`, `SetHandler` and `Close` update the fields `nc`, `wg` and `handler`.
- **Go's `errors.Is`** is modelled over a chain of wrapped errors (`Nats.Is`).
- **Calls into libraries become inputs:** the NATS client, JSON, expr, text/template, the LLM agent and file I/O. Each is given as the outcome it produces. For example, `WxAuto.Env` bundles the decode, filter, template, agent and publish outcomes seen by a reply handler.

The two `handleMessage` functions are total functions of those outcomes. Their contracts characterise each result completely: when the result is Term, Ack or Nak, when a reply is sent, and to whom.

`bot_worker/runner/wxauto/server.go` uses `natsconsumer.HandleResult` and `NewConsumer(ctx, cfg)`, and neither matches the bot_worker consumer package shown. The model therefore takes HandleResult from `bot_runner_go/pkg/natsconsumer/consumer.go:22-28`, and builds the consumer from its configuration only.

## Model

| member | source | states |
|---|---|---|
| Nats.IsSentinel | bot_runner_go/pkg/natsconsumer/consumer.go:133 | `errors.Is` against a sentinel error holds exactly when the root of the wrapping chain is that sentinel |
| Nats.IsConnectionError | bot_runner_go/pkg/natsconsumer/consumer.go:83-87 | isConnectionError holds exactly for chains rooted at ErrConnectionClosed, ErrNoResponders or ErrBadSubscription; a timeout is never one (same function at bot_worker/pkg/natsconsumer/consumer.go:119-123) |
| PullLoop.Step | bot_runner_go/pkg/natsconsumer/consumer.go:105-143 | one iteration stops exactly when the context is cancelled, and then holds nothing; a subscription is held afterwards only if it was still valid or a new subscribe succeeded; a live iteration makes at least one call, and fetches first exactly when it holds a valid subscription (same loop at bot_worker/pkg/natsconsumer/consumer.go:141-180) |
| PullLoop.Loop | bot_runner_go/pkg/natsconsumer/consumer.go:105-143 | a run that has stopped reached some round and holds no subscription; a run still going has made at least one call per round (same loop at bot_worker/pkg/natsconsumer/consumer.go:141-180) |
| PullLoop.CancelledStepExits | bot_runner_go/pkg/natsconsumer/consumer.go:94-111 | a cancelled iteration leaves the loop, unsubscribing if and only if a subscription is held, and makes no other call |
| PullLoop.TimeoutKeepsSubscription | bot_runner_go/pkg/natsconsumer/consumer.go:131-135 | a fetch timeout keeps the subscription, does not stop the worker, and makes no call after the fetch |
| PullLoop.FetchErrorClearsIffConnectionClass | bot_runner_go/pkg/natsconsumer/consumer.go:136-142 | after any other fetch error the subscription is dropped if and only if the error is connection-class, and the worker keeps looping |
| PullLoop.InvalidSubscriptionReplaced | bot_runner_go/pkg/natsconsumer/consumer.go:113-128 | an invalid subscription is never fetched from: a subscribe comes first; if it fails the iteration is exactly a subscribe and a 2 s sleep and leaves no subscription |
| PullLoop.StopsOnlyWhenCancelled | bot_runner_go/pkg/natsconsumer/consumer.go:105-111 | a worker has left its loop if and only if one of the rounds it reached was cancelled |
| PullLoop.UnsubscribeOnlyOnExit | bot_runner_go/pkg/natsconsumer/consumer.go:94-102 | Unsubscribe appears in a worker's trace only as its very last call, after it stopped |
| PullLoop.SubscribeRetriesWithoutCap | bot_runner_go/pkg/natsconsumer/consumer.go:118-126 | while every subscribe fails, n iterations make exactly n subscribe attempts each followed by a 2 s sleep; the worker neither stops nor holds a subscription |
| RunnerConsumer.CallFor | bot_runner_go/pkg/natsconsumer/consumer.go:157-170 | the switch picks Ack, Nak or Term exactly for "ACK", "NAK" and "TERM"; any other result picks no call |
| RunnerConsumer.HandlerResultMapping | bot_runner_go/pkg/natsconsumer/consumer.go:155-171 | with a handler set, a message is handed to it once and then gets exactly the one matching acknowledgement, or none for an unnamed result (each direction proved) |
| RunnerConsumer.NilHandlerNaksEach | bot_runner_go/pkg/natsconsumer/consumer.go:146-153 | with no handler every fetched message gets exactly one Nak, in fetch order, and nothing else |
| RunnerConsumer.NilHandlerNeverAcksOrTerms | bot_runner_go/pkg/natsconsumer/consumer.go:147-153 | with no handler a worker never calls a handler and never Acks or Terms, over any run |
| RunnerConsumer.HandleBatch | bot_runner_go/pkg/natsconsumer/consumer.go:146-172 | the loop over fetched messages makes exactly the calls the dispatch specification gives, message by message |
| RunnerConsumer.DispatchMsg | bot_runner_go/pkg/natsconsumer/consumer.go:146-171 | every call made for a message concerns that message; the handler is invoked exactly when one is set; the message is acknowledged (Ack, Nak or Term) at most once |
| RunnerConsumer.Iteration | bot_runner_go/pkg/natsconsumer/consumer.go:105-143 | one pass of the worker loop makes the calls and leaves the subscription state given by `PullLoop.Step` |
| RunnerConsumer.ConsumerWorker | bot_runner_go/pkg/natsconsumer/consumer.go:89-174 | the imperative worker loop produces exactly the outcome of `PullLoop.Loop` on its rounds |
| RunnerConsumer.NakTwiceThenAck | bot_runner_go/pkg/natsconsumer/consumer_test.go:132-161 | a handler that Naks deliveries 1 and 2 and Acks delivery 3 is invoked exactly three times and the message ends Acked |
| RunnerConsumer.Run | bot_runner_go/pkg/natsconsumer/consumer.go:42-80 | a failed connect starts nothing and drains nothing; a failed JetStream step only drains; otherwise workers 0..Concurrency-1 run the loop, Run returns if and only if all of them stopped, and then every one was joined before the single drain |
| ConsumerConfig.WithDefaults | bot_worker/pkg/natsconsumer/config.go:17-22 | Concurrency and PullMaxWait are positive afterwards; positive values are kept and others become 1 and 10 s |
| ConsumerConfig.Validated | bot_worker/pkg/natsconsumer/config.go:16-40 | the range bounds hold whatever the result; an error occurs if and only if the URL, subject or consumer name is empty, and it names the first empty one in that order |
| ConsumerConfig.RangeChecksUnreachable | bot_worker/pkg/natsconsumer/config.go:33-38 | the concurrency and pull_max_wait errors can never be returned |
| ConsumerConfig.ValidatedIdempotent | bot_worker/pkg/natsconsumer/config.go:16-40 | validating a validated configuration gives the same configuration and the same result |
| ConsumerConfig.Config.Validate | bot_worker/pkg/natsconsumer/config.go:16-40 | the in-place Validate leaves the fields and returns the error that `Validated` gives for the old fields |
| WorkerConsumer.NilHandlerNaks | bot_worker/pkg/natsconsumer/consumer.go:184-190 | with no handler set a fetched message gets one Nak and the handler is not called |
| WorkerConsumer.PanicBecomesNak | bot_worker/pkg/natsconsumer/consumer.go:192-206 | a handler that panics has its message Nak'd after its own calls; a handler that returns gets no call from the engine |
| WorkerConsumer.PanicsDoNotStopWorker | bot_worker/pkg/natsconsumer/consumer.go:141-147 | whatever the handler does, panics included, the worker leaves its loop if and only if it saw cancellation |
| WorkerConsumer.DispatchMsg | bot_worker/pkg/natsconsumer/consumer.go:183-207 | every call made for a message concerns that message; the handler is invoked first exactly when one is set; with no handler, or after a recovered panic, the last call is a Nak |
| WorkerConsumer.AfterStartAsWritten | bot_worker/pkg/natsconsumer/consumer.go:50-86 | Start as written is a no-op on a started consumer and fails exactly when connect or JetStream fails; after a successful connect the connection is kept, and if JetStream then fails a consistent consumer is left holding a connection without a wait group |
| WorkerConsumer.AfterStart | bot_worker/pkg/natsconsumer/consumer.go:50-86 | Start (with the connection stored only on success) is a no-op when started; on failure nothing is held; on success the connection and a wait group of workers 0..Concurrency-1 are recorded; it keeps "connection held iff wait group held" |
| WorkerConsumer.AfterClose | bot_worker/pkg/natsconsumer/consumer.go:93-116 | Close is a no-op without a connection; otherwise it cancels, joins every worker, drains, force-closes if the drain failed, and clears the connection and the wait group; under the invariant it never reaches the nil wait group |
| WorkerConsumer.CloseTwiceIsNoOp | bot_worker/pkg/natsconsumer/consumer.go:93-97 | a second Close changes nothing |
| WorkerConsumer.StartSpawnsEachWorkerOnce | bot_worker/pkg/natsconsumer/consumer.go:71-82 | a successful Start spawns exactly the ids 0..Concurrency-1, and a Start after it spawns nothing and reports success |
| WorkerConsumer.StartAsWrittenBreaksClose | bot_worker/pkg/natsconsumer/consumer.go:62-69 | as written, a JetStream failure after connecting leaves a connection without a wait group: Close then dies on the nil wait group and a second Start reports success with no worker |
| WorkerConsumer.CorrectedLifecycleNeverPanics | bot_worker/pkg/natsconsumer/consumer.go:93-116 | with the corrected Start, any sequence of Start and Close calls keeps the invariant and Close never reaches a nil wait group |
| WorkerConsumer.Consumer.constructor | bot_worker/pkg/natsconsumer/consumer.go:36-48 | a new consumer holds no connection, no wait group and no handler |
| WorkerConsumer.Consumer.Start | bot_worker/pkg/natsconsumer/consumer.go:50-86 | the method updates the fields as `AfterStart` says and keeps the invariant |
| WorkerConsumer.Consumer.SetHandler | bot_worker/pkg/natsconsumer/consumer.go:88-91 | the handler field is replaced |
| WorkerConsumer.Consumer.Close | bot_worker/pkg/natsconsumer/consumer.go:93-116 | the method updates the fields as `AfterClose` says, keeps the invariant and never panics |
| WorkerConsumer.Consumer.HandleOne | bot_worker/pkg/natsconsumer/consumer.go:184-206 | one message gets a Nak without a handler; otherwise the handler's own calls, then a Nak if it panicked, as the dispatch specification says |
| WorkerConsumer.Consumer.HandleBatch | bot_worker/pkg/natsconsumer/consumer.go:183-207 | the per-message loop, with nil-handler Nak and panic recovery, makes exactly the calls of the dispatch specification |
| WorkerConsumer.Consumer.Iteration | bot_worker/pkg/natsconsumer/consumer.go:141-180 | one pass of the worker loop behaves as `PullLoop.Step` |
| WorkerConsumer.Consumer.ConsumerWorker | bot_worker/pkg/natsconsumer/consumer.go:125-209 | the imperative worker loop produces exactly the outcome of `PullLoop.Loop` |
| WxAuto.ReplyTo | bot_runner_go/runner/wxauto/server.go:148-154 | the reply carries the answer and addresses the original sender: same message id, sender's chat, @sender, exact match |
| RunnerReply.HandleMessage | bot_runner_go/runner/wxauto/server.go:100-161 | Term exactly when the payload does not decode, is not from a friend, the filter fails or the template fails; Ack exactly when the filter gives nil/false or the publish succeeds; Nak exactly when the publish fails; a reply is sent exactly for accepted messages, addressed to the sender |
| RunnerReply.AgentErrorStillReplies | bot_runner_go/runner/wxauto/server.go:137-146 | an agent error still produces a reply: the fixed apology when the error mentions "exceeded max steps", otherwise the fixed prefix followed by the error text |
| RunnerReply.AnswerIsReplied | bot_runner_go/runner/wxauto/server.go:137-154 | a successful agent answer is replied unchanged to the sender |
| RunnerReply.EngineAcksOncePerMessage | bot_runner_go/runner/wxauto/server.go:84-90 | installed in the consumer engine, the handler makes the engine issue exactly one acknowledgement per message |
| RunnerReply.MustNew | bot_runner_go/runner/wxauto/server.go:36-60 | construction succeeds exactly when consumer validation, template parsing and filter compilation all succeed; otherwise it panics with the first error in that order |
| WorkerReply.HandleMessage | bot_worker/runner/wxauto/server.go:128-184 | Term exactly when the payload does not decode, is not from a friend, or the filter, template or agent fails; Ack exactly when the filter gives nil/false or the publish succeeds; Nak exactly when the publish fails; the reply carries the agent's answer, addressed to the sender |
| WorkerReply.VersionsDifferOnlyOnAgentFailure | bot_worker/runner/wxauto/server.go:164-168 | both handlers give the same result and reply on every message except one the agent fails on, which bot_worker Terms and bot_runner_go still answers |
| WorkerReply.WxAutoRunner.constructor | bot_worker/runner/wxauto/server.go:85-92 | a new runner holds its consumer and logger |
| WorkerReply.WxAutoRunner.Close | bot_worker/runner/wxauto/server.go:95-109 | the consumer held is closed (its state becomes `AfterClose` of its old state: cancelled, workers joined, drained, connection and wait group cleared) and dropped; the logger's hook is closed when that succeeds and kept for a retry when it fails; the logger is dropped unless its close error lacks "already closed", which panics and keeps it; a hook error that says "already closed" is tolerated; a second Close is a no-op |
| WorkerReply.NewWxAutoRunner | bot_worker/runner/wxauto/server.go:40-93 | an invalid consumer configuration is returned as the error and nothing is built; construction succeeds exactly when every step succeeds, giving a fresh runner with an unstarted consumer on the defaulted configuration; the logger configuration ends up defaulted, with its file and rotation flags unchanged, so the level parsed is the defaulted one |
| LogDefaults.Defaulted | bot_runner_go/pkg/zerologger/config.go:27-38 | an empty level becomes "info" and zero sizes become 512, 10 and 15; every other value, negatives included, is kept |
| LogDefaults.DefaultedIdempotent | bot_runner_go/pkg/zerologger/config.go:26-40 | after defaulting nothing is at its zero value and defaulting again changes nothing |
| LogDefaults.DefaultedFixesSetConfigs | bot_worker/pkg/zerologger/config.go:20-34 | defaulting changes nothing exactly when no setting is at its zero value |
| RunnerLogger.Config.Validate | bot_runner_go/pkg/zerologger/config.go:26-40 | Validate returns nil, defaults the zero settings and leaves the other fields alone |
| RunnerLogger.Closers | bot_runner_go/pkg/zerologger/config.go:79-100 | the closer list holds the file writer exactly when a log file is named and the console writer exactly when console output is on, file first |
| RunnerLogger.FailuresIffSomeCloserFails | bot_runner_go/pkg/zerologger/config.go:47-58 | there are no collected errors exactly when every closer succeeds, and each collected error is a failing closer's error behind "failed to close logger: " |
| RunnerLogger.Logger.Close | bot_runner_go/pkg/zerologger/config.go:47-58 | every closer is tried, in order, whatever the earlier ones did; the result is nil exactly when none failed, and otherwise joins the wrapped errors |
| RunnerLogger.NewLogger | bot_runner_go/pkg/zerologger/config.go:72-111 | the configuration is defaulted, its compress and local-time flags unchanged; a failing directory creation is reported with the directory, and otherwise a failing level parse with the level, each followed by the cause; on success the logger closes exactly `Closers` of the configuration |
| WorkerLogger.Config.Validate | bot_worker/pkg/zerologger/config.go:20-34 | Validate returns nil, defaults the zero settings and leaves the other fields alone |
| WorkerLogger.Logger.Close | bot_worker/pkg/zerologger/config.go:41-49 | a failing hook close is reported behind "failed to close logger hook: " and the hook is kept; a successful one drops the hook, after which Close returns nil and does nothing |
| WorkerLogger.NewLogger | bot_worker/pkg/zerologger/config.go:51-74 | the configuration is defaulted, its compress and local-time flags unchanged; construction fails exactly on a bad level, with an error naming the level and the cause; on success the logger holds a file hook for the configured file |
| Producer.Validate | bot_runner_go/pkg/natsproducer/config.go:14-22 | Validate fails exactly when the URL or the subject is empty, naming the URL first; it only reads the configuration |
| Producer.New | bot_runner_go/pkg/natsproducer/config.go:29-43 | an invalid configuration is returned unchanged before any dial; otherwise a producer exists exactly when the dial succeeds |
| Producer.Producer.Publish | bot_runner_go/pkg/natsproducer/config.go:45-55 | without a connection Publish fails with "NATS connection is not initialized" and sends nothing; with one it sends the message or returns the connection's error |
| Producer.Producer.Close | bot_runner_go/pkg/natsproducer/config.go:57-62 | the connection is closed once and forgotten; a second Close closes nothing |
| Producer.CloseThenPublish | bot_runner_go/pkg/natsproducer/config.go:45-62 | after Close, Publish always fails and sends nothing |
| Lru.Touch | wechat_agent/src/lru.py:14 | move_to_end keeps the keys distinct, adds only the touched key, and puts it last |
| Lru.TouchKeepsOthersInOrder | wechat_agent/src/lru.py:12-15 | making a key most recent leaves the relative order of all other keys unchanged |
| Lru.PutKeepsInvariant | wechat_agent/src/lru.py:18-22 | after put the keys are distinct, match the mapping, and number at most max(capacity, 0) |
| Lru.PutMakesMostRecent | wechat_agent/src/lru.py:18-22 | with capacity at least 1 the key put is the most recent and maps to the new value; with capacity below 1 the cache is left empty |
| Lru.PutEvictsOnlyLeastRecent | wechat_agent/src/lru.py:21-22 | a put removes at most the least recently used key; every other key keeps its value |
| Lru.PutKeepsOthersInOrder | wechat_agent/src/lru.py:18-22 | a put keeps the relative order of every other key; the order loses only its front, and only when a key is evicted |
| Lru.PutExistingKeyNoEviction | wechat_agent/src/lru.py:18-22 | put on a present key updates its value and neither grows the cache nor evicts |
| Lru.LRUCache.constructor | wechat_agent/src/lru.py:8-10 | a new cache is empty with the given capacity |
| Lru.LRUCache.Get | wechat_agent/src/lru.py:12-16 | a present key returns its value and becomes the most recent, others keeping their order; a missing key returns None and changes nothing |
| Lru.LRUCache.Put | wechat_agent/src/lru.py:18-22 | the cache becomes `AfterPut` of its old state and keeps the size and recency invariant |
| Lru.LRUCache.Contains | wechat_agent/src/lru.py:24-25 | membership is read without changing anything, and agrees with the recency order |

## Findings

| source | as written | input that shows it | evidently intended | confidence | as-written member | corrected member |
|---|---|---|---|---|---|---|
| bot_worker/pkg/natsconsumer/consumer.go:62-69 | Start stores the connection in `c.nc` before creating the JetStream context, and returns on that error with `c.wg` still nil | connect succeeds and JetStream fails; then Close dereferences the nil wait group (line 102), and a second Start returns nil without starting any worker (lines 51-54) | keep the connection only once the workers are started (closing it otherwise), so a connection is held exactly when a wait group is | high, not executed | WorkerConsumer.StartAsWrittenBreaksClose | WorkerConsumer.AfterStart |

`WorkerConsumer.AfterStartAsWritten` models Start as written. `WorkerConsumer.Consumer.Start`, and the rest of the model, use the corrected `AfterStart`.

## Left out

- Goroutines, `sync.WaitGroup` and context timing.
  - Workers run one after another, each over its own oracle.
  - `wg.Wait` becomes a check that every worker has stopped. Run is `Blocked` while one has not.
  - Joins are bookkeeping events.
- Logging, and the `time.Sleep` back-off: the sleep is the `Sleep2s` event, and wall-clock time is not modelled. PullMaxWait is only passed on to the fetch, so it does not appear in the loop.
- The NATS client itself (connect, JetStream, PullSubscribe, Fetch, IsValid, Ack/Nak/Term, Drain, Publish) is represented by oracle results.
  - Errors from Ack, Nak, Term and Unsubscribe, and from bot_runner_go's deferred Drain, are only logged by the source. So the model records each call whatever its outcome, and such an error never changes control flow.
  - bot_worker's Close is the exception: when Drain fails it force-closes the connection (bot_worker/pkg/natsconsumer/consumer.go:106-109). `WorkerConsumer.AfterClose` records that as a `CloseConn` after the `Drain`.
- RunnerConsumer.DispatchMsg: the bot_runner_go handler is assumed not to panic. The source has no `recover` there (bot_runner_go/pkg/natsconsumer/consumer.go:146-171), so a panicking handler would unwind the worker (its deferred Unsubscribe still runs) and end the whole process, without the deferred Drain of Run. The model's handler always returns a HandleResult.
- Nats.Is: Go's `errors.Is` is modelled over a single chain of `%w` wrapping. Errors that wrap several others (`errors.Join`, `Unwrap() []error`) and custom `Is` methods are not modelled.
- Fetch asks for one message. The model accepts any batch, which covers the one-message case.
- `encoding/json`, `expr` and `text/template` are foreign libraries. Their outcomes are inputs.
  - The reply is handed to the producer as a `SendMessage` value: `json.Marshal` of that struct cannot fail, and its error is discarded in the source.
- The LLM agent (both reactagent packages) is represented by its answer or error.
- bot_runner_go/pkg/natsconsumer/config.go is not part of this model.
  - RunnerReply.MustNew therefore takes that configuration's validation outcome as an input.
  - RunnerConsumer.Run takes Concurrency as given.
- The bot_worker natsproducer package is not part of this model. WorkerReply.NewWxAutoRunner takes its construction outcome as an input. The same holds for the agent, the template parse and the filter compile.
- The `Run` and `Name` methods of both wxauto runners are wiring.
  - They create the producer, agent and consumer, start the consumer and install the handler. They are not modelled.
  - Because of the signature mismatch noted above, bot_worker's handleMessage is not plugged into `WorkerConsumer`.
- WorkerConsumer.Consumer.Start: the cancel function is created once, in NewConsumer. After a Close, the workers of a later Start would see an already-cancelled context and leave at once. The model does not tie the workers' rounds to the `cancelled` field.
- `zerolog.ParseLevel`, `filepath.Dir` and `os.MkdirAll` are inputs. So is each closer's or hook's `Close` outcome. `MustNewLogger` (a panic wrapper) is not modelled.
- RunnerLogger.Logger.Close: `errors.Join` is modelled as the messages joined by newlines.
- NewLogger's "invalid logger config" branch in both zerologger packages is dead, because Validate never fails. The model omits that branch.
- Lru.LRUCache.Get: in Python, a stored value that is itself None cannot be told apart from a miss. The model's `Option` keeps the two apart.
- wechat_agent's other modules (UI automation, async NATS, argument parsing) are not modelled. Neither are the HTTP server, signal handling and YAML loading of both Go programs.
