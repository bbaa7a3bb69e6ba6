# rele core in Dafny

A model of the core of *rele*, a small Python framework for consuming and
publishing Google Cloud Pub/Sub messages:

- the `Worker`, which provisions its subscriptions, opens one streaming
  pull per subscription, restarts streams that were cancelled or finished,
  and cancels them all when it stops (`worker.dfy`, with the stream map as
  values and the functions `Worker` is proved equal to in
  `worker_spec.dfy`);
- `Subscription`, its derived name, the `sub` decorator and the per-message
  `Callback`, which decodes a message, runs the handler and acks on success
  (`subscription.dfy`);
- the middleware registry: loading middleware classes from dotted paths
  and dispatching hooks in registration order (`middleware.dfy`);
- `RetryPolicy` validation (`retry_policy.dfy`);
- the SDK wrappers `Subscriber`, `Publisher` and the publisher singleton
  (`client.dfy`), UTF-8 encoding of the published payload (`utf8.dfy`);
- the process-wide publisher and the `publish` shortcut (`publishing.dfy`);
- the contributed `UnrecoverableMiddleWare` and `VerboseLoggingMiddleware`
  (`unrecoverable_middleware.dfy`, `verbose_logging_middleware.dfy`).

Helper modules: `Wrappers` (Option, Result, Outcome), `Strings` (Python's
`split`, `join`, `lstrip`), `Exceptions` (exception classes and
`isinstance`), `Messages` (the received message, with an ack counter, and
decoded JSON).

The outside world enters as parameters. `check_internet_connection()` is
an oracle `online: nat -> bool` indexed by the number of probes made. The
Pub/Sub service is the table of existing subscriptions and the lists of
pulls and published messages. In `client.py` and `publishing.py` a failure
of an SDK call is an input (`fault` for `create_subscription`, `sendFault`
for the SDK's `publish`, `outcome` for the future), and in
`middleware.py` a hook that raises is given by the input `raises`; the
calls the worker makes are taken to return (see "Left out").
`json.loads`, `json.dumps` and Python's `repr` are function parameters. The calls the worker makes (provisioning, hooks,
cancel, await, probe, consume, exit) are recorded in a trace, so
properties about order and about what is not called can be stated.

Where the files of the repository disagree with each other, the model
follows each file's own text:

- `worker.py` calls `update_or_create_subscription` and `consume` and
  passes six arguments to `Subscriber`, while the `client.py` shown defines
  `create_subscription`, `subscribe` and a constructor without arguments.
  `Worker` records these calls as `Provisioned` and `Consumed` events, and
  `Client.Subscriber` models `client.py` on its own.
- `publishing.py` constructs `Publisher(config.gc_project_id,
  config.credentials)`, while the `Publisher.__init__` shown takes no
  arguments and reads `RELE_GC_PROJECT_ID` from the settings. The model
  follows `publishing.py`: the publisher's topic project is the configured
  project id.
- `VerboseLoggingMiddleware` forwards to a four-argument
  `post_process_message_failure` of `LoggingMiddleware`. The logging
  middleware is not part of this model. The call it receives is the
  method's result.

## Model

| member | source | states |
|---|---|---|
| Exceptions.SubclassTransitive | rele/subscription.py:39 | `isinstance` sees through any chain of base classes: an instance of a subclass of `mid` is an instance of what `mid` derives from |
| Exceptions.InheritsFromEveryBase | rele/subscription.py:39 | with several base classes, a class derives from whatever any one of its bases derives from |
| Exceptions.SingleBase | rele/subscription.py:39 | a class with one base derives from a target exactly when it is the target or its base derives from it |
| Exceptions.CaughtByExceptClause | rele/worker.py:36-37 | `NotConnectionError` derives from `BaseException` only and escapes `except Exception`; `AlreadyExists`, `JSONDecodeError`, `UnicodeDecodeError`, `TypeError` and `UnrecoverableException` are caught by it |
| Messages.Message.constructor | rele/subscription.py:32-45 | a received message keeps its data, attributes and ordering key and starts with no ack |
| Messages.Message.Ack | rele/subscription.py:45 | `ack()` adds exactly one acknowledgement |
| Strings.Split | rele/contrib/verbose_logging_middleware.py:40 | `str.split(sep)` yields at least one piece, none holding the separator, and a single piece exactly when the separator is absent |
| Strings.JoinSplit | rele/contrib/verbose_logging_middleware.py:40-43 | joining the pieces of a split with the same separator gives the string back |
| Strings.SplitJoin | rele/contrib/verbose_logging_middleware.py:40-43 | splitting a join of separator-free pieces gives the pieces back |
| Strings.SplitConcat | rele/contrib/verbose_logging_middleware.py:40 | splitting distributes over a separator placed between two strings |
| Strings.SplitPrefix | rele/contrib/verbose_logging_middleware.py:25 | a separator-free prefix only extends the first piece of a split |
| Strings.LStrip | rele/contrib/verbose_logging_middleware.py:44 | `lstrip()` returns a suffix of its input that does not start with whitespace |
| Strings.LStripDropsSpaces | rele/contrib/verbose_logging_middleware.py:44 | everything `lstrip()` removes is whitespace |
| Strings.LStripConcat | rele/contrib/verbose_logging_middleware.py:44 | stripping a concatenation whose first part has a non-blank character only strips the first part |
| Subscriptions.LastSegment | rele/subscription.py:15 | `BASE_DIR.split("/")[-1]` is slash-free, is the whole path when there is no slash, and otherwise is exactly the text after the last slash |
| Subscriptions.SubscriptionName | rele/subscription.py:15-17 | the name is the last segment, a dash and the topic, followed by `-suffix` exactly when the suffix is truthy |
| Subscriptions.EmptySuffixIgnored | rele/subscription.py:16 | an empty suffix gives the same name as no suffix |
| Subscriptions.LastSegmentAfterSlash | rele/subscription.py:15 | whatever precedes the last slash, the segment after it names the application |
| Subscriptions.ExampleName | rele/subscription.py:15 | a checkout called `rele` anywhere gives `rele-some-cool-topic` for topic `some-cool-topic` |
| Subscriptions.Effects.CloseOldConnections | rele/subscription.py:33 | `db.close_old_connections()` is recorded once |
| Subscriptions.Subscription.constructor | rele/subscription.py:12-17 | the subscription keeps the handler and topic and takes the derived name |
| Subscriptions.Subscription.Call | rele/subscription.py:19-20 | an attribute named `self` or `data` raises `TypeError` before the handler runs; otherwise the handler runs once on the payload and attributes, and the call fails exactly when the handler raises, with the handler's error |
| Subscriptions.Subscription.ToString | rele/subscription.py:22-23 | `__str__` is the name, ` - `, then the handler's name, at those positions |
| Subscriptions.Sub | rele/subscription.py:52-57 | the decorator yields a new subscription of that handler, topic and derived name |
| Subscriptions.Callback.constructor | rele/subscription.py:28-30 | the callback keeps its subscription and suffix |
| Subscriptions.DecodePayload | rele/subscription.py:36 | bytes that are not UTF-8 give `UnicodeDecodeError`, text `json.loads` rejects gives `JSONDecodeError`, and otherwise the payload is what `json.loads` makes of the decoded text |
| Subscriptions.EncodedPayload | rele/subscription.py:36 | data that is the UTF-8 encoding of a text reaches `json.loads` as that very text |
| Subscriptions.Callback.Call | rele/subscription.py:32-49 | a payload that fails to decode raises that error after one close, without ack or handler call; an attribute clash is swallowed after two closes, without ack or handler call; otherwise close, handler, close in that order, one ack exactly when the handler returns, handler errors outside `Exception` propagate and the rest are swallowed |
| Middleware.SplitModulePath | rele/middleware.py:10-11 | the class name is the text after the last dot and the module path everything before it; a dot-free path has an empty module path |
| Middleware.Dispatches | rele/middleware.py:19-20 | one hook call per middleware, at the same position and with the same hook |
| Middleware.DispatchesSnoc | rele/middleware.py:15 | appending a middleware appends exactly its call to the dispatch |
| Middleware.FirstUnloadable | rele/middleware.py:9-13 | every path before the returned index loads, and the one at it does not |
| Middleware.FirstUnloadableAt | rele/middleware.py:9-13 | that index is unique: any index with both properties is it |
| Middleware.Load | rele/middleware.py:10-13 | loading succeeds exactly for a path with a non-empty module that can be imported, gives a new instance of the named class, and otherwise reports why it failed |
| Middleware.InstantiatesAllSnoc | rele/middleware.py:13-15 | appending an instance of the next path keeps the list position-by-position faithful to the paths |
| Middleware.DistinctSnoc | rele/middleware.py:13-15 | appending a new object keeps the list free of repeats |
| Middleware.MiddlewareObject.constructor | rele/middleware.py:13 | the instance records its module and class |
| Middleware.Registry.constructor | rele/middleware.py:3 | the registry starts empty with no hook calls |
| Middleware.Registry.RegisterMiddleware | rele/middleware.py:6-15 | the list is rebuilt from the paths in order, each a fresh instance of its path with `setup` called once in that order; the first path that cannot be loaded stops registration with its error, and the list then holds exactly the paths before it |
| Middleware.FirstRaising | rele/middleware.py:19-20 | the index of the first middleware whose hook raises: none before it raises and the one at it does |
| Middleware.HookRunStops | rele/middleware.py:18-20 | the hook loop calls the middleware in order up to and including the first that raises and ends with its error; when none raises it calls each once and completes |
| Middleware.Registry.RunMiddlewareHook | rele/middleware.py:18-20 | the in-place loop makes the calls and ends as `HookRun` says, and the registry is unchanged |
| RetryPolicies.GuardAgainstWrongParameters | rele/retry_policy.py:24-32 | the first failing check decides the error: minimum zero, else maximum zero, else minimum above maximum |
| RetryPolicies.NewRetryPolicy | rele/retry_policy.py:18-22 | construction succeeds exactly when neither bound is zero and the minimum does not exceed the maximum, and keeps both bounds |
| RetryPolicies.RejectedPairs | rele/retry_policy.py:24-32 | (0,0) and (0,1) fail on the minimum, (10,1) on the order, and (5,5) is accepted |
| RetryPolicies.NegativeBackoffAccepted | rele/retry_policy.py:11-12 | negative bounds pass the guard as written |
| RetryPolicies.NewPositiveRetryPolicy | rele/retry_policy.py:11-12 | the documented rule: construction succeeds exactly for 0 < minimum <= maximum, and then agrees with the guard as written |
| StreamMap.CancelHandle | rele/worker.py:130 | `cancel()` keeps the handle's identity and leaves it cancelled or done; a stale handle is unchanged |
| StreamMap.Initial | rele/worker.py:66 | a new worker has an empty, well-formed stream map and has made no call |
| StreamMap.CancelExistingEffect | rele/worker.py:141-158 | an existing handle of the subscription is cancelled and then awaited; nothing else changes |
| StreamMap.ConsumeEffect | rele/worker.py:173-177 | `consume` stores a new running handle under the subscription, appends the key only when it is new, and keeps the map well formed |
| StreamMap.ProbeWellFormed | rele/worker.py:160 | a connectivity probe keeps the stream map well formed |
| StreamMap.BootstrapFrame | rele/worker.py:135-182 | on success the subscription holds a new running handle with the next identity; on failure it keeps its old handle, now cancelled; other keys are untouched and the map stays well formed |
| StreamMap.BootstrapCalls | rele/worker.py:141-177 | any old handle is cancelled and awaited before the probe; `consume` runs only after a successful probe; the bootstrap raises exactly when the probe fails |
| StreamMap.BootstrapEventsFail | rele/worker.py:160-165 | a bootstrap's calls hold a failed probe exactly when it raises |
| StreamMap.SweepFrame | rele/worker.py:199-207 | the restart loop keeps the keys and their order and keeps the map well formed |
| StreamMap.SweepUntouched | rele/worker.py:199-200 | the restart loop never touches a healthy handle or a key outside the swept ones |
| StreamMap.SweepOutcome | rele/worker.py:199-207 | the restart loop raises exactly when one of its probes fails, and that probe is then its last call |
| StreamMap.SweepRestarts | rele/worker.py:199-207 | a restart loop that returns leaves every key with a running handle, and every stale handle replaced by one it issued |
| StreamMap.TickEffect | rele/worker.py:192-207 | one iteration of the wait loop keeps the keys and healthy handles, raises exactly when one of its probes fails (then the last call), and otherwise leaves every handle running, replacing exactly the stale ones |
| StreamMap.TickWellFormed | rele/worker.py:192-207 | one iteration of the wait loop keeps the map well formed |
| StreamMap.QuietTick | rele/worker.py:192-207 | without the clock condition, an iteration over healthy streams makes no call and changes nothing |
| StreamMap.QuietSweep | rele/worker.py:199-200 | a restart loop over healthy streams makes no call and changes nothing |
| StreamMap.SampledOutage | rele/worker.py:192-197 | with the clock condition and no connection, an iteration makes one failed probe, raises, and leaves the stream map as it was |
| StreamMap.BootstrapAllFrame | rele/worker.py:93-94 | the start loop keeps the map well formed and the keys it found, and touches no key outside the list |
| StreamMap.BootstrapAllKeys | rele/worker.py:93-94 | a completed start loop leaves the keys found plus the listed subscriptions |
| StreamMap.BootstrapAllOutcome | rele/worker.py:93-94 | the start loop raises exactly when a probe fails, and that probe is its last call |
| StreamMap.BootstrapAllRunning | rele/worker.py:93-94 | a completed start loop leaves every listed subscription with a running handle |
| StreamMap.StartCalls | rele/worker.py:92-95 | `pre_worker_start` precedes every bootstrap; `post_worker_start` follows them all and only when none raised; a raising start ends with its failed probe |
| StreamMap.StartHandles | rele/worker.py:92-95 | after a successful start every subscription holds a running handle, the keys are the old ones plus the subscriptions, and the map is well formed |
| StreamMap.StartFresh | rele/worker.py:66-95 | starting a new worker gives every subscription, and nothing else, a running handle |
| StreamMap.Provisions | rele/worker.py:77-78 | one provisioning call per subscription, at the same position |
| StreamMap.SetupEffect | rele/worker.py:70-79 | `setup` only appends its provisioning calls, in list order |
| StreamMap.CancelAllFutures | rele/worker.py:129-130 | the cancel loop cancels the handle of every key and keeps every other handle and the rest of the state |
| StreamMap.CancelAllTrace | rele/worker.py:129-130 | the cancel loop makes one cancel call per key, in key order |
| StreamMap.CancelAllEffect | rele/worker.py:129-130 | both of the above together |
| StreamMap.StopEffect | rele/worker.py:128-133 | after `stop` every handle is cancelled or finished, keys and identities are kept, and the calls are exactly `pre_worker_stop` with the subscriptions, one cancel per handle in insertion order, `post_worker_stop`, exit status 0 |
| StreamMap.WaitEffect | rele/worker.py:184-214 | the wait loop keeps the keys, their order and well-formedness, raises exactly when a probe fails, and each completed iteration leaves every handle running |
| StreamMap.RunForeverCalls | rele/worker.py:98-109 | every subscription is provisioned before anything else, the start hook follows, and a run that raises has made a failed probe |
| StreamMap.RunForeverHandles | rele/worker.py:98-109 | a run that has not raised leaves every subscription with a running handle and the map well formed |
| Workers.Worker.constructor | rele/worker.py:49-68 | a new worker has the initial, well-formed stream map |
| Workers.Worker.RunHook | rele/middleware.py:18-20 | running a hook appends exactly that hook call |
| Workers.Worker.Setup | rele/worker.py:70-79 | `setup` changes the worker as `StreamMap.Setup` says |
| Workers.Worker.BootstrapConsumption | rele/worker.py:135-182 | the in-place bootstrap agrees with `StreamMap.Bootstrap` and raises `NotConnectionError` exactly when it reports failure |
| Workers.Worker.Start | rele/worker.py:81-96 | the in-place start agrees with `StreamMap.Start` and keeps the worker well formed |
| Workers.Worker.MonitorOnce | rele/worker.py:192-207 | one in-place iteration of the wait loop agrees with `StreamMap.Tick` and keeps the worker well formed |
| Workers.Worker.Sweep | rele/worker.py:199-207 | the in-place restart loop agrees with `StreamMap.Sweep` over the keys in insertion order |
| Workers.Worker.WaitForever | rele/worker.py:184-214 | the in-place wait loop agrees with `StreamMap.Wait` and keeps the worker well formed |
| Workers.Worker.RunForever | rele/worker.py:98-109 | the in-place run agrees with `StreamMap.RunForever` and keeps the worker well formed |
| Workers.Worker.Stop | rele/worker.py:111-133 | the in-place stop agrees with `StreamMap.Stop` and keeps the worker well formed |
| Workers.Worker.CancelEach | rele/worker.py:129-130 | the in-place cancel loop agrees with `StreamMap.CancelAll` over the keys in insertion order |
| Client.SubscriptionPath | rele/client.py:19-20 | the subscription path starts with `projects/`, ends with the name, and has the length of its parts |
| Client.TopicPath | rele/client.py:21-22 | the topic path starts with `projects/`, ends with the topic, and has the length of its parts |
| Client.SubscriptionPathInjective | rele/client.py:19-20 | within a project, different names give different subscription paths |
| Client.TopicPathInjective | rele/client.py:55-56 | within a project, different topics give different topic paths |
| Client.Suppress | rele/client.py:24 | `suppress(cls)` ends the block normally exactly when it passed or raised an instance of `cls`, and leaves any other error as it is |
| Client.CreateIdempotent | rele/client.py:18-26 | once the subscription exists, creating it again leaves the server as it is and completes without error unless the SDK fails with something other than `AlreadyExists`, whose error then reaches the caller |
| Client.CreateErrors | rele/client.py:18-26 | an error reaches the caller exactly when the SDK fails with something other than `AlreadyExists`, whether or not the path is taken; the subscription is added exactly when the request succeeds on a free path |
| Client.Subscriber.constructor | rele/client.py:14-16 | a new subscriber has the given projects and server state and no pulls |
| Client.Subscriber.SdkCreateSubscription | rele/client.py:25-26 | the SDK call changes the server as `SdkCreate` says |
| Client.Subscriber.CreateSubscription | rele/client.py:18-26 | creation uses the subscription path under `GC_PROJECT_ID` and the topic path under `RELE_GC_PROJECT_ID`, and behaves as `CreateOutcome` |
| Client.Subscriber.Subscribe | rele/client.py:28-31 | exactly one streaming pull is opened, on the subscription path of that name, with the callback unchanged |
| Client.FutureResult | rele/client.py:58-64 | `True` exactly when the future returns, `False` exactly when it raises an `Exception`, and any other error propagates unchanged |
| Client.TimeoutIsFalse | rele/client.py:58-63 | a publish that times out reports `False` |
| Client.Publisher.constructor | rele/client.py:47-49 | a new publisher has sent nothing |
| Client.PublishRaises | rele/client.py:51-64 | `publish` raises exactly when an attribute is named `self`, `topic` or `data` (a `TypeError`), the SDK call raises, or the future raises something outside `Exception`; it returns `False` exactly when the message was handed over and the future raised an `Exception`, and `True` exactly when it was handed over and the future returned |
| Client.Publisher.Publish | rele/client.py:51-64 | unless an attribute clashes with a parameter or the SDK call raises, exactly one message is sent, to the topic path of the topic, with the UTF-8 encoded JSON text and the attributes unchanged; otherwise nothing is sent; the result is `PublishResult` |
| Client.PublishedPayloadDecodes | rele/client.py:52 | the payload sent decodes back to the JSON text it was made from |
| Client.PublisherSingleton.constructor | rele/client.py:35 | the singleton starts without an instance |
| Client.PublisherSingleton.Call | rele/client.py:37-41 | the first call creates and keeps a new publisher; every later call returns that same object |
| Utf8.EncodeChar | rele/client.py:52 | a character encodes to 1-4 bytes: a lead byte announcing the length, then continuation bytes; one byte exactly for ASCII |
| Utf8.Encode | rele/client.py:52 | the encoding has between one and four bytes per character |
| Utf8.DecodeEncodeChar | rele/client.py:52 | a character's bytes decode back to it |
| Utf8.DecodeEncode | rele/client.py:52 | decoding an encoded string gives the string back |
| Utf8.EncodeDecodeChar | rele/subscription.py:36 | a well-formed byte sequence is the encoding of the character it decodes to |
| Utf8.DecodeStep | rele/subscription.py:36 | a successful decode is the first character followed by the decode of the remaining bytes |
| Utf8.EncodeDecode | rele/subscription.py:36 | whatever the strict decoder accepts is exactly the encoding of what it returns |
| Utf8.EncodeAscii | rele/client.py:52 | ASCII text is sent byte for byte |
| Publishing.ShortcutOutcome | rele/publishing.py:38 | the shortcut completes exactly when `Publisher.publish` returns, and otherwise passes on its error |
| Publishing.ShortcutSwallowsExceptions | rele/publishing.py:38 | the shortcut raises exactly when an attribute clashes with a parameter of `Publisher.publish`, the SDK's `publish` call raises, or the future raises something outside `Exception`; a timeout or other `Exception` from the future ends it normally |
| Publishing.ShortcutClashIsPublishClash | rele/publishing.py:13 | a keyword argument named `topic` or `data` is a clash for `Publisher.publish` too, and the shortcut then fails with that `TypeError` |
| Publishing.GlobalPublisher.constructor | rele/publishing.py:3 | the module starts without a publisher |
| Publishing.GlobalPublisher.InitGlobalPublisher | rele/publishing.py:6-10 | an empty slot is filled from the `Publisher` singleton for the configured project (a new publisher, or the singleton's existing one), and the singleton then holds that publisher; a filled slot is kept and the singleton is untouched; the stored publisher is returned |
| Publishing.GlobalPublisher.Publish | rele/publishing.py:13-38 | a keyword argument named `topic` or `data` raises `TypeError`; otherwise `ValueError` when no publisher is stored; otherwise the stored publisher publishes with the topic, data and attributes unchanged, handing over one message unless an attribute named `self` clashes or the SDK call raises, and the slot keeps the same publisher |
| Unrecoverable.AcksFor | rele/contrib/unrecoverable_middleware.py:10-13 | at most one ack, given exactly for an `UnrecoverableException` |
| Unrecoverable.SubclassesAcked | rele/contrib/unrecoverable_middleware.py:10 | any class derived from `UnrecoverableException`, however indirectly, is acked |
| Unrecoverable.AckedErrorsAreExceptions | rele/contrib/unrecoverable_middleware.py:4-5 | an acked error is an `Exception`; `NotConnectionError` and a malformed payload are never acked |
| Unrecoverable.UnrecoverableMiddleware.PostProcessMessageFailure | rele/contrib/unrecoverable_middleware.py:9-13 | the message gets one ack for an `UnrecoverableException` and none otherwise |
| VerboseLogging.LessIrreflexive | rele/contrib/verbose_logging_middleware.py:36 | no key sorts before itself |
| VerboseLogging.LessTotal | rele/contrib/verbose_logging_middleware.py:36 | of two different keys one sorts before the other |
| VerboseLogging.LessTransitive | rele/contrib/verbose_logging_middleware.py:36 | string order is transitive |
| VerboseLogging.Smallest | rele/contrib/verbose_logging_middleware.py:36 | a non-empty set of keys has a member below all the others |
| VerboseLogging.SortedKeys | rele/contrib/verbose_logging_middleware.py:36 | `sort_keys=True` lists each key once, strictly ascending |
| VerboseLogging.ConsSorted | rele/contrib/verbose_logging_middleware.py:36 | the smallest key before a sorted listing of the others is a sorted listing of all |
| VerboseLogging.SortedHead | rele/contrib/verbose_logging_middleware.py:36 | a strictly sorted listing of a set starts with its smallest key |
| VerboseLogging.SortedTail | rele/contrib/verbose_logging_middleware.py:36 | the rest of such a listing is a sorted listing of the other keys |
| VerboseLogging.SortedKeysUnique | rele/contrib/verbose_logging_middleware.py:36 | any strictly sorted listing of the keys is the one `sort_keys=True` gives |
| VerboseLogging.MemberLines | rele/contrib/verbose_logging_middleware.py:35-37 | one member line per key, in the given order, the last without a trailing comma |
| VerboseLogging.MemberLineSingle | rele/contrib/verbose_logging_middleware.py:35-37 | a member line holds no line break when the string encoding yields none |
| VerboseLogging.DumpSplits | rele/contrib/verbose_logging_middleware.py:35-40 | the indented dump splits into `{}` alone for no attributes, and otherwise into `{`, the member lines and `}` |
| VerboseLogging.Indented | rele/contrib/verbose_logging_middleware.py:39-41 | each line prefixed by two spaces, same number of lines |
| VerboseLogging.IndentedSnoc | rele/contrib/verbose_logging_middleware.py:41 | indenting one more line appends its indented form |
| VerboseLogging.AttrsRepr | rele/contrib/verbose_logging_middleware.py:34-46 | the attribute repr does not start with whitespace |
| VerboseLogging.AttrsReprLines | rele/contrib/verbose_logging_middleware.py:39-44 | the repr's lines are the stripped first line of the dump, then every further dump line indented by two spaces |
| VerboseLogging.AttrsReprEmpty | rele/contrib/verbose_logging_middleware.py:34-46 | an empty attribute map is shown as `{}` |
| VerboseLogging.AttrsReprOfDump | rele/contrib/verbose_logging_middleware.py:34-46 | non-empty attributes show as `{`, each attribute in key order indented by four spaces, then `}` indented by two |
| VerboseLogging.RenderLines | rele/contrib/verbose_logging_middleware.py:21-32 | the template's lines are the header, the data repr, the ordering-key repr, the attributes (possibly several lines) and the closing brace, in that order |
| VerboseLogging.MessageReprLines | rele/contrib/verbose_logging_middleware.py:20-46 | the full repr of a message with attributes, line by line |
| VerboseLogging.VerboseMessage.constructor | rele/contrib/verbose_logging_middleware.py:16-18 | the wrapper keeps the message and takes its attributes |
| VerboseLogging.VerboseMessage.MessageAttrsRepr | rele/contrib/verbose_logging_middleware.py:34-46 | the re-indenting loop computes `AttrsRepr` of the JSON dump |
| VerboseLogging.VerboseMessage.Repr | rele/contrib/verbose_logging_middleware.py:20-32 | `__repr__` fills the template with the data repr, the ordering-key repr and the attribute repr |
| VerboseLogging.VerboseLoggingMiddleware.PostProcessMessageFailure | rele/contrib/verbose_logging_middleware.py:7-12 | the parent hook receives the same subscription, exception and start time, and a new wrapper of the message with its attributes |

## Left out

- Network, threads, sleeping, signals, logging and `print`. The
  connectivity probe is the `online` oracle. `sleep_interval` has no
  effect on the model.
- `datetime.now().timestamp() % 50 < 1` in the wait loop is an input:
  one boolean per iteration.
- `Workers.Worker.WaitForever`: the source loop never ends on its own.
  The model runs one iteration per element of `samples` and stops at the
  first that raises.
- `Workers.Worker.Stop`: `sys.exit(0)` is recorded as the event
  `Exited(0)`. The worker state after it is still described, although
  the process would have ended.
- `ThreadPoolExecutor` and `ThreadScheduler` are not modelled, and
  neither are `threads_per_subscription` and the credentials, storage
  region, ack deadline and retry policy passed to the subscriber.
- The `result()` awaited after `cancel()` in `_boostrap_consumption` is
  assumed to return. An exception it raises is not modelled.
- `create_and_run` and `_get_stop_signal` are left out. They only wire
  signals to `stop` and call `run_forever`.
- `Subscriptions.Callback.Call`: `json.loads` is the parameter `loads`,
  and a text it rejects gives `JSONDecodeError`. The UTF-8 step is
  `Utf8.Decode`.
- The calls the worker makes are taken to return:
  `update_or_create_subscription` (`rele/worker.py:78`), `consume`
  (`rele/worker.py:173`) and the `run_middleware_hook` calls at
  `rele/worker.py:92`, `:95`, `:128` and `:132`. In the source an error
  raised by any of them propagates out of `setup`, `start`,
  `_boostrap_consumption` or `stop`. The hook loop of `middleware.py`
  itself does model a raising hook (`Middleware.HookRunStops`), but the
  worker's trace does not.
- StreamMap.BootstrapCalls: "the bootstrap raises exactly when its probe
  fails" holds only because these calls are taken to return; in the source
  an SDK or hook error is another way out.
- StreamMap.BootstrapEventsFail: "a failed probe is in the calls exactly
  when the bootstrap raises" holds only because these calls are taken to
  return; in the source an SDK or hook error is another way out.
- StreamMap.SweepOutcome: "the restart loop raises exactly when a probe
  fails" holds only because these calls are taken to return; in the source
  an SDK or hook error is another way out.
- StreamMap.TickEffect: "an iteration raises exactly when a probe fails"
  holds only because these calls are taken to return; in the source an SDK
  or hook error is another way out.
- StreamMap.BootstrapAllOutcome: "the start loop raises exactly when a
  probe fails" holds only because these calls are taken to return; in the
  source an SDK or hook error is another way out.
- StreamMap.StartCalls: "a start that raises ends with its failed probe"
  holds only because these calls are taken to return; in the source an SDK
  or hook error is another way out.
- StreamMap.WaitEffect: "the wait loop raises exactly when a probe fails"
  holds only because these calls are taken to return; in the source an SDK
  or hook error is another way out.
- StreamMap.RunForeverCalls: "a run that raises has made a failed probe"
  holds only because these calls are taken to return; in the source an SDK
  or hook error is another way out.
- Workers.Worker.BootstrapConsumption, Workers.Worker.Start,
  Workers.Worker.MonitorOnce, Workers.Worker.Sweep,
  Workers.Worker.WaitForever and Workers.Worker.RunForever: "every error
  they report is `NotConnectionError`" holds only because these calls are
  taken to return; in the source an SDK or hook error is another way out.
- The Pub/Sub SDK is modelled only through the state it keeps:
  - existing subscriptions, pulls and published messages;
  - the topic-path and subscription-path formats;
  - an `AlreadyExists` error for a taken path, and any other failure as
    an input.
  Credentials and the client objects are left out.
- `json.dumps` is a parameter (`dumps`) in `Client.Publisher.Publish`.
  In the verbose middleware, `VerboseLogging.Dump` describes the layout
  the call produces, with the string encoding `quote` as a parameter.
  JSON escaping itself is not modelled.
- Python's `repr` of the payload bytes and of the ordering key are the
  parameters `reprBytes` and `reprStr`. `str()` of a string key is the key
  itself.
- `Publisher.PUBLISH_TIMEOUT` (2 seconds) is not modelled. A timeout is an
  input outcome, `TimeoutError`.
- `UnrecoverableMiddleWare`'s other hooks are the inherited no-ops of
  `BaseMiddleware`, whose every hook does nothing. `BaseMiddleware`
  itself has no state and no behaviour to model, so it has no member.
- `LoggingMiddleware`, which the verbose middleware extends, is not part
  of this model.
- `Middleware.Registry.RegisterMiddleware`: an exception raised by a
  middleware's own `setup()` or constructor is not modelled. Only a
  failed import or class lookup stops registration.
- JSON numbers are integers only (`Messages.Json`'s `JInt`). Floats,
  which `json.loads` and `json.dumps` also handle, are not modelled.
- Integers are unbounded and Python's `int` is too, so no wrap-around is
  involved. `start_time` is a `real` that is passed along untouched.

## Findings

| source | as written | input that shows it | evidently intended | confidence | as-written member | corrected member |
|---|---|---|---|---|---|---|
| rele/retry_policy.py:25-29 | only a bound equal to 0 is rejected | `RetryPolicy(-10, -1)` is accepted | bounds greater than 0, as the class documents at lines 11-12 | not executed | RetryPolicies.NegativeBackoffAccepted | RetryPolicies.NewPositiveRetryPolicy |
