# NSQ broker adapter: a Dafny model

This project models the NSQ broker of `broker/nsq/nsq.go`. The broker is a
publish/subscribe facade over NSQ. It holds:

- a non-empty list of nsqd TCP addresses;
- an optional list of lookupd HTTP addresses;
- the shared NSQ client configuration;
- a `running` flag;
- a pool of producers (`p`);
- a list of subscriber records (`c`), which are kept across Disconnect.

Two modules, one per concern:

- `nsq_options.dfy`, module `NsqOptions`: the pure parts. These are address
  normalisation, the choice where a consumer attaches, handler concurrency and
  max-in-flight resolution, channel naming and the per-subscription copy of the
  configuration.
- `nsq_broker.dfy`, module `NsqBroker`: the broker as a `class Broker` whose
  methods update `running`, `p` and `c` in place. Subscriber records are objects
  of `class Subscriber`, and Connect overwrites their consumer handle in place.

Every NSQ client call is abstract. Its outcome is an input to the model:
`NewProducer`, `Ping`, `NewConsumer`, `ConnectToNSQDs`, `ConnectToNSQLookupds`,
the codec's `Marshal`, and the uuid generator.

- Connect takes a `ConnectEnv`. It holds the outcomes for the i-th producer
  address and for the j-th subscriber record.
- Subscribe takes the fresh id, the two outcomes, and the value that the
  package variable `DefaultConcurrentHandlers` has when it runs. The source
  declares that default as a reassignable `var` whose initial value is 1.
- Publish takes the marshal result, the send outcome and the random pick.

NewBroker builds its configuration with `nsq.NewConfig()` (nsq.go:344). The
Broker constructor takes that configuration as its `config` parameter, which
stands for the client library's default configuration.

Handles are values that record how they were made. A `Producer` records its
address. A `Consumer` records its topic, channel, configuration, handler count
and attach target. Disconnect returns the sequence of `Stop` and
`DisconnectFrom*` calls it issues.

The invariant `Broker.Valid()` says four things:

- the nsqd address list is non-empty;
- a running broker holds exactly one producer per nsqd address, in address order;
- a stopped broker holds none;
- subscriber records are distinct objects.

Every state-changing method preserves it.

Behaviour of the source that the model makes visible:

- When Connect fails on the k-th subscriber record, the consumers of records
  before k have already been replaced. They stay replaced, and so does record k's
  consumer when its nsqd attach failed. The producer pool and `running` are
  untouched.
- In Connect, a lookupd attach error is ignored. Only an nsqd attach error aborts.
  In Subscribe, both kinds of attach error are returned.
- Connect re-creates consumers with the shared configuration, not with the
  per-subscription copy that Subscribe made. After a reconnect, a consumer's
  max-in-flight window is therefore the shared value and not the subscription's
  (`ReconnectKeepsSubscription`).
- Connect replaces a record's consumer without stopping the one it replaces. The
  next Disconnect stops the new consumer and never the replaced one
  (`ReplacedConsumerNeverStopped`).
- Connect re-resolves the channel of every record. A record with a named queue
  keeps its channel. An ephemeral record gets a new `<uuid>#ephemeral` channel on
  every Connect, so its consumer moves away from the channel Subscribe created
  (`ReconnectKeepsSubscription`).
- Disconnect chooses between lookupd and nsqd detach calls by the lookupd list it
  reads when it runs (nsq.go:158). If Init sets a lookupd list after Connect, a
  consumer attached to nsqd is detached from the lookupd addresses instead
  (`InitAfterConnectDetachesFromLookupd`).

Three behaviours that a reader might expect of a broker adapter are absent from
the code. The model follows the code:

- A failed Connect does not roll back. It keeps the consumers it replaced before
  the failure.
- In Connect, a failed lookupd attach does not abort. The code ignores lookupd
  attach errors there.
- Publish does not check for an empty producer pool. It indexes with
  `rand.Intn(len(n.p))`, which panics on an empty pool, so `Publish` requires a
  non-empty pool.

## Model

| member | source | states |
|---|---|---|
| `NsqOptions.NonEmptyAddrs` | broker/nsq/nsq.go:329-335 | The result keeps an address exactly when it is in the input and non-empty. Each non-empty address keeps its multiplicity. |
| `NsqOptions.NonEmptyAddrsAppend` | broker/nsq/nsq.go:331-335 | Filtering distributes over concatenation, so the kept addresses stay in input order. |
| `NsqOptions.NonEmptyAddrsSingleton` | broker/nsq/nsq.go:332-334 | One address is kept exactly when it is non-empty. |
| `NsqOptions.NsqdTCPAddrs` | broker/nsq/nsq.go:329-339 | The address list is never empty. It is `["127.0.0.1:4150"]` when every input address is empty, and the filtered input otherwise. |
| `NsqOptions.CollectNsqdAddrs` | broker/nsq/nsq.go:329-339 | The append loop of NewBroker computes exactly `NsqdTCPAddrs` of its input. |
| `NsqOptions.AttachTarget` | broker/nsq/nsq.go:265-269 | Consumers attach to the lookupd addresses exactly when that list is non-empty, and to the nsqd addresses otherwise. With non-empty nsqd addresses the target is never empty. |
| `NsqOptions.ResolveHandlers` | broker/nsq/nsq.go:224-232 | The concurrency is the concurrent-handler option, or the current default handler count. The max-in-flight window is the max-in-flight option, or the concurrency when that option is absent. |
| `NsqOptions.DefaultHandlers` | broker/nsq/nsq.go:48-50 | While the default keeps its initial value 1, a subscription with the default options runs 1 handler with a window of 1. |
| `NsqOptions.ChannelName` | broker/nsq/nsq.go:233-236 | The channel is the queue name when it is non-empty. Otherwise it is the fresh id followed by `#ephemeral`. |
| `NsqOptions.EphemeralChannelsDistinct` | broker/nsq/nsq.go:233-236 | Generated channels with different fresh ids differ, and both carry the ephemeral marker. |
| `NsqOptions.ConsumerConfig` | broker/nsq/nsq.go:237-238 | The per-subscription configuration equals the shared one except that MaxInFlight is the resolved window. |
| `NsqBroker.ProducerStep` | broker/nsq/nsq.go:100-106 | One producer step succeeds exactly when NewProducer and Ping both succeed. A NewProducer error is returned without calling Ping. Otherwise the outcome is Ping's. |
| `NsqBroker.Subscriber.constructor` | broker/nsq/nsq.go:274-280 | A new record holds the given topic, options, handler count and consumer. |
| `NsqBroker.FirstProducerFailure` | broker/nsq/nsq.go:99-108 | Gives the first address whose NewProducer or Ping fails, or the address count when none fails. Every earlier address succeeded. |
| `NsqBroker.OpenProducers` | broker/nsq/nsq.go:96-108 | Returns the error of the first failing producer step. Otherwise returns one producer per address, in order. |
| `NsqBroker.StopAll` | broker/nsq/nsq.go:149-152 | Issues one Stop call per producer of the pool, in pool order. |
| `NsqBroker.StopProducers` | broker/nsq/nsq.go:149-152 | The producer loop of Disconnect computes exactly `StopAll` of the pool. |
| `NsqBroker.StopConsumers` | broker/nsq/nsq.go:154-169 | The subscriber loop of Disconnect stops each record's consumer and then detaches it, in record order. It computes exactly `Teardown` for the lookupd-or-nsqd target. |
| `NsqBroker.Detach` | broker/nsq/nsq.go:159-167 | One detach call is for the given consumer and address. It is a lookupd detach exactly when the target is lookupd, and an nsqd detach otherwise. |
| `NsqBroker.TeardownLength` | broker/nsq/nsq.go:154-169 | The consumer loop of Disconnect issues one stop plus one detach per target address for each record, `|subs| * (1 + |addrs|)` calls in all. |
| `NsqBroker.TeardownAt` | broker/nsq/nsq.go:154-169 | Record j's calls are the j-th block of `1 + |addrs|`. The block holds its consumer's stop at index `j * (1 + |addrs|)`, then its detach from the i-th target address at index `j * (1 + |addrs|) + 1 + i`. |
| `NsqBroker.DetachAll` | broker/nsq/nsq.go:158-168 | Issues one detach call per target address, in order, of the kind the target selects. |
| `NsqBroker.DetachCalls` | broker/nsq/nsq.go:158-168 | The two detach loops of Disconnect compute exactly `DetachAll` for the lookupd-or-nsqd target. |
| `NsqBroker.TeardownReleasesEveryConsumer` | broker/nsq/nsq.go:154-169 | Every record's consumer is stopped, and is detached from every address of the target. |
| `NsqBroker.TeardownMatchesTarget` | broker/nsq/nsq.go:154-169 | Teardown issues only consumer stops and detach calls. A lookupd detach happens only when lookupd is configured, an nsqd detach only when it is not, and both stay within the target addresses. |
| `NsqBroker.Broker.Valid` | broker/nsq/nsq.go:17-26 | The broker invariant has four parts: non-empty nsqd addresses, one producer per address in order while running, no producers while stopped, distinct records. It implies that `running` holds exactly when the pool is non-empty. |
| `NsqBroker.Broker.constructor` | broker/nsq/nsq.go:317-346 | NewBroker yields a valid, stopped broker with `NsqdTCPAddrs` of the configured addresses, no lookupd addresses, no producers and no records. |
| `NsqBroker.Broker.Init` | broker/nsq/nsq.go:57-78 | A given lookupd list replaces the current one, and a given resolved configuration replaces the shared one. The connection state is unchanged. |
| `NsqBroker.Broker.Address` | broker/nsq/nsq.go:84-86 | The advertised address is one of the configured nsqd addresses. |
| `NsqBroker.Broker.Reattach` | broker/nsq/nsq.go:111-133 | For one record, Connect re-creates a consumer for the record's topic, with the re-resolved channel, the shared configuration and the record's handler count, attached to the lookupd-or-nsqd target. Creation can fail, and only an nsqd attach failure counts. |
| `NsqBroker.Broker.FirstReattachFailure` | broker/nsq/nsq.go:111-134 | Gives the first record whose consumer cannot be re-created, or the record count. Every earlier record was re-attached. |
| `NsqBroker.Broker.ReattachConsumers` | broker/nsq/nsq.go:110-134 | Records before the first failure get their new consumer. Later records keep the old one. The failing record's consumer is replaced only when its attach failed. Returns the failing step's error. |
| `NsqBroker.Broker.Connect` | broker/nsq/nsq.go:88-139 | When already running, nothing changes. A producer failure returns its error with nothing changed. A record failure returns its error with `p` and `running` unchanged. On success there is one producer per nsqd address and `running` is true. Records are never added or removed. |
| `NsqBroker.Broker.Disconnect` | broker/nsq/nsq.go:141-174 | When not running, it issues no calls. Otherwise it stops every producer, then stops and detaches every record's consumer. It ends with `p == []` and `running == false`, and the records, lookupd list and configuration are unchanged. |
| `NsqBroker.Broker.Publish` | broker/nsq/nsq.go:176-213 | Needs a non-empty pool and uses the producer at the drawn index. A marshal error is returned before any send. Otherwise it makes exactly one send: async exactly when a completion channel is given, deferred exactly when the delay is positive. The send carries the topic, the marshalled body, the delay and the channel, and returns the send's outcome. |
| `NsqBroker.Broker.PublishTargetsConfiguredAddress` | broker/nsq/nsq.go:176-177 | On a running broker, every send goes to a producer of a configured nsqd address. |
| `NsqBroker.Broker.SubscribeConsumer` | broker/nsq/nsq.go:233-269 | The Subscribe consumer has the topic and the queue-or-ephemeral channel. Its handler count is the option or the current default. Its window is the max-in-flight option or the handler count. Its tuning is the shared configuration's. It targets lookupd when configured and nsqd otherwise. |
| `NsqBroker.Broker.Subscribe` | broker/nsq/nsq.go:215-285 | A consumer-creation or attach failure returns that error and adds no record. On success, exactly one fresh record is appended. It holds the topic, the options and the resolved concurrency. Its consumer has the resolved channel, the window-overridden configuration and the lookupd-or-nsqd target. |
| `NsqBroker.ReconnectKeepsSubscription` | broker/nsq/nsq.go:110-124 | After Subscribe, Connect, Disconnect and Connect, the broker is running. The record's consumer has the same topic and handler count, and the shared max-in-flight window. A named queue keeps its channel. An ephemeral subscription subscribed on `id-0#ephemeral` ends on `id-1#ephemeral`, a different channel. |
| `NsqBroker.InitAfterConnectDetachesFromLookupd` | broker/nsq/nsq.go:154-169 | A consumer attached to nsqd at Connect is detached from the lookupd address that a later Init set, and no nsqd detach is issued. |
| `NsqBroker.ReplacedConsumerNeverStopped` | broker/nsq/nsq.go:117-124 | After Subscribe with a window of 4, Connect and Disconnect, Disconnect stops the consumer Connect created. It never stops the Subscribe consumer that Connect replaced, which differs from the new one. |

## Left out

- Locking with `sync.Mutex`: Connect and Disconnect are modelled as atomic sequential methods.
- The unlocked append in Subscribe (nsq.go:282): Subscribe adds its record without taking the broker's lock, while Connect and Disconnect take it. The model runs every operation atomically, so it does not show the resulting race.
- `rand.Intn` in Publish and Address: the random draw is an arbitrary `pick`, reduced modulo the list length.
- Uuid generation: each fresh id is a string input.
- The codec (`Marshal`/`Unmarshal`): Publish takes the marshal result as an input.
- The message handler shim (lines 245-261): decoding, `DisableAutoResponse` and handler invocation run on client worker goroutines inside the go-nsq client library. Subscriber records therefore do not hold the handler `h`, and `AddConcurrentHandlers` is recorded only as the consumer's handler count.
- `initByContext`: the context-value lookups and the parsing of consumer options by `ConfigFlag.Set` are not modelled. Init takes the already-resolved lookupd list and configuration instead.
- The registration in `cmd.DefaultBrokers`, `Options`, `String`, the publication and subscriber getters, `Ack` and `Unsubscribe`: trivial getters and single client calls with no broker state.
- The option-function plumbing (`broker.Option`, `SubscribeOption`, `PublishOption`): operations take the resolved options as typed values.
- Errors from `Stop` and `DisconnectFrom*`: the source discards them. Disconnect records these calls and always succeeds.
- `NsqBroker.Broker.Publish`: the source panics on an empty pool. The model states this as a precondition rather than as a failure.
- Handle identity: producers and consumers are values, so two handles made with the same parameters are equal in the model. There is no table of open handles, so the model cannot state that a handle stays open. A leaked handle shows only as a handle that no Stop call names: producers opened before a failed Connect, a Subscribe consumer whose attach failed, and consumers replaced by Connect. `ReplacedConsumerNeverStopped` shows the last case.
- `NsqBroker.Producer`: a producer does not record the configuration it was created with.
