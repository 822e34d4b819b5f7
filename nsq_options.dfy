/**
 * Option resolution of the NSQ broker adapter: the pure parts of
 * broker/nsq/nsq.go. Address normalisation (NewBroker), consumer
 * attach-target choice, handler concurrency and max-in-flight defaults,
 * channel naming and the per-subscription consumer configuration.
 */
module NsqOptions {

  datatype Option<T> = None | Some(value: T)

  /** An error value produced by the NSQ client or by the codec. */
  datatype Error = Error(msg: string)

  /** The outcome of one client call that returns only an error. */
  datatype Outcome = Ok | Fail(err: Error)

  /** The outcome of one client call that returns a value or an error. */
  datatype Result<T> = Success(value: T) | Failure(err: Error)

  type Bytes = seq<bv8>

  /** The nsqd address used when no non-empty address is configured. */
  const DefaultNsqdAddr: string := "127.0.0.1:4150"

  /**
   * Initial value of the package variable that gives the default number of
   * concurrent handlers per subscription. Callers may reassign that
   * variable, so resolution takes the current default as a parameter.
   */
  const DefaultConcurrentHandlers: int := 1

  /** Suffix that marks a generated channel as ephemeral. */
  const EphemeralSuffix: string := "#ephemeral"

  /**
   * The NSQ client configuration shared by producers and consumers:
   * the max-in-flight window and the remaining free-form tuning flags.
   */
  datatype Config = Config(maxInFlight: int, tuning: map<string, string>)

  // ---------------------------------------------------------------------
  // Address normalisation (NewBroker)
  // ---------------------------------------------------------------------

  /** The non-empty addresses of `addrs`, in their original order. */
  function NonEmptyAddrs(addrs: seq<string>): (r: seq<string>)
    ensures |r| <= |addrs|
    ensures forall a :: a in r <==> a in addrs && a != ""
    ensures forall a :: a != "" ==> multiset(r)[a] == multiset(addrs)[a]
  {
    if addrs == [] then []
    else
      var init, last := addrs[..|addrs| - 1], addrs[|addrs| - 1];
      assert addrs == init + [last];
      NonEmptyAddrs(init) + (if last != "" then [last] else [])
  }

  /** Filtering distributes over concatenation, so relative order is kept. */
  lemma {:induction false} NonEmptyAddrsAppend(a: seq<string>, b: seq<string>)
    ensures NonEmptyAddrs(a + b) == NonEmptyAddrs(a) + NonEmptyAddrs(b)
    decreases |b|
  {
    if b == [] {
      assert a + b == a;
    } else {
      var init, last := b[..|b| - 1], b[|b| - 1];
      assert b == init + [last];
      assert (a + b)[..|a + b| - 1] == a + init;
      NonEmptyAddrsAppend(a, init);
    }
  }

  /** A single address is kept exactly when it is non-empty. */
  lemma NonEmptyAddrsSingleton(x: string)
    ensures NonEmptyAddrs([x]) == if x != "" then [x] else []
  {
    assert [x][..0] == [];
  }

  /** The nsqd address list a new broker is built with. */
  function NsqdTCPAddrs(addrs: seq<string>): (r: seq<string>)
    ensures r != []
    ensures (forall a :: a in addrs ==> a == "") ==> r == [DefaultNsqdAddr]
    ensures (exists a :: a in addrs && a != "") ==> r == NonEmptyAddrs(addrs)
  {
    var kept := NonEmptyAddrs(addrs);
    if |kept| == 0 then [DefaultNsqdAddr]
    else assert kept[0] in kept; kept
  }

  /** The append loop of NewBroker that filters the configured addresses. */
  method CollectNsqdAddrs(addrs: seq<string>) returns (r: seq<string>)
    ensures r == NsqdTCPAddrs(addrs)
  {
    r := [];
    var i := 0;
    while i < |addrs|
      invariant 0 <= i <= |addrs|
      invariant r == NonEmptyAddrs(addrs[..i])
    {
      assert addrs[..i + 1][..i] == addrs[..i];
      if |addrs[i]| > 0 {
        r := r + [addrs[i]];
      }
      i := i + 1;
    }
    assert addrs[..i] == addrs;
    if |r| == 0 {
      r := [DefaultNsqdAddr];
    }
  }

  // ---------------------------------------------------------------------
  // Consumer attach target
  // ---------------------------------------------------------------------

  /** Where a consumer is attached: the lookupd HTTP addresses or the nsqd TCP addresses. */
  datatype Target = Lookupds(addrs: seq<string>) | Nsqds(addrs: seq<string>)

  /** Lookupd addresses take precedence over nsqd addresses whenever there are any. */
  function AttachTarget(lookupd: seq<string>, nsqd: seq<string>): (t: Target)
    ensures t.Lookupds? <==> lookupd != []
    ensures t.Lookupds? ==> t.addrs == lookupd
    ensures t.Nsqds? ==> t.addrs == nsqd
    ensures nsqd != [] ==> t.addrs != []
  {
    if |lookupd| > 0 then Lookupds(lookupd) else Nsqds(nsqd)
  }

  // ---------------------------------------------------------------------
  // Subscribe options
  // ---------------------------------------------------------------------

  /**
   * The options Subscribe reads, already extracted from the caller's
   * option functions and context: auto-acknowledge, the queue (channel)
   * name, and the optional concurrent-handler and max-in-flight values.
   */
  datatype SubscribeOptions = SubscribeOptions(
    autoAck: bool,
    queue: string,
    concurrentHandlers: Option<int>,
    maxInFlight: Option<int>)

  /** The options Subscribe starts from before applying the caller's. */
  const DefaultSubscribeOptions: SubscribeOptions :=
    SubscribeOptions(true, "", None, None)

  /** The resolved handler count and max-in-flight window of a subscription. */
  datatype Handlers = Handlers(concurrency: int, maxInFlight: int)

  /**
   * Both values start at the current default `defaultHandlers`; the
   * concurrent-handler option sets both, then the max-in-flight option
   * overrides only the window.
   */
  function ResolveHandlers(o: SubscribeOptions, defaultHandlers: int): (h: Handlers)
    ensures h.concurrency == if o.concurrentHandlers.Some? then o.concurrentHandlers.value
                             else defaultHandlers
    ensures o.maxInFlight.None? ==> h.maxInFlight == h.concurrency
    ensures o.maxInFlight.Some? ==> h.maxInFlight == o.maxInFlight.value
  {
    var start := Handlers(defaultHandlers, defaultHandlers);
    var afterHandlers :=
      if o.concurrentHandlers.Some?
      then Handlers(o.concurrentHandlers.value, o.concurrentHandlers.value)
      else start;
    if o.maxInFlight.Some? then afterHandlers.(maxInFlight := o.maxInFlight.value)
    else afterHandlers
  }

  /**
   * While the default keeps its initial value, a subscription with no
   * options at all runs one handler with a window of one.
   */
  lemma DefaultHandlers()
    ensures ResolveHandlers(DefaultSubscribeOptions, DefaultConcurrentHandlers) == Handlers(1, 1)
  {
  }

  /** True when `name` ends with the ephemeral marker. */
  predicate IsEphemeral(name: string) {
    |name| >= |EphemeralSuffix| && name[|name| - |EphemeralSuffix|..] == EphemeralSuffix
  }

  /** The channel of a subscription: the queue name, or a fresh id marked ephemeral. */
  function ChannelName(queue: string, freshId: string): (ch: string)
    ensures queue != "" ==> ch == queue
    ensures queue == "" ==> IsEphemeral(ch) && ch[..|ch| - |EphemeralSuffix|] == freshId
  {
    if |queue| > 0 then queue else freshId + EphemeralSuffix
  }

  /** Two generated channels differ whenever their fresh ids differ. */
  lemma EphemeralChannelsDistinct(id1: string, id2: string)
    requires id1 != id2
    ensures ChannelName("", id1) != ChannelName("", id2)
    ensures IsEphemeral(ChannelName("", id1)) && IsEphemeral(ChannelName("", id2))
  {
  }

  /** The per-subscription copy of the client configuration. */
  function ConsumerConfig(base: Config, maxInFlight: int): (cfg: Config)
    ensures cfg.maxInFlight == maxInFlight
    ensures cfg.(maxInFlight := base.maxInFlight) == base
  {
    Config(maxInFlight, base.tuning)
  }

  // ---------------------------------------------------------------------
  // Publish options
  // ---------------------------------------------------------------------

  /** Identity of a caller-supplied channel that receives async publish results. */
  type TransactionSink = nat

  /** The options Publish reads: an optional completion channel and a delay in nanoseconds. */
  datatype PublishOptions = PublishOptions(doneChan: Option<TransactionSink>, delay: int)
}
