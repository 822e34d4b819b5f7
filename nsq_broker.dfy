/**
 * The NSQ broker of broker/nsq/nsq.go: its connection state (`running`,
 * the producer pool `p`, the subscriber records `c`) and the operations
 * NewBroker, Init, Connect, Disconnect, Publish, Subscribe and Address.
 *
 * Every call into the NSQ client (NewProducer, Ping, NewConsumer,
 * ConnectToNSQDs / ConnectToNSQLookupds, the publish calls) is abstract:
 * its outcome is an input. Handles are values describing how they were
 * made, and Disconnect returns the client calls it issues.
 */
module NsqBroker {
  import opened NsqOptions

  /** A producer handle, opened on one nsqd address. */
  datatype Producer = Producer(addr: string)

  /**
   * A consumer handle: the topic and channel it was created for, the
   * client configuration it was created with, the number of concurrent
   * handlers added to it, and the addresses it was asked to attach to.
   */
  datatype Consumer = Consumer(
    topic: string,
    channel: string,
    config: Config,
    concurrency: int,
    target: Target)

  /** The client calls Disconnect issues. */
  datatype Call =
    | StopProducer(producer: Producer)
    | StopConsumer(consumer: Consumer)
    | DisconnectFromNSQLookupd(consumer: Consumer, addr: string)
    | DisconnectFromNSQD(consumer: Consumer, addr: string)

  /** The four send operations of a producer. */
  datatype Send =
    | DeferredPublishAsync(producer: Producer, topic: string, delay: int, body: Bytes, done: TransactionSink)
    | PublishAsync(producer: Producer, topic: string, body: Bytes, done: TransactionSink)
    | DeferredPublish(producer: Producer, topic: string, delay: int, body: Bytes)
    | PublishSync(producer: Producer, topic: string, body: Bytes)
  {
    /** The send reports completion on a caller-supplied channel. */
    predicate IsAsync() { DeferredPublishAsync? || PublishAsync? }

    /** The send delays visibility of the message. */
    predicate IsDeferred() { DeferredPublishAsync? || DeferredPublish? }
  }

  /** What Publish does: fail in the codec, or make one send with the given outcome. */
  datatype PublishResult = MarshalFailed(err: Error) | Sent(send: Send, outcome: Outcome)

  /**
   * The outcomes of the client calls Connect makes: producer creation and
   * ping for the i-th nsqd address, and the fresh id, consumer creation and
   * nsqd attach for the j-th subscriber record.
   */
  datatype ConnectEnv = ConnectEnv(
    newProducer: nat -> Outcome,
    ping: nat -> Outcome,
    freshId: nat -> string,
    newConsumer: nat -> Outcome,
    attach: nat -> Outcome)

  /**
   * Opening and pinging the producer of the i-th address. The step succeeds
   * exactly when both calls do; Ping is not reached when NewProducer fails.
   */
  function ProducerStep(env: ConnectEnv, i: nat): (r: Outcome)
    ensures r.Ok? <==> env.newProducer(i).Ok? && env.ping(i).Ok?
    ensures env.newProducer(i).Fail? ==> r == env.newProducer(i)
    ensures env.newProducer(i).Ok? ==> r == env.ping(i)
  {
    if env.newProducer(i).Fail? then env.newProducer(i) else env.ping(i)
  }

  /** The first address in [from, n) whose producer step fails, or n when none does. */
  function FirstProducerFailure(env: ConnectEnv, n: nat, from: nat): (k: nat)
    requires from <= n
    ensures from <= k <= n
    ensures forall i :: from <= i < k ==> ProducerStep(env, i).Ok?
    ensures k < n ==> ProducerStep(env, k).Fail?
    decreases n - from
  {
    if from == n then n
    else if ProducerStep(env, from).Fail? then from
    else FirstProducerFailure(env, n, from + 1)
  }

  /** What re-creating the consumer of one subscriber record gives during Connect. */
  datatype ReattachResult =
    | CreateFailed(err: Error)
    | AttachFailed(consumer: Consumer, err: Error)
    | Attached(consumer: Consumer)

  /** A subscriber record; Connect replaces its consumer handle in place. */
  class Subscriber {
    const topic: string
    const opts: SubscribeOptions
    const n: int
    var consumer: Consumer

    constructor (topic: string, opts: SubscribeOptions, n: int, consumer: Consumer)
      ensures this.topic == topic && this.opts == opts && this.n == n
      ensures this.consumer == consumer
    {
      this.topic := topic;
      this.opts := opts;
      this.n := n;
      this.consumer := consumer;
    }
  }

  /** Stopping every producer of the pool, in order. */
  function StopAll(ps: seq<Producer>): (calls: seq<Call>)
    ensures |calls| == |ps|
    ensures forall i :: 0 <= i < |ps| ==> calls[i] == StopProducer(ps[i])
  {
    if ps == [] then [] else StopAll(ps[..|ps| - 1]) + [StopProducer(ps[|ps| - 1])]
  }

  /** Detaching one consumer from one address of the target. */
  function Detach(cm: Consumer, t: Target, addr: string): (r: Call)
    ensures r.DisconnectFromNSQLookupd? || r.DisconnectFromNSQD?
    ensures r.DisconnectFromNSQLookupd? <==> t.Lookupds?
    ensures r.consumer == cm && r.addr == addr
  {
    if t.Lookupds? then DisconnectFromNSQLookupd(cm, addr) else DisconnectFromNSQD(cm, addr)
  }

  /** Detaching one consumer from every address of the target, in order. */
  function DetachAll(cm: Consumer, t: Target): (calls: seq<Call>)
    ensures |calls| == |t.addrs|
    ensures forall i :: 0 <= i < |t.addrs| ==> calls[i] == Detach(cm, t, t.addrs[i])
  {
    seq(|t.addrs|, i requires 0 <= i < |t.addrs| => Detach(cm, t, t.addrs[i]))
  }

  /** Stopping and detaching the consumer of every subscriber record, in order. */
  function Teardown(subs: seq<Subscriber>, t: Target): seq<Call>
    reads subs
  {
    if subs == [] then []
    else
      var last := subs[|subs| - 1];
      Teardown(subs[..|subs| - 1], t) + [StopConsumer(last.consumer)] + DetachAll(last.consumer, t)
  }

  /** Each record contributes one stop and one detach per target address. */
  lemma {:induction false} TeardownLength(subs: seq<Subscriber>, t: Target)
    ensures |Teardown(subs, t)| == |subs| * (1 + |t.addrs|)
    decreases |subs|
  {
    if subs != [] {
      TeardownLength(subs[..|subs| - 1], t);
      assert |subs| * (1 + |t.addrs|) == (|subs| - 1) * (1 + |t.addrs|) + (1 + |t.addrs|);
    }
  }

  /**
   * The calls for record j form the j-th block of 1 + |t.addrs| calls: its
   * consumer's stop, then its detach from each target address in order.
   */
  lemma {:induction false} TeardownAt(subs: seq<Subscriber>, t: Target, j: nat, i: nat)
    requires j < |subs| && i < |t.addrs|
    ensures j * (1 + |t.addrs|) + 1 + i < |Teardown(subs, t)|
    ensures Teardown(subs, t)[j * (1 + |t.addrs|)] == StopConsumer(subs[j].consumer)
    ensures Teardown(subs, t)[j * (1 + |t.addrs|) + 1 + i] == Detach(subs[j].consumer, t, t.addrs[i])
    decreases |subs|
  {
    var init, last := subs[..|subs| - 1], subs[|subs| - 1];
    var pre, block := Teardown(init, t), [StopConsumer(last.consumer)] + DetachAll(last.consumer, t);
    assert Teardown(subs, t) == pre + block;
    TeardownLength(init, t);
    if j == |subs| - 1 {
      assert |pre| == j * (1 + |t.addrs|);
      assert block[1 + i] == Detach(last.consumer, t, t.addrs[i]);
    } else {
      assert init[j] == subs[j];
      TeardownAt(init, t, j, i);
    }
  }

  /** Every record's consumer is stopped and detached from every target address. */
  lemma {:induction false} TeardownReleasesEveryConsumer(subs: seq<Subscriber>, t: Target, j: nat)
    requires j < |subs|
    ensures StopConsumer(subs[j].consumer) in Teardown(subs, t)
    ensures forall a :: a in t.addrs ==> Detach(subs[j].consumer, t, a) in Teardown(subs, t)
    decreases |subs|
  {
    var init, last := subs[..|subs| - 1], subs[|subs| - 1];
    var tail := [StopConsumer(last.consumer)] + DetachAll(last.consumer, t);
    assert Teardown(subs, t) == Teardown(init, t) + tail;
    if j == |subs| - 1 {
      assert tail[0] == StopConsumer(last.consumer);
      forall a | a in t.addrs
        ensures Detach(last.consumer, t, a) in Teardown(subs, t)
      {
        var i :| 0 <= i < |t.addrs| && t.addrs[i] == a;
        assert tail[1 + i] == Detach(last.consumer, t, a);
      }
    } else {
      assert init[j] == subs[j];
      TeardownReleasesEveryConsumer(init, t, j);
    }
  }

  /**
   * Teardown only stops consumers and detaches from the target's own
   * addresses, using the lookupd call exactly when the target is lookupd.
   */
  lemma {:induction false} TeardownMatchesTarget(subs: seq<Subscriber>, t: Target, call: Call)
    requires call in Teardown(subs, t)
    ensures call.StopConsumer? || call.DisconnectFromNSQLookupd? || call.DisconnectFromNSQD?
    ensures call.DisconnectFromNSQLookupd? ==> t.Lookupds? && call.addr in t.addrs
    ensures call.DisconnectFromNSQD? ==> t.Nsqds? && call.addr in t.addrs
    decreases |subs|
  {
    var init, last := subs[..|subs| - 1], subs[|subs| - 1];
    var detach := DetachAll(last.consumer, t);
    assert Teardown(subs, t) == Teardown(init, t) + [StopConsumer(last.consumer)] + detach;
    if call in Teardown(init, t) {
      TeardownMatchesTarget(init, t, call);
    } else if call in detach {
      var i :| 0 <= i < |detach| && detach[i] == call;
      assert call == Detach(last.consumer, t, t.addrs[i]);
    }
  }

  /**
   * The detach loop of Disconnect for one consumer: one call per lookupd
   * address when there are any, otherwise one per nsqd address.
   */
  method DetachCalls(cm: Consumer, lookupd: seq<string>, nsqd: seq<string>) returns (detach: seq<Call>)
    ensures detach == DetachAll(cm, AttachTarget(lookupd, nsqd))
  {
    detach := [];
    if |lookupd| > 0 {
      var k := 0;
      while k < |lookupd|
        invariant 0 <= k <= |lookupd|
        invariant |detach| == k
        invariant forall m :: 0 <= m < k ==> detach[m] == DisconnectFromNSQLookupd(cm, lookupd[m])
      {
        detach := detach + [DisconnectFromNSQLookupd(cm, lookupd[k])];
        k := k + 1;
      }
    } else {
      var k := 0;
      while k < |nsqd|
        invariant 0 <= k <= |nsqd|
        invariant |detach| == k
        invariant forall m :: 0 <= m < k ==> detach[m] == DisconnectFromNSQD(cm, nsqd[m])
      {
        detach := detach + [DisconnectFromNSQD(cm, nsqd[k])];
        k := k + 1;
      }
    }
  }

  /**
   * The producer loop of Connect: open and ping one producer per address,
   * in order, and give up at the first failure with its error.
   */
  method OpenProducers(addrs: seq<string>, env: ConnectEnv) returns (r: Result<seq<Producer>>)
    ensures var k := FirstProducerFailure(env, |addrs|, 0);
      && (k < |addrs| ==> r == Failure(ProducerStep(env, k).err))
      && (k == |addrs| ==>
            && r.Success? && |r.value| == |addrs|
            && forall i :: 0 <= i < |addrs| ==> r.value[i] == Producer(addrs[i]))
  {
    var producers: seq<Producer> := [];
    var i := 0;
    while i < |addrs|
      invariant 0 <= i <= |addrs|
      invariant forall i' :: 0 <= i' < i ==> ProducerStep(env, i').Ok?
      invariant |producers| == i
      invariant forall i' :: 0 <= i' < i ==> producers[i'] == Producer(addrs[i'])
    {
      var created := env.newProducer(i);
      if created.Fail? {
        assert ProducerStep(env, i) == created;
        return Failure(created.err);
      }
      var pinged := env.ping(i);
      if pinged.Fail? {
        assert ProducerStep(env, i) == pinged;
        return Failure(pinged.err);
      }
      producers := producers + [Producer(addrs[i])];
      i := i + 1;
    }
    r := Success(producers);
  }

  /** The producer loop of Disconnect: one Stop call per producer, in order. */
  method StopProducers(ps: seq<Producer>) returns (calls: seq<Call>)
    ensures calls == StopAll(ps)
  {
    calls := [];
    var i := 0;
    while i < |ps|
      invariant 0 <= i <= |ps|
      invariant calls == StopAll(ps[..i])
    {
      assert ps[..i + 1][..i] == ps[..i];
      calls := calls + [StopProducer(ps[i])];
      i := i + 1;
    }
    assert ps[..i] == ps;
  }

  /**
   * The subscriber loop of Disconnect: stop each record's consumer, then
   * detach it from every address of the lookupd-or-nsqd target.
   */
  method StopConsumers(subs: seq<Subscriber>, lookupd: seq<string>, nsqd: seq<string>)
    returns (calls: seq<Call>)
    ensures calls == Teardown(subs, AttachTarget(lookupd, nsqd))
  {
    calls := [];
    var j := 0;
    while j < |subs|
      invariant 0 <= j <= |subs|
      invariant calls == Teardown(subs[..j], AttachTarget(lookupd, nsqd))
    {
      var cm := subs[j].consumer;
      var detach := DetachCalls(cm, lookupd, nsqd);
      assert subs[..j + 1][..j] == subs[..j];
      calls := calls + [StopConsumer(cm)] + detach;
      j := j + 1;
    }
    assert subs[..j] == subs;
  }

  class Broker {
    /** The nsqd TCP addresses: fixed by NewBroker, never empty. */
    const nsqdTCPAddrs: seq<string>
    /** The lookupd HTTP addresses; when non-empty, consumers attach through them. */
    var lookupdHTTPAddrs: seq<string>
    /** The shared NSQ client configuration. */
    var config: Config
    var running: bool
    /** The producer pool. */
    var p: seq<Producer>
    /** The subscriber records, kept across Disconnect. */
    var c: seq<Subscriber>

    /**
     * The connection invariant: the nsqd address list is non-empty; a
     * running broker holds one producer per nsqd address, in address order;
     * a stopped one holds none. Subscriber records are distinct objects.
     * Hence a valid broker is running exactly when it has producers.
     */
    ghost predicate Valid()
      reads this
      ensures Valid() ==> (running <==> |p| > 0)
    {
      && |nsqdTCPAddrs| > 0
      && (running ==> |p| == |nsqdTCPAddrs| && forall i :: 0 <= i < |p| ==> p[i] == Producer(nsqdTCPAddrs[i]))
      && (!running ==> p == [])
      && (forall i, j :: 0 <= i < j < |c| ==> c[i] != c[j])
    }

    /** NewBroker: keep the non-empty addresses, or fall back to the default one. */
    constructor (addrs: seq<string>, config: Config)
      ensures Valid()
      ensures nsqdTCPAddrs == NsqdTCPAddrs(addrs)
      ensures lookupdHTTPAddrs == [] && this.config == config
      ensures !running && p == [] && c == []
    {
      var filtered := CollectNsqdAddrs(addrs);
      nsqdTCPAddrs := filtered;
      lookupdHTTPAddrs := [];
      this.config := config;
      running := false;
      p := [];
      c := [];
    }

    /**
     * Init, with the context values already extracted: a lookupd address
     * list replaces the current one, and a resolved client configuration
     * replaces the shared one.
     */
    method Init(lookupd: Option<seq<string>>, consumerConfig: Option<Config>)
      requires Valid()
      modifies this
      ensures Valid()
      ensures lookupdHTTPAddrs == if lookupd.Some? then lookupd.value else old(lookupdHTTPAddrs)
      ensures config == if consumerConfig.Some? then consumerConfig.value else old(config)
      ensures running == old(running) && p == old(p) && c == old(c)
    {
      if lookupd.Some? {
        lookupdHTTPAddrs := lookupd.value;
      }
      if consumerConfig.Some? {
        config := consumerConfig.value;
      }
    }

    /** Address: one of the configured nsqd addresses, chosen by `pick`. */
    function Address(pick: nat): (a: string)
      requires |nsqdTCPAddrs| > 0
      ensures a in nsqdTCPAddrs
    {
      nsqdTCPAddrs[pick % |nsqdTCPAddrs|]
    }

    /**
     * Re-creating the consumer of record j during Connect: the channel is
     * re-resolved, the shared configuration is used, and only an nsqd
     * attach can fail (a lookupd attach error is ignored).
     */
    function Reattach(j: nat, env: ConnectEnv): (r: ReattachResult)
      reads this`c, this`config, this`lookupdHTTPAddrs
      requires j < |c|
      ensures r.CreateFailed? <==> env.newConsumer(j).Fail?
      ensures r.AttachFailed? <==> env.newConsumer(j).Ok? && lookupdHTTPAddrs == [] && env.attach(j).Fail?
      ensures !r.CreateFailed? ==>
        && r.consumer.topic == c[j].topic
        && r.consumer.channel == ChannelName(c[j].opts.queue, env.freshId(j))
        && r.consumer.config == config
        && r.consumer.concurrency == c[j].n
        && r.consumer.target == AttachTarget(lookupdHTTPAddrs, nsqdTCPAddrs)
    {
      var s := c[j];
      if env.newConsumer(j).Fail? then CreateFailed(env.newConsumer(j).err)
      else
        var cm := Consumer(s.topic, ChannelName(s.opts.queue, env.freshId(j)), config, s.n,
                           AttachTarget(lookupdHTTPAddrs, nsqdTCPAddrs));
        if |lookupdHTTPAddrs| == 0 && env.attach(j).Fail? then AttachFailed(cm, env.attach(j).err)
        else Attached(cm)
    }

    /** The first record in [from, |c|) whose consumer cannot be re-created, or |c|. */
    function FirstReattachFailure(env: ConnectEnv, from: nat): (k: nat)
      reads this`c, this`config, this`lookupdHTTPAddrs
      requires from <= |c|
      ensures from <= k <= |c|
      ensures forall j :: from <= j < k ==> Reattach(j, env).Attached?
      ensures k < |c| ==> !Reattach(k, env).Attached?
      decreases |c| - from
    {
      if from == |c| then |c|
      else if !Reattach(from, env).Attached? then from
      else FirstReattachFailure(env, from + 1)
    }

    /**
     * The consumer loop of Connect: re-create the consumer of every record
     * in order, replacing its handle, and stop at the first record whose
     * consumer cannot be created or attached to nsqd. Records before the
     * failing one keep their new handles.
     */
    method ReattachConsumers(env: ConnectEnv) returns (err: Option<Error>)
      requires Valid()
      modifies c
      ensures var k := FirstReattachFailure(env, 0);
        && (forall j :: 0 <= j < k ==> c[j].consumer == Reattach(j, env).consumer)
        && (forall j :: k < j < |c| ==> c[j].consumer == old(c[j].consumer))
        && (k < |c| ==>
              && err == Some(Reattach(k, env).err)
              && c[k].consumer == if Reattach(k, env).AttachFailed? then Reattach(k, env).consumer
                                  else old(c[k].consumer))
        && (k == |c| ==> err == None)
    {
      var j := 0;
      while j < |c|
        invariant 0 <= j <= |c|
        invariant forall k :: 0 <= k < j ==> Reattach(k, env).Attached?
        invariant forall k :: 0 <= k < j ==> c[k].consumer == Reattach(k, env).consumer
        invariant forall k :: j <= k < |c| ==> c[k].consumer == old(c[k].consumer)
      {
        var s := c[j];
        var channel := ChannelName(s.opts.queue, env.freshId(j));
        var created := env.newConsumer(j);
        if created.Fail? {
          assert Reattach(j, env) == CreateFailed(created.err);
          return Some(created.err);
        }
        assert forall k :: 0 <= k < |c| && k != j ==> c[k] != s;
        // AddConcurrentHandlers(s.h, s.n) is recorded as the consumer's concurrency.
        s.consumer := Consumer(s.topic, channel, config, s.n,
                               AttachTarget(lookupdHTTPAddrs, nsqdTCPAddrs));
        if |lookupdHTTPAddrs| == 0 {
          var attached := env.attach(j);
          if attached.Fail? {
            assert Reattach(j, env) == AttachFailed(s.consumer, attached.err);
            return Some(attached.err);
          }
        }
        // With lookupd addresses, the outcome of ConnectToNSQLookupds is not looked at.
        assert Reattach(j, env) == Attached(s.consumer);
        j := j + 1;
      }
      err := None;
    }

    /**
     * Connect: a no-op when running. Otherwise open and ping one producer
     * per nsqd address, then re-create and re-attach the consumer of every
     * subscriber record; commit the producers and set `running` only if
     * every step succeeded.
     */
    method Connect(env: ConnectEnv) returns (err: Option<Error>)
      requires Valid()
      modifies this, c
      ensures Valid()
      ensures c == old(c) && lookupdHTTPAddrs == old(lookupdHTTPAddrs) && config == old(config)
      ensures old(running) ==>
        && err == None && running && p == old(p)
        && forall j :: 0 <= j < |c| ==> c[j].consumer == old(c[j].consumer)
      ensures !old(running) && FirstProducerFailure(env, |nsqdTCPAddrs|, 0) < |nsqdTCPAddrs| ==>
        && err == Some(ProducerStep(env, FirstProducerFailure(env, |nsqdTCPAddrs|, 0)).err)
        && !running && p == []
        && forall j :: 0 <= j < |c| ==> c[j].consumer == old(c[j].consumer)
      ensures !old(running) && FirstProducerFailure(env, |nsqdTCPAddrs|, 0) == |nsqdTCPAddrs| ==>
        var k := FirstReattachFailure(env, 0);
        && (forall j :: 0 <= j < k ==> c[j].consumer == Reattach(j, env).consumer)
        && (forall j :: k < j < |c| ==> c[j].consumer == old(c[j].consumer))
        && (k < |c| ==>
              && err == Some(Reattach(k, env).err) && !running && p == []
              && c[k].consumer == if Reattach(k, env).AttachFailed? then Reattach(k, env).consumer
                                  else old(c[k].consumer))
        && (k == |c| ==>
              && err == None && running && |p| == |nsqdTCPAddrs|
              && forall i :: 0 <= i < |p| ==> p[i] == Producer(nsqdTCPAddrs[i]))
    {
      if running {
        return None;
      }
      var pool := OpenProducers(nsqdTCPAddrs, env);
      if pool.Failure? {
        return Some(pool.err);
      }
      err := ReattachConsumers(env);
      if err.Some? {
        return;
      }
      label Attached:
      p := pool.value;
      running := true;
      assert FirstReattachFailure(env, 0) == old@Attached(FirstReattachFailure(env, 0));
    }

    /**
     * Disconnect: a no-op when not running. Otherwise stop every producer,
     * stop every record's consumer and detach it from every lookupd address
     * (or every nsqd address when there are none), then clear the pool.
     * The records themselves stay. The calls issued are returned.
     */
    method Disconnect() returns (calls: seq<Call>)
      requires Valid()
      modifies this
      ensures Valid()
      ensures c == old(c) && lookupdHTTPAddrs == old(lookupdHTTPAddrs) && config == old(config)
      ensures !running && p == []
      ensures old(running) ==>
        calls == StopAll(old(p)) + Teardown(c, AttachTarget(lookupdHTTPAddrs, nsqdTCPAddrs))
      ensures !old(running) ==> calls == []
    {
      if !running {
        return [];
      }

      var stops := StopProducers(p);
      var teardown := StopConsumers(c, lookupdHTTPAddrs, nsqdTCPAddrs);
      calls := stops + teardown;
      p := [];
      running := false;
    }

    /**
     * Publish: needs a non-empty pool (the producer index is drawn from
     * [0, |p|)); a marshal failure is returned before any send; otherwise
     * exactly one send is made, chosen by (completion channel present,
     * delay > 0), and its outcome is returned.
     */
    function Publish(topic: string, pick: nat, opts: PublishOptions, marshal: Result<Bytes>,
                     sendOutcome: Outcome): (r: PublishResult)
      reads this
      requires |p| > 0
      ensures marshal.Failure? ==> r == MarshalFailed(marshal.err)
      ensures marshal.Success? ==>
        && r.Sent? && r.outcome == sendOutcome
        && r.send.producer == p[pick % |p|] && r.send.topic == topic && r.send.body == marshal.value
      ensures r.Sent? ==> (r.send.IsAsync() <==> opts.doneChan.Some?)
      ensures r.Sent? ==> (r.send.IsDeferred() <==> opts.delay > 0)
      ensures r.Sent? && r.send.IsAsync() ==> opts.doneChan.Some? && r.send.done == opts.doneChan.value
      ensures r.Sent? && r.send.IsDeferred() ==> r.send.delay == opts.delay
    {
      var prod := p[pick % |p|];
      match marshal
      case Failure(e) => MarshalFailed(e)
      case Success(b) =>
        if opts.doneChan.Some? then
          if opts.delay > 0 then Sent(DeferredPublishAsync(prod, topic, opts.delay, b, opts.doneChan.value), sendOutcome)
          else Sent(PublishAsync(prod, topic, b, opts.doneChan.value), sendOutcome)
        else
          if opts.delay > 0 then Sent(DeferredPublish(prod, topic, opts.delay, b), sendOutcome)
          else Sent(PublishSync(prod, topic, b), sendOutcome)
    }

    /** On a connected broker, every send goes to a producer of a configured nsqd address. */
    lemma PublishTargetsConfiguredAddress(topic: string, pick: nat, opts: PublishOptions,
                                          marshal: Result<Bytes>, sendOutcome: Outcome)
      requires Valid() && running
      ensures |p| > 0
      ensures var r := Publish(topic, pick, opts, marshal, sendOutcome);
        r.Sent? ==> r.send.producer.addr in nsqdTCPAddrs
    {
    }

    /**
     * The consumer Subscribe creates and attaches for `topic`: the queue or
     * ephemeral channel, the resolved handler count, a copy of the shared
     * configuration whose window is the max-in-flight option (or the handler
     * count), and the lookupd-or-nsqd target.
     */
    function SubscribeConsumer(topic: string, opts: SubscribeOptions, freshId: string,
                               defaultHandlers: int): (cm: Consumer)
      reads this`config, this`lookupdHTTPAddrs
      ensures cm.topic == topic && cm.channel == ChannelName(opts.queue, freshId)
      ensures cm.concurrency == if opts.concurrentHandlers.Some? then opts.concurrentHandlers.value
                                else defaultHandlers
      ensures cm.config.maxInFlight == if opts.maxInFlight.Some? then opts.maxInFlight.value
                                       else cm.concurrency
      ensures cm.config.tuning == config.tuning
      ensures cm.target == AttachTarget(lookupdHTTPAddrs, nsqdTCPAddrs)
    {
      var h := ResolveHandlers(opts, defaultHandlers);
      Consumer(topic, ChannelName(opts.queue, freshId), ConsumerConfig(config, h.maxInFlight),
               h.concurrency, AttachTarget(lookupdHTTPAddrs, nsqdTCPAddrs))
    }

    /**
     * Subscribe: resolve the handler count, the max-in-flight window and the
     * channel, create a consumer with a copy of the configuration, attach it
     * (through lookupd when configured), and append one record on success.
     * `defaultHandlers` is the value the package-level default handler
     * count has when Subscribe runs.
     */
    method Subscribe(topic: string, opts: SubscribeOptions, freshId: string, defaultHandlers: int,
                     newConsumer: Outcome, attach: Outcome) returns (r: Result<Subscriber>)
      requires Valid()
      modifies this
      ensures Valid()
      ensures running == old(running) && p == old(p)
      ensures lookupdHTTPAddrs == old(lookupdHTTPAddrs) && config == old(config)
      ensures newConsumer.Fail? ==> r == Failure(newConsumer.err) && c == old(c)
      ensures newConsumer.Ok? && attach.Fail? ==> r == Failure(attach.err) && c == old(c)
      ensures newConsumer.Ok? && attach.Ok? ==>
        && r.Success? && fresh(r.value) && c == old(c) + [r.value]
        && r.value.topic == topic && r.value.opts == opts
        && r.value.n == ResolveHandlers(opts, defaultHandlers).concurrency
        && r.value.consumer == SubscribeConsumer(topic, opts, freshId, defaultHandlers)
    {
      var h := ResolveHandlers(opts, defaultHandlers);
      var channel := ChannelName(opts.queue, freshId);
      var cfg := ConsumerConfig(config, h.maxInFlight);
      if newConsumer.Fail? {
        return Failure(newConsumer.err);
      }
      // AddConcurrentHandlers(shim, concurrency) is recorded as the consumer's concurrency.
      var cm := Consumer(topic, channel, cfg, h.concurrency, AttachTarget(lookupdHTTPAddrs, nsqdTCPAddrs));
      if attach.Fail? {
        return Failure(attach.err);
      }
      var sub := new Subscriber(topic, opts, h.concurrency, cm);
      c := c + [sub];
      r := Success(sub);
    }
  }

  /** The Connect environment in which every client call succeeds and every fresh id is `id`. */
  function AllOk(id: string): ConnectEnv {
    ConnectEnv(i => Ok, i => Ok, j => id, j => Ok, j => Ok)
  }

  /**
   * A broker with the default nsqd address and one subscriber record for
   * `topic`, subscribed with fresh id "id-0" and then connected in `AllOk("id-1")`.
   */
  method SubscribeAndConnect(topic: string, opts: SubscribeOptions)
    returns (b: Broker, sub: Subscriber, first: Consumer)
    ensures fresh(b) && fresh(sub) && b.Valid() && b.running
    ensures b.nsqdTCPAddrs == [DefaultNsqdAddr] && b.lookupdHTTPAddrs == [] && b.config == Config(1, map[])
    ensures b.c == [sub] && sub.topic == topic && sub.opts == opts
    ensures sub.n == ResolveHandlers(opts, DefaultConcurrentHandlers).concurrency
    ensures first.channel == ChannelName(opts.queue, "id-0")
    ensures first.config == ConsumerConfig(Config(1, map[]), ResolveHandlers(opts, DefaultConcurrentHandlers).maxInFlight)
    ensures sub.consumer ==
      Consumer(topic, ChannelName(opts.queue, "id-1"), Config(1, map[]), sub.n, Nsqds([DefaultNsqdAddr]))
  {
    b := new Broker([], Config(1, map[]));
    assert b.nsqdTCPAddrs == [DefaultNsqdAddr];
    var r := b.Subscribe(topic, opts, "id-0", DefaultConcurrentHandlers, Ok, Ok);
    sub := r.value;
    first := sub.consumer;
    assert b.c == [sub];
    var env := AllOk("id-1");
    assert FirstProducerFailure(env, 1, 1) == 1;
    assert FirstProducerFailure(env, 1, 0) == 1;
    assert !b.running && |b.nsqdTCPAddrs| == 1;
    var err := b.Connect(env);
    assert b.c == [sub];
    assert b.Reattach(0, env).Attached?;
    assert b.FirstReattachFailure(env, 1) == 1;
    assert b.FirstReattachFailure(env, 0) == |b.c|;
  }

  /**
   * Subscriber records outlive Disconnect: after subscribing, connecting,
   * disconnecting and connecting again, the record holds a live consumer
   * for the same topic with the subscription's handler count, and no second
   * Subscribe was needed. The re-created consumer uses the shared
   * configuration, so its max-in-flight window is the shared one (1 here)
   * rather than the handler count Subscribe used. A named queue keeps its
   * channel; an ephemeral subscription gets the channel of the id drawn at
   * Connect, which differs from the one `subscribed` at Subscribe.
   */
  method ReconnectKeepsSubscription(topic: string, queue: string, handlers: int)
    returns (subscribed: string, cm: Consumer, connected: bool)
    ensures connected
    ensures cm.topic == topic && cm.concurrency == handlers
    ensures cm.config.maxInFlight == 1
    ensures queue != "" ==> subscribed == queue && cm.channel == queue
    ensures queue == "" ==>
      && subscribed == "id-0" + EphemeralSuffix
      && cm.channel == "id-1" + EphemeralSuffix
      && cm.channel != subscribed
  {
    var opts := SubscribeOptions(true, queue, Some(handlers), None);
    var b, sub, first := SubscribeAndConnect(topic, opts);
    subscribed := first.channel;
    var calls := b.Disconnect();
    assert !b.running && b.c == [sub];
    var env := AllOk("id-1");
    assert FirstProducerFailure(env, 1, 1) == 1;
    assert FirstProducerFailure(env, 1, 0) == 1;
    var again := b.Connect(env);
    assert b.c == [sub];
    var re := b.Reattach(0, env);
    assert re.Attached?;
    assert b.FirstReattachFailure(env, 1) == 1;
    assert b.FirstReattachFailure(env, 0) == |b.c|;
    cm := sub.consumer;
    assert cm == re.consumer;
    connected := b.running;
    if queue == "" {
      assert ("id-1" + EphemeralSuffix)[3] != ("id-0" + EphemeralSuffix)[3];
    }
  }

  /**
   * Disconnect detaches by the lookupd list it reads when it runs, not the
   * one a consumer was attached with: a consumer attached to nsqd at
   * Connect is detached from the lookupd address that a later Init set.
   */
  method InitAfterConnectDetachesFromLookupd(topic: string, lookupd: string)
    returns (cm: Consumer, calls: seq<Call>)
    ensures cm.target == Nsqds([DefaultNsqdAddr])
    ensures DisconnectFromNSQLookupd(cm, lookupd) in calls
    ensures forall call :: call in calls ==> !call.DisconnectFromNSQD?
  {
    var b, sub, _ := SubscribeAndConnect(topic, SubscribeOptions(true, "q", None, None));
    cm := sub.consumer;
    b.Init(Some([lookupd]), None);
    var pool := b.p;
    calls := b.Disconnect();
    var t := Lookupds([lookupd]);
    assert AttachTarget(b.lookupdHTTPAddrs, b.nsqdTCPAddrs) == t;
    assert calls == StopAll(pool) + Teardown(b.c, t);
    assert b.c[0].consumer == cm;
    TeardownAt(b.c, t, 0, 0);
    assert Detach(cm, t, lookupd) == DisconnectFromNSQLookupd(cm, lookupd);
    assert DisconnectFromNSQLookupd(cm, lookupd) in Teardown(b.c, t);
    forall call | call in calls
      ensures !call.DisconnectFromNSQD?
    {
      if call in Teardown(b.c, t) {
        TeardownMatchesTarget(b.c, t, call);
      }
    }
  }

  /**
   * Connect replaces a record's consumer without stopping the old one:
   * after Subscribe (with a max-in-flight window of 4), Connect and
   * Disconnect, the consumer Connect created is stopped, and the one
   * Subscribe created, which it replaced, never is.
   */
  method ReplacedConsumerNeverStopped(topic: string)
    returns (replaced: Consumer, cm: Consumer, calls: seq<Call>)
    ensures replaced != cm
    ensures StopConsumer(cm) in calls
    ensures StopConsumer(replaced) !in calls
  {
    var b, sub, first := SubscribeAndConnect(topic, SubscribeOptions(true, "q", None, Some(4)));
    replaced, cm := first, sub.consumer;
    assert replaced.config.maxInFlight == 4 && cm.config.maxInFlight == 1;
    var pool := b.p;
    calls := b.Disconnect();
    var t := Nsqds([DefaultNsqdAddr]);
    assert [sub][..0] == [];
    var tail := [StopConsumer(cm)] + DetachAll(cm, t);
    assert Teardown([sub], t) == tail;
    assert calls == StopAll(pool) + tail;
    assert calls[|pool|] == StopConsumer(cm);
    forall i | 0 <= i < |calls|
      ensures calls[i] != StopConsumer(replaced)
    {
      if i > |pool| {
        assert calls[i] == tail[i - |pool|] == Detach(cm, t, t.addrs[i - |pool| - 1]);
      }
    }
  }
}
