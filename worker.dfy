/** `rele/worker.py`: the `Worker` object, which provisions its
    subscriptions, opens one stream per subscription, restarts streams that
    were cancelled or finished, and cancels them all when it stops. Each
    method updates the stream map in place and is proved to do what the
    corresponding function of `StreamMap` says. */
module Workers {
  import opened Wrappers
  import opened Exceptions
  import opened Subscriptions
  import opened Middleware
  import opened StreamMap

  /** `raise NotConnectionError`. */
  const NotConnected := Exception(NotConnectionErrorClass, "")

  class Worker {
    const subscriptions: seq<Subscription>
    /** `check_internet_connection()`: the answer to the probe made after
        `n` earlier probes. */
    const online: nat -> bool
    /** The keys of `_futures` in insertion order. */
    var order: seq<Subscription>
    /** `_futures`. */
    var futures: map<Subscription, Handle>
    /** The identity of the handle the next `consume` call returns. */
    var nextHandle: nat
    var probes: nat
    /** The calls made so far on the subscriber, the middleware hooks, the
        handles, the connectivity probe and the process. */
    var trace: seq<Event>

    function Snapshot(): State
      reads this
    {
      State(order, futures, nextHandle, probes, trace)
    }

    predicate Valid()
      reads this
    {
      WellFormed(Snapshot())
    }

    /** `Worker(subscriptions, ...)`: `_futures` starts empty. */
    constructor (subscriptions: seq<Subscription>, online: nat -> bool)
      ensures this.subscriptions == subscriptions && this.online == online
      ensures Snapshot() == Initial() && Valid()
    {
      this.subscriptions := subscriptions;
      this.online := online;
      order := [];
      futures := map[];
      nextHandle := 0;
      probes := 0;
      trace := [];
    }

    /** `run_middleware_hook(...)`. */
    method RunHook(hook: Hook)
      modifies this`trace
      ensures trace == old(trace) + [HookRun(hook)]
    {
      trace := trace + [HookRun(hook)];
    }

    /** `setup()`: `update_or_create_subscription` once per subscription, in
        list order; the stream map is not touched. */
    method Setup()
      modifies this`trace
      ensures Snapshot() == StreamMap.Setup(subscriptions, old(Snapshot()))
    {
      var i := 0;
      while i < |subscriptions|
        invariant 0 <= i <= |subscriptions|
        invariant trace == old(trace) + Provisions(subscriptions[..i])
      {
        assert Provisions(subscriptions[..i + 1]) == Provisions(subscriptions[..i]) + [Provisioned(subscriptions[i])];
        trace := trace + [Provisioned(subscriptions[i])];
        i := i + 1;
      }
      assert subscriptions[..i] == subscriptions;
    }

    /** `_boostrap_consumption(subscription)`: cancel and await the current
        stream of `s`, if any, then probe the connection, raising
        `NotConnectionError` when it is down, then open a new stream for
        `s.name` and store its handle under `s`. */
    method BootstrapConsumption(s: Subscription) returns (r: Outcome<Exception>)
      modifies this
      ensures var b := Bootstrap(old(Snapshot()), s, online);
        Snapshot() == b.st && (r.Pass? <==> b.ok) && (r.Fail? ==> r.error == NotConnected)
    {
      ghost var st0 := Snapshot();
      if s in futures {
        var h := futures[s];
        futures := futures[s := CancelHandle(h)];
        trace := trace + [CancelCalled(h.id)];
        trace := trace + [Awaited(h.id)];
      }
      assert Snapshot() == CancelExisting(st0, s);
      var connected := online(probes);
      probes := probes + 1;
      trace := trace + [Probed(connected)];
      if !connected {
        return Fail(NotConnected);
      }
      var h := Handle(nextHandle, Running);
      nextHandle := nextHandle + 1;
      trace := trace + [Consumed(s.name, h.id)];
      if s !in futures {
        order := order + [s];
      }
      futures := futures[s := h];
      r := Pass;
    }

    /** `start()`: `pre_worker_start`, a bootstrap of every subscription in
        list order, then `post_worker_start`; a bootstrap that raises ends
        the start. */
    method Start() returns (r: Outcome<Exception>)
      requires Valid()
      modifies this
      ensures Valid()
      ensures var st := StreamMap.Start(subscriptions, old(Snapshot()), online);
        Snapshot() == st.st && (r.Pass? <==> st.ok) && (r.Fail? ==> r.error == NotConnected)
    {
      ghost var st0 := Snapshot();
      StartHandles(subscriptions, st0, online);
      RunHook(PreWorkerStart);
      ghost var pre := Snapshot();
      assert pre == StreamMap.RunHook(st0, PreWorkerStart);
      var i := 0;
      r := Pass;
      while i < |subscriptions|
        invariant 0 <= i <= |subscriptions|
        invariant r == Pass
        invariant BootstrapAll(subscriptions[i..], Snapshot(), online) == BootstrapAll(subscriptions, pre, online)
      {
        BootstrapAllStep(subscriptions, i, Snapshot(), online);
        r := BootstrapConsumption(subscriptions[i]);
        if r.Fail? {
          return;
        }
        i := i + 1;
      }
      RunHook(PostWorkerStart);
    }

    /** One iteration of `_wait_forever`: when `sample` (the clock condition)
        holds the connection is probed and a failed probe raises; then every
        subscription whose stream is cancelled or done is bootstrapped again,
        in insertion order. */
    method MonitorOnce(sample: bool) returns (r: Outcome<Exception>)
      requires Valid()
      modifies this
      ensures Valid()
      ensures var t := Tick(old(Snapshot()), sample, online);
        Snapshot() == t.st && (r.Pass? <==> t.ok) && (r.Fail? ==> r.error == NotConnected)
    {
      ghost var st0 := Snapshot();
      TickWellFormed(st0, sample, online);
      if sample {
        var connected := online(probes);
        probes := probes + 1;
        trace := trace + [Probed(connected)];
        assert Snapshot() == Probe(st0, online);
        if !connected {
          return Fail(NotConnected);
        }
      }
      r := Sweep();
    }

    /** The restart loop of `_wait_forever`, over the keys in insertion
        order. */
    method Sweep() returns (r: Outcome<Exception>)
      modifies this
      ensures var t := StreamMap.Sweep(old(order), old(Snapshot()), online);
        Snapshot() == t.st && (r.Pass? <==> t.ok) && (r.Fail? ==> r.error == NotConnected)
    {
      ghost var start := Snapshot();
      var keys := order;
      var i := 0;
      r := Pass;
      while i < |keys|
        invariant 0 <= i <= |keys|
        invariant r == Pass
        invariant StreamMap.Sweep(keys[i..], Snapshot(), online) == StreamMap.Sweep(keys, start, online)
      {
        assert keys[i..][1..] == keys[i + 1..];
        var s := keys[i];
        if s in futures && Stale(futures[s]) {
          r := BootstrapConsumption(s);
          if r.Fail? {
            return;
          }
        }
        i := i + 1;
      }
    }

    /** `_wait_forever()`, for as many iterations as `samples` holds clock
        decisions; the loop in the source never ends on its own. */
    method WaitForever(samples: seq<bool>) returns (r: Outcome<Exception>)
      requires Valid()
      modifies this
      ensures Valid()
      ensures var w := Wait(samples, old(Snapshot()), online);
        Snapshot() == w.st && (r.Pass? <==> w.ok) && (r.Fail? ==> r.error == NotConnected)
    {
      ghost var init := Snapshot();
      var i := 0;
      while i < |samples|
        invariant 0 <= i <= |samples|
        invariant Valid()
        invariant Wait(samples[i..], Snapshot(), online) == Wait(samples, init, online)
      {
        assert samples[i..][1..] == samples[i + 1..];
        r := MonitorOnce(samples[i]);
        if r.Fail? {
          return;
        }
        i := i + 1;
      }
      r := Pass;
    }

    /** `run_forever()`: `setup`, `start`, then the wait loop. */
    method RunForever(samples: seq<bool>) returns (r: Outcome<Exception>)
      requires Valid()
      modifies this
      ensures Valid()
      ensures var w := StreamMap.RunForever(subscriptions, samples, old(Snapshot()), online);
        Snapshot() == w.st && (r.Pass? <==> w.ok) && (r.Fail? ==> r.error == NotConnected)
    {
      Setup();
      r := Start();
      if r.Fail? {
        return;
      }
      r := WaitForever(samples);
    }

    /** `stop()`: `pre_worker_stop` with the subscription list, `cancel()` on
        every stored handle in insertion order, `post_worker_stop`, then
        `sys.exit(0)`. */
    method Stop()
      requires Valid()
      modifies this
      ensures Valid()
      ensures Snapshot() == StreamMap.Stop(subscriptions, old(Snapshot()))
    {
      assert WellFormed(StreamMap.Stop(subscriptions, Snapshot())) by {
        StopEffect(subscriptions, Snapshot());
      }
      RunHook(PreWorkerStop(subscriptions));
      CancelEach();
      RunHook(PostWorkerStop);
      trace := trace + [Exited(0)];
    }

    /** `for future in self._futures.values(): future.cancel()`. */
    method CancelEach()
      modifies this
      ensures Snapshot() == CancelAll(old(order), old(Snapshot()))
    {
      ghost var pre := Snapshot();
      var keys := order;
      var i := 0;
      while i < |keys|
        invariant 0 <= i <= |keys|
        invariant CancelAll(keys[i..], Snapshot()) == CancelAll(keys, pre)
      {
        assert keys[i..][1..] == keys[i + 1..];
        var s := keys[i];
        if s in futures {
          var h := futures[s];
          futures := futures[s := CancelHandle(h)];
          trace := trace + [CancelCalled(h.id)];
        }
        i := i + 1;
      }
    }
  }
}
