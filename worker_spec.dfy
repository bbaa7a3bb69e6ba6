/** The stream map of `rele/worker.py` as values: the `_futures` dictionary
    from subscription to stream handle, in insertion order, together with the
    calls the worker makes on the outside world. Each worker operation is a
    function from one such state to the next; `Workers.Worker` performs the
    same operations in place and is proved equal to these functions. */
module StreamMap {
  import opened Wrappers
  import opened Subscriptions
  import opened Middleware
  import opened Strings

  /** What `cancelled()` and `done()` report on a streaming-pull future. */
  datatype HandleState = Running | Cancelled | Done

  /** A future returned by `consume`: an identity and its state. */
  datatype Handle = Handle(id: nat, state: HandleState)

  /** `future.cancelled() or future.done()`. */
  predicate Stale(h: Handle)
  {
    h.state != Running
  }

  /** `future.cancel()`: a running stream is cancelled; a finished one stays
      as it is. */
  function CancelHandle(h: Handle): (r: Handle)
    ensures r.id == h.id && Stale(r)
    ensures Stale(h) ==> r == h
  {
    if h.state == Running then h.(state := Cancelled) else h
  }

  /** A call the worker makes outside itself, in the order it makes them. */
  datatype Event =
    | Provisioned(subscription: Subscription)
    | HookRun(hook: Hook)
    | CancelCalled(id: nat)
    | Awaited(id: nat)
    | Probed(connected: bool)
    | Consumed(name: string, id: nat)
    | Exited(status: int)

  /** `order` lists the keys of `futures` in insertion order, which is the
      order Python iterates the dictionary in; `nextHandle` is the identity
      the next `consume` call returns and `probes` counts the connectivity
      probes made so far. */
  datatype State = State(
    order: seq<Subscription>,
    futures: map<Subscription, Handle>,
    nextHandle: nat,
    probes: nat,
    trace: seq<Event>)

  /** The result of an operation that may raise `NotConnectionError`. */
  datatype Step = Step(st: State, ok: bool)

  /** The dictionary and its order agree, every handle identity was issued
      and no two keys share a handle. */
  predicate WellFormed(st: State)
  {
    && (forall i, j :: 0 <= i < j < |st.order| ==> st.order[i] != st.order[j])
    && (forall s :: s in st.futures ==> s in st.order)
    && (forall i :: 0 <= i < |st.order| ==> st.order[i] in st.futures)
    && (forall s :: s in st.futures ==> st.futures[s].id < st.nextHandle)
    && (forall s, t :: s in st.futures && t in st.futures && s != t ==> st.futures[s].id != st.futures[t].id)
  }

  /** The worker before anything happened: `_futures = {}`. */
  function Initial(): (st: State)
    ensures WellFormed(st) && st.futures == map[] && st.trace == []
  {
    State([], map[], 0, 0, [])
  }

  /** `run_middleware_hook(...)`. */
  function RunHook(st: State, hook: Hook): (r: State)
  {
    st.(trace := st.trace + [HookRun(hook)])
  }

  /** `check_internet_connection()`: the answer is the oracle's value for the
      number of probes made before this one. */
  function Probe(st: State, online: nat -> bool): (r: State)
  {
    st.(probes := st.probes + 1, trace := st.trace + [Probed(online(st.probes))])
  }

  /** Lines 141-158: an existing handle is cancelled and its result awaited. */
  function CancelExisting(st: State, s: Subscription): (r: State)
  {
    if s in st.futures then
      var h := st.futures[s];
      st.(futures := st.futures[s := CancelHandle(h)], trace := st.trace + [CancelCalled(h.id), Awaited(h.id)])
    else st
  }

  /** Lines 173-177: `consume` returns a new running handle, stored under `s`. */
  function Consume(st: State, s: Subscription): (r: State)
  {
    st.(order := if s in st.futures then st.order else st.order + [s],
        futures := st.futures[s := Handle(st.nextHandle, Running)],
        nextHandle := st.nextHandle + 1,
        trace := st.trace + [Consumed(s.name, st.nextHandle)])
  }

  /** `r` was reached from `st` by making further calls. */
  predicate Extends(st: State, r: State)
  {
    |r.trace| >= |st.trace| && r.trace[..|st.trace|] == st.trace
  }

  /** The calls `_boostrap_consumption(s)` makes, given whether the probe
      succeeds and whether `s` already has a handle. */
  function BootstrapEvents(st: State, s: Subscription, connected: bool): seq<Event>
  {
    (if s in st.futures then [CancelCalled(st.futures[s].id), Awaited(st.futures[s].id)] else [])
    + [Probed(connected)]
    + (if connected then [Consumed(s.name, st.nextHandle)] else [])
  }

  /** `_boostrap_consumption(s)`. */
  function Bootstrap(st: State, s: Subscription, online: nat -> bool): (r: Step)
  {
    var p := Probe(CancelExisting(st, s), online);
    if online(st.probes) then Step(Consume(p, s), true) else Step(p, false)
  }

  lemma CancelExistingEffect(st: State, s: Subscription)
    requires WellFormed(st)
    ensures var c := CancelExisting(st, s);
      && WellFormed(c)
      && c.order == st.order && c.nextHandle == st.nextHandle && c.probes == st.probes
      && c.futures.Keys == st.futures.Keys
      && (forall k :: k in st.futures && k != s ==> c.futures[k] == st.futures[k])
      && (s in st.futures ==> c.futures[s] == CancelHandle(st.futures[s]))
      && c.trace == st.trace + (if s in st.futures then [CancelCalled(st.futures[s].id), Awaited(st.futures[s].id)] else [])
  {
  }

  lemma ConsumeEffect(st: State, s: Subscription)
    requires WellFormed(st)
    ensures var n := Consume(st, s);
      && WellFormed(n)
      && n.order == (if s in st.futures then st.order else st.order + [s])
      && n.nextHandle == st.nextHandle + 1 && n.probes == st.probes
      && n.futures.Keys == st.futures.Keys + {s}
      && (forall k :: k in st.futures && k != s ==> n.futures[k] == st.futures[k])
      && n.futures[s] == Handle(st.nextHandle, Running)
      && n.trace == st.trace + [Consumed(s.name, st.nextHandle)]
  {
    var n := Consume(st, s);
    forall k, t | k in n.futures && t in n.futures && k != t
      ensures n.futures[k].id != n.futures[t].id
    {
      if k != s && t != s {
        assert n.futures[k] == st.futures[k] && n.futures[t] == st.futures[t];
      }
    }
    if s !in st.futures {
      forall i, j | 0 <= i < j < |n.order| ensures n.order[i] != n.order[j] {
        if j == |st.order| {
          assert n.order[i] == st.order[i];
        }
      }
      forall i | 0 <= i < |n.order| ensures n.order[i] in n.futures {
        if i < |st.order| {
          assert n.order[i] == st.order[i];
        }
      }
    }
  }

  lemma ProbeWellFormed(st: State, online: nat -> bool)
    requires WellFormed(st)
    ensures WellFormed(Probe(st, online))
  {
  }

  /** What a bootstrap of `s` does to the stream map: on success `s` holds a
      new running handle with the next identity; on failure it keeps its old
      handle, now cancelled. Every other key is untouched and the state stays
      well formed. */
  lemma BootstrapFrame(st: State, s: Subscription, online: nat -> bool)
    requires WellFormed(st)
    ensures var r := Bootstrap(st, s, online);
      && WellFormed(r.st)
      && r.st.nextHandle == st.nextHandle + (if r.ok then 1 else 0)
      && r.st.order == (if s in st.futures || !r.ok then st.order else st.order + [s])
      && r.st.futures.Keys == st.futures.Keys + (if r.ok then {s} else {})
      && (forall k :: k in st.futures && k != s ==> r.st.futures[k] == st.futures[k])
      && (r.ok ==> r.st.futures[s] == Handle(st.nextHandle, Running))
      && (!r.ok && s in st.futures ==> r.st.futures[s] == CancelHandle(st.futures[s]))
  {
    var c := CancelExisting(st, s);
    CancelExistingEffect(st, s);
    ProbeWellFormed(c, online);
    if online(st.probes) {
      ConsumeEffect(Probe(c, online), s);
    }
  }

  /** The calls of a bootstrap of `s`: any old handle is cancelled and
      awaited before the probe, `consume` runs only after a successful
      probe, and the bootstrap raises exactly when the probe fails. */
  lemma BootstrapCalls(st: State, s: Subscription, online: nat -> bool)
    ensures var r := Bootstrap(st, s, online);
      && r.ok == online(st.probes)
      && r.st.probes == st.probes + 1
      && r.st.trace == st.trace + BootstrapEvents(st, s, r.ok)
      && Extends(st, r.st)
  {
    var pre := if s in st.futures then [CancelCalled(st.futures[s].id), Awaited(st.futures[s].id)] else [];
    var r := Bootstrap(st, s, online);
    if online(st.probes) {
      assert r.st.trace == st.trace + (pre + [Probed(true)] + [Consumed(s.name, st.nextHandle)]);
    } else {
      assert r.st.trace == st.trace + (pre + [Probed(false)] + []);
    }
    assert r.st.trace[..|st.trace|] == st.trace;
  }

  /** A bootstrap's calls contain a failed probe exactly when it raises. */
  lemma BootstrapEventsFail(st: State, s: Subscription, connected: bool)
    ensures Probed(false) in BootstrapEvents(st, s, connected) <==> !connected
    ensures connected ==> Last(BootstrapEvents(st, s, connected)) == Consumed(s.name, st.nextHandle)
    ensures !connected ==> Last(BootstrapEvents(st, s, connected)) == Probed(false)
  {
    var pre := if s in st.futures then [CancelCalled(st.futures[s].id), Awaited(st.futures[s].id)] else [];
    assert Probed(false) !in pre;
  }

  /** The restart sweep of `_wait_forever` (lines 199-207) over the keys in
      `keys`: every stale handle is bootstrapped again; the first bootstrap
      that raises ends the sweep. */
  function Sweep(keys: seq<Subscription>, st: State, online: nat -> bool): (r: Step)
    decreases |keys|
  {
    if keys == [] then Step(st, true)
    else if keys[0] in st.futures && Stale(st.futures[keys[0]]) then
      var b := Bootstrap(st, keys[0], online);
      if b.ok then Sweep(keys[1..], b.st, online) else b
    else Sweep(keys[1..], st, online)
  }

  /** What a sweep leaves in place: the keys and their order; the state
      stays well formed. */
  lemma {:induction false} SweepFrame(keys: seq<Subscription>, st: State, online: nat -> bool)
    requires WellFormed(st)
    requires forall k :: k in keys ==> k in st.futures
    ensures var r := Sweep(keys, st, online);
      && WellFormed(r.st)
      && r.st.order == st.order
      && r.st.futures.Keys == st.futures.Keys
      && r.st.nextHandle >= st.nextHandle
    decreases |keys|
  {
    if keys != [] {
      var k0 := keys[0];
      if Stale(st.futures[k0]) {
        var b := Bootstrap(st, k0, online);
        BootstrapFrame(st, k0, online);
        if b.ok {
          SweepFrame(keys[1..], b.st, online);
        }
      } else {
        SweepFrame(keys[1..], st, online);
      }
    }
  }

  /** A sweep never touches a healthy handle, nor one outside `keys`. */
  lemma {:induction false} SweepUntouched(keys: seq<Subscription>, st: State, online: nat -> bool)
    requires WellFormed(st)
    requires forall k :: k in keys ==> k in st.futures
    ensures var r := Sweep(keys, st, online);
      forall k :: k in st.futures && (k !in keys || !Stale(st.futures[k])) ==> k in r.st.futures && r.st.futures[k] == st.futures[k]
    decreases |keys|
  {
    if keys != [] {
      var k0 := keys[0];
      if Stale(st.futures[k0]) {
        var b := Bootstrap(st, k0, online);
        BootstrapFrame(st, k0, online);
        if b.ok {
          SweepUntouched(keys[1..], b.st, online);
        }
      } else {
        SweepUntouched(keys[1..], st, online);
      }
    }
  }

  /** A sweep raises exactly when one of its probes fails, and the failed
      probe is then its last call. */
  lemma {:induction false} SweepOutcome(keys: seq<Subscription>, st: State, online: nat -> bool)
    requires WellFormed(st)
    requires forall k :: k in keys ==> k in st.futures
    ensures var r := Sweep(keys, st, online);
      && Extends(st, r.st)
      && (r.ok <==> Probed(false) !in r.st.trace[|st.trace|..])
      && (!r.ok ==> Last(r.st.trace) == Probed(false))
    decreases |keys|
  {
    if keys != [] {
      var k0 := keys[0];
      if Stale(st.futures[k0]) {
        var b := Bootstrap(st, k0, online);
        BootstrapFrame(st, k0, online);
        BootstrapCalls(st, k0, online);
        BootstrapEventsFail(st, k0, b.ok);
        if b.ok {
          SweepOutcome(keys[1..], b.st, online);
          TraceSplit(st.trace, b.st.trace, Sweep(keys[1..], b.st, online).st.trace);
        } else {
          assert b.st.trace[|st.trace|..] == BootstrapEvents(st, k0, false);
        }
      } else {
        SweepOutcome(keys[1..], st, online);
      }
    } else {
      assert st.trace[|st.trace|..] == [];
    }
  }

  /** A sweep that returns leaves every key of `keys` with a running handle,
      and a key whose handle was stale with a handle issued by the sweep. */
  lemma {:induction false} SweepRestarts(keys: seq<Subscription>, st: State, online: nat -> bool)
    requires WellFormed(st)
    requires forall k :: k in keys ==> k in st.futures
    ensures var r := Sweep(keys, st, online);
      r.ok ==>
        && (forall k :: k in keys ==> k in r.st.futures && r.st.futures[k].state == Running)
        && (forall k :: k in keys && Stale(st.futures[k]) ==> k in r.st.futures && r.st.futures[k].id >= st.nextHandle)
    decreases |keys|
  {
    if keys != [] {
      var k0 := keys[0];
      var r := Sweep(keys, st, online);
      if Stale(st.futures[k0]) {
        var b := Bootstrap(st, k0, online);
        BootstrapFrame(st, k0, online);
        if b.ok {
          SweepFrame(keys[1..], b.st, online);
          SweepUntouched(keys[1..], b.st, online);
          SweepRestarts(keys[1..], b.st, online);
          forall k | k in keys ensures r.ok ==> k in r.st.futures && r.st.futures[k].state == Running {
            if k != k0 { assert k in keys[1..]; }
          }
          forall k | k in keys && Stale(st.futures[k]) ensures r.ok ==> k in r.st.futures && r.st.futures[k].id >= st.nextHandle {
            if k != k0 { assert k in keys[1..]; }
          }
        }
      } else {
        SweepFrame(keys[1..], st, online);
        SweepUntouched(keys[1..], st, online);
        SweepRestarts(keys[1..], st, online);
        forall k | k in keys ensures r.ok ==> k in r.st.futures && r.st.futures[k].state == Running {
          if k != k0 { assert k in keys[1..]; }
        }
      }
    }
  }

  /** Extending a trace twice: a failed probe in the whole extension is a
      failed probe in one of the two parts. */
  lemma TraceSplit(a: seq<Event>, b: seq<Event>, c: seq<Event>)
    requires |a| <= |b| <= |c| && b[..|a|] == a && c[..|b|] == b
    ensures c[..|a|] == a
    ensures c[|a|..] == b[|a|..] + c[|b|..]
    ensures Probed(false) in c[|a|..] <==> Probed(false) in b[|a|..] || Probed(false) in c[|b|..]
  {
    assert c[|a|..] == c[|a|..|b|] + c[|b|..];
    assert c[|a|..|b|] == b[|a|..];
  }

  /** One iteration of `_wait_forever` (lines 192-207): when the clock
      condition holds (`sample`) the connection is probed first and a failed
      probe raises; then the stream map is swept in insertion order. */
  function Tick(st: State, sample: bool, online: nat -> bool): (r: Step)
  {
    if sample then
      var p := Probe(st, online);
      if online(st.probes) then Sweep(p.order, p, online) else Step(p, false)
    else Sweep(st.order, st, online)
  }

  /** One iteration keeps the keys and their order and never touches a
      healthy handle. It raises exactly when one of its probes fails, and the
      failed probe is its last call. When it returns, every subscription has
      a running handle, and a handle was replaced exactly when it had been
      cancelled or had finished. */
  lemma TickEffect(st: State, sample: bool, online: nat -> bool)
    requires WellFormed(st)
    ensures var r := Tick(st, sample, online);
      && WellFormed(r.st)
      && r.st.order == st.order
      && r.st.futures.Keys == st.futures.Keys
      && (forall k :: k in st.futures && !Stale(st.futures[k]) ==> r.st.futures[k] == st.futures[k])
      && |r.st.trace| >= |st.trace| && r.st.trace[..|st.trace|] == st.trace
      && (r.ok <==> Probed(false) !in r.st.trace[|st.trace|..])
      && (!r.ok ==> Last(r.st.trace) == Probed(false))
      && (r.ok ==> forall k :: k in st.futures ==> r.st.futures[k].state == Running)
      && (r.ok ==> forall k :: k in st.futures ==> (r.st.futures[k] != st.futures[k] <==> Stale(st.futures[k])))
  {
    var r := Tick(st, sample, online);
    if sample {
      var p := Probe(st, online);
      if online(st.probes) {
        SweepFrame(p.order, p, online);
        SweepUntouched(p.order, p, online);
        SweepOutcome(p.order, p, online);
        SweepRestarts(p.order, p, online);
        TraceSplit(st.trace, p.trace, r.st.trace);
        assert p.trace[|st.trace|..] == [Probed(true)];
      } else {
        assert r.st.trace[|st.trace|..] == [Probed(false)];
      }
    } else {
      SweepFrame(st.order, st, online);
      SweepUntouched(st.order, st, online);
      SweepOutcome(st.order, st, online);
      SweepRestarts(st.order, st, online);
    }
    if r.ok {
      forall k | k in st.futures && Stale(st.futures[k]) ensures r.st.futures[k] != st.futures[k] {
        assert st.futures[k].id < st.nextHandle;
      }
    }
  }

  lemma TickWellFormed(st: State, sample: bool, online: nat -> bool)
    requires WellFormed(st)
    ensures WellFormed(Tick(st, sample, online).st)
  {
    TickEffect(st, sample, online);
  }

  /** Without the clock condition, an iteration over healthy streams makes
      no call at all and changes nothing. */
  lemma {:induction false} QuietTick(st: State, online: nat -> bool)
    requires forall k :: k in st.futures ==> !Stale(st.futures[k])
    ensures Tick(st, false, online) == Step(st, true)
  {
    QuietSweep(st.order, st, online);
  }

  lemma {:induction false} QuietSweep(keys: seq<Subscription>, st: State, online: nat -> bool)
    requires forall k :: k in st.futures ==> !Stale(st.futures[k])
    ensures Sweep(keys, st, online) == Step(st, true)
    decreases |keys|
  {
    if keys != [] {
      QuietSweep(keys[1..], st, online);
    }
  }

  /** With the clock condition and no connection, an iteration makes one
      failed probe and raises; the stream map is left as it was. */
  lemma SampledOutage(st: State, online: nat -> bool)
    requires !online(st.probes)
    ensures var r := Tick(st, true, online);
      && !r.ok
      && r.st == st.(probes := st.probes + 1, trace := st.trace + [Probed(false)])
  {
  }

  /** The loop of `start` (lines 93-94): each subscription is bootstrapped in
      list order; the first that raises ends the loop. */
  function BootstrapAll(subs: seq<Subscription>, st: State, online: nat -> bool): (r: Step)
    decreases |subs|
  {
    if subs == [] then Step(st, true)
    else
      var b := Bootstrap(st, subs[0], online);
      if b.ok then BootstrapAll(subs[1..], b.st, online) else b
  }

  /** One step of the loop of `start`, from position `i` of the list. */
  lemma BootstrapAllStep(subs: seq<Subscription>, i: nat, st: State, online: nat -> bool)
    requires i < |subs|
    ensures var b := Bootstrap(st, subs[i], online);
      BootstrapAll(subs[i..], st, online) == if b.ok then BootstrapAll(subs[i + 1..], b.st, online) else b
  {
    assert subs[i..][1..] == subs[i + 1..];
  }

  /** The loop of `start` keeps the state well formed and the keys it
      found, and touches no key outside the list. */
  lemma {:induction false} BootstrapAllFrame(subs: seq<Subscription>, st: State, online: nat -> bool)
    requires WellFormed(st)
    ensures var r := BootstrapAll(subs, st, online);
      && WellFormed(r.st)
      && st.futures.Keys <= r.st.futures.Keys
      && (forall k :: k in st.futures && k !in subs ==> r.st.futures[k] == st.futures[k])
    decreases |subs|
  {
    if subs != [] {
      var s0 := subs[0];
      var b := Bootstrap(st, s0, online);
      BootstrapFrame(st, s0, online);
      if b.ok {
        BootstrapAllFrame(subs[1..], b.st, online);
        forall k | k in st.futures && k !in subs ensures BootstrapAll(subs, st, online).st.futures[k] == st.futures[k] {
          assert k != s0 && k !in subs[1..];
        }
      }
    }
  }

  /** When the loop of `start` completes, the keys are the ones found plus
      the listed subscriptions. */
  lemma {:induction false} BootstrapAllKeys(subs: seq<Subscription>, st: State, online: nat -> bool)
    ensures var r := BootstrapAll(subs, st, online);
      r.ok ==> r.st.futures.Keys == st.futures.Keys + set s | s in subs
    decreases |subs|
  {
    if subs != [] {
      var s0 := subs[0];
      var b := Bootstrap(st, s0, online);
      if b.ok {
        assert b.st.futures.Keys == st.futures.Keys + {s0};
        BootstrapAllKeys(subs[1..], b.st, online);
        assert subs == [s0] + subs[1..];
        assert (set s | s in subs) == {s0} + set s | s in subs[1..];
      }
    }
  }

  /** The loop of `start` raises exactly when one of its probes fails, and
      the failed probe is then its last call. */
  lemma {:induction false} BootstrapAllOutcome(subs: seq<Subscription>, st: State, online: nat -> bool)
    ensures var r := BootstrapAll(subs, st, online);
      && Extends(st, r.st)
      && (r.ok <==> Probed(false) !in r.st.trace[|st.trace|..])
      && (!r.ok ==> Last(r.st.trace) == Probed(false))
    decreases |subs|
  {
    if subs == [] {
      assert st.trace[|st.trace|..] == [];
    } else {
      var s0 := subs[0];
      var b := Bootstrap(st, s0, online);
      BootstrapCalls(st, s0, online);
      BootstrapEventsFail(st, s0, b.ok);
      if b.ok {
        BootstrapAllOutcome(subs[1..], b.st, online);
        TraceSplit(st.trace, b.st.trace, BootstrapAll(subs[1..], b.st, online).st.trace);
      } else {
        assert b.st.trace[|st.trace|..] == BootstrapEvents(st, s0, false);
      }
    }
  }

  /** When the loop of `start` completes, every listed subscription holds a
      running handle. */
  lemma {:induction false} BootstrapAllRunning(subs: seq<Subscription>, st: State, online: nat -> bool)
    requires WellFormed(st)
    ensures var r := BootstrapAll(subs, st, online);
      r.ok ==> forall s :: s in subs ==> s in r.st.futures && r.st.futures[s].state == Running
    decreases |subs|
  {
    if subs != [] {
      var s0 := subs[0];
      var b := Bootstrap(st, s0, online);
      BootstrapFrame(st, s0, online);
      if b.ok {
        BootstrapAllFrame(subs[1..], b.st, online);
        BootstrapAllRunning(subs[1..], b.st, online);
        var r := BootstrapAll(subs[1..], b.st, online);
        forall s | s in subs ensures r.ok ==> s in r.st.futures && r.st.futures[s].state == Running {
          if s != s0 { assert s in subs[1..]; }
        }
      }
    }
  }

  /** `start()` (lines 92-95): `pre_worker_start`, the bootstraps, then
      `post_worker_start`, which a raising bootstrap skips. */
  function Start(subs: seq<Subscription>, st: State, online: nat -> bool): (r: Step)
  {
    var b := BootstrapAll(subs, RunHook(st, PreWorkerStart), online);
    if b.ok then Step(RunHook(b.st, PostWorkerStart), true) else b
  }

  /** `pre_worker_start` runs before any bootstrap and `post_worker_start`
      after all of them, and only when none raised; a raising start ends
      with its failed probe. */
  lemma StartCalls(subs: seq<Subscription>, st: State, online: nat -> bool)
    ensures var r := Start(subs, st, online);
      && |r.st.trace| > |st.trace| && r.st.trace[..|st.trace| + 1] == st.trace + [HookRun(PreWorkerStart)]
      && (r.ok <==> Last(r.st.trace) == HookRun(PostWorkerStart))
      && (!r.ok ==> Last(r.st.trace) == Probed(false))
  {
    var pre := RunHook(st, PreWorkerStart);
    BootstrapAllOutcome(subs, pre, online);
    var b := BootstrapAll(subs, pre, online);
    assert b.st.trace[..|st.trace| + 1] == b.st.trace[..|pre.trace|];
    if b.ok {
      var r := RunHook(b.st, PostWorkerStart);
      assert r.trace[..|st.trace| + 1] == b.st.trace[..|st.trace| + 1];
    }
  }

  /** After a successful start every subscription holds a running handle and
      the keys are the ones found plus the subscriptions. */
  lemma StartHandles(subs: seq<Subscription>, st: State, online: nat -> bool)
    requires WellFormed(st)
    ensures var r := Start(subs, st, online);
      && WellFormed(r.st)
      && (r.ok ==> r.st.futures.Keys == st.futures.Keys + set s | s in subs)
      && (r.ok ==> forall s :: s in subs ==> s in r.st.futures && r.st.futures[s].state == Running)
  {
    var pre := RunHook(st, PreWorkerStart);
    BootstrapAllFrame(subs, pre, online);
    BootstrapAllKeys(subs, pre, online);
    BootstrapAllRunning(subs, pre, online);
  }

  /** Starting a fresh worker gives every subscription, and nothing else, a
      running handle. */
  lemma StartFresh(subs: seq<Subscription>, online: nat -> bool)
    ensures var r := Start(subs, Initial(), online);
      r.ok ==> r.st.futures.Keys == (set s | s in subs) && forall s :: s in subs ==> r.st.futures[s].state == Running
  {
    StartHandles(subs, Initial(), online);
  }

  /** `setup()` (lines 77-78): one provisioning call per subscription, in list
      order. */
  function Provisions(subs: seq<Subscription>): (r: seq<Event>)
    ensures |r| == |subs|
    ensures forall i :: 0 <= i < |subs| ==> r[i] == Provisioned(subs[i])
  {
    if subs == [] then [] else [Provisioned(subs[0])] + Provisions(subs[1..])
  }

  function Setup(subs: seq<Subscription>, st: State): (r: State)
  {
    st.(trace := st.trace + Provisions(subs))
  }

  /** `setup` touches nothing but its own provisioning calls. */
  lemma SetupEffect(subs: seq<Subscription>, st: State)
    ensures var r := Setup(subs, st);
      && r.order == st.order && r.futures == st.futures && r.probes == st.probes && r.nextHandle == st.nextHandle
      && |r.trace| == |st.trace| + |subs|
      && forall i :: 0 <= i < |subs| ==> r.trace[|st.trace| + i] == Provisioned(subs[i])
  {
  }

  /** The cancel calls of `stop` (lines 129-130) over the handles of `keys`. */
  function CancelAll(keys: seq<Subscription>, st: State): (r: State)
    decreases |keys|
  {
    if keys == [] then st
    else if keys[0] in st.futures then
      var h := st.futures[keys[0]];
      CancelAll(keys[1..], st.(futures := st.futures[keys[0] := CancelHandle(h)], trace := st.trace + [CancelCalled(h.id)]))
    else CancelAll(keys[1..], st)
  }

  /** `stop()` (lines 128-133): `pre_worker_stop` with the subscription list,
      a cancel call on every stored handle in insertion order,
      `post_worker_stop`, then exit status 0. */
  function Stop(subs: seq<Subscription>, st: State): (r: State)
  {
    var c := CancelAll(st.order, RunHook(st, PreWorkerStop(subs)));
    c.(trace := c.trace + [HookRun(PostWorkerStop), Exited(0)])
  }

  /** The tail of a list without repeats has none, and lacks the head. */
  lemma DistinctTail(keys: seq<Subscription>)
    requires keys != [] && forall i, j :: 0 <= i < j < |keys| ==> keys[i] != keys[j]
    ensures forall i, j :: 0 <= i < j < |keys[1..]| ==> keys[1..][i] != keys[1..][j]
    ensures keys[0] !in keys[1..]
  {
    forall k | k in keys[1..]
      ensures k != keys[0]
    {
      var j :| 0 <= j < |keys[1..]| && keys[1..][j] == k;
      assert keys[j + 1] == k;
    }
  }

  /** Cancelling the handles of distinct keys cancels each of them and keeps
      every other key's handle and the rest of the state. */
  lemma {:induction false} CancelAllFutures(keys: seq<Subscription>, st: State)
    requires forall i, j :: 0 <= i < j < |keys| ==> keys[i] != keys[j]
    requires forall k :: k in keys ==> k in st.futures
    ensures var r := CancelAll(keys, st);
      && r.order == st.order && r.nextHandle == st.nextHandle && r.probes == st.probes
      && r.futures.Keys == st.futures.Keys
      && (forall k :: k in keys ==> r.futures[k] == CancelHandle(st.futures[k]))
      && (forall k :: k in st.futures && k !in keys ==> r.futures[k] == st.futures[k])
    decreases |keys|
  {
    if keys != [] {
      var k0 := keys[0];
      var h := st.futures[k0];
      var next := st.(futures := st.futures[k0 := CancelHandle(h)], trace := st.trace + [CancelCalled(h.id)]);
      DistinctTail(keys);
      CancelAllFutures(keys[1..], next);
      var r := CancelAll(keys, st);
      forall k | k in keys ensures r.futures[k] == CancelHandle(st.futures[k]) {
        if k != k0 { assert k in keys[1..]; }
      }
    }
  }

  /** Cancelling the handles of distinct keys appends one cancel call per
      key, in key order, to the trace. */
  lemma {:induction false} CancelAllTrace(keys: seq<Subscription>, st: State)
    requires forall i, j :: 0 <= i < j < |keys| ==> keys[i] != keys[j]
    requires forall k :: k in keys ==> k in st.futures
    ensures var r := CancelAll(keys, st);
      && |r.trace| == |st.trace| + |keys| && r.trace[..|st.trace|] == st.trace
      && (forall i :: 0 <= i < |keys| ==> r.trace[|st.trace| + i] == CancelCalled(st.futures[keys[i]].id))
    decreases |keys|
  {
    if keys != [] {
      var k0 := keys[0];
      var h := st.futures[k0];
      var next := st.(futures := st.futures[k0 := CancelHandle(h)], trace := st.trace + [CancelCalled(h.id)]);
      DistinctTail(keys);
      CancelAllTrace(keys[1..], next);
      var r := CancelAll(keys, st);
      forall i | 0 <= i < |keys| ensures r.trace[|st.trace| + i] == CancelCalled(st.futures[keys[i]].id) {
        if i == 0 {
          assert r.trace[..|next.trace|] == next.trace;
          assert r.trace[|st.trace|] == next.trace[|st.trace|];
        } else {
          assert keys[1..][i - 1] == keys[i];
        }
      }
      calc {
        r.trace[..|st.trace|];
        r.trace[..|next.trace|][..|st.trace|];
        next.trace[..|st.trace|];
        st.trace;
      }
    }
  }

  /** Cancelling the handles of distinct keys: each is cancelled exactly
      once, in key order, and every other key keeps its handle. */
  lemma CancelAllEffect(keys: seq<Subscription>, st: State)
    requires forall i, j :: 0 <= i < j < |keys| ==> keys[i] != keys[j]
    requires forall k :: k in keys ==> k in st.futures
    ensures var r := CancelAll(keys, st);
      && r.order == st.order && r.nextHandle == st.nextHandle && r.probes == st.probes
      && r.futures.Keys == st.futures.Keys
      && (forall k :: k in keys ==> r.futures[k] == CancelHandle(st.futures[k]))
      && (forall k :: k in st.futures && k !in keys ==> r.futures[k] == st.futures[k])
      && |r.trace| == |st.trace| + |keys| && r.trace[..|st.trace|] == st.trace
      && (forall i :: 0 <= i < |keys| ==> r.trace[|st.trace| + i] == CancelCalled(st.futures[keys[i]].id))
  {
    CancelAllFutures(keys, st);
    CancelAllTrace(keys, st);
  }

  /** After `stop` every handle is cancelled or finished, the keys and
      handle identities are kept, and the calls are exactly: the
      `pre_worker_stop` hook with the subscription list, one cancel per
      stored handle in insertion order, `post_worker_stop`, exit status 0. */
  lemma StopEffect(subs: seq<Subscription>, st: State)
    requires WellFormed(st)
    ensures var r := Stop(subs, st);
      && WellFormed(r)
      && r.futures.Keys == st.futures.Keys
      && (forall k :: k in r.futures ==> Stale(r.futures[k]) && r.futures[k].id == st.futures[k].id)
      && |r.trace| == |st.trace| + |st.order| + 3
      && r.trace[..|st.trace|] == st.trace
      && r.trace[|st.trace|] == HookRun(PreWorkerStop(subs))
      && (forall i :: 0 <= i < |st.order| ==> r.trace[|st.trace| + 1 + i] == CancelCalled(st.futures[st.order[i]].id))
      && r.trace[|r.trace| - 2..] == [HookRun(PostWorkerStop), Exited(0)]
  {
    var pre := RunHook(st, PreWorkerStop(subs));
    CancelAllEffect(st.order, pre);
    var c := CancelAll(st.order, pre);
    var r := Stop(subs, st);
    assert r.trace[..|c.trace|] == c.trace;
    assert r.trace[..|st.trace|] == c.trace[..|pre.trace|][..|st.trace|];
    assert r.trace[|st.trace|] == c.trace[..|pre.trace|][|st.trace|];
    forall i | 0 <= i < |st.order| ensures r.trace[|st.trace| + 1 + i] == CancelCalled(st.futures[st.order[i]].id) {
      assert r.trace[|pre.trace| + i] == c.trace[|pre.trace| + i];
    }
    forall k, t | k in r.futures && t in r.futures && k != t ensures r.futures[k].id != r.futures[t].id {
      assert r.futures[k].id == st.futures[k].id && r.futures[t].id == st.futures[t].id;
    }
  }

  /** `_wait_forever` for as many iterations as `samples` has clock
      decisions: it stops at the first iteration that raises. */
  function Wait(samples: seq<bool>, st: State, online: nat -> bool): (r: Step)
    decreases |samples|
  {
    if samples == [] then Step(st, true)
    else
      var t := Tick(st, samples[0], online);
      if t.ok then Wait(samples[1..], t.st, online) else t
  }

  /** Waiting keeps the keys and their order and the state well formed; it
      raises exactly when a probe fails; each completed iteration leaves every
      handle running. */
  lemma {:induction false} WaitEffect(samples: seq<bool>, st: State, online: nat -> bool)
    requires WellFormed(st)
    ensures var r := Wait(samples, st, online);
      && WellFormed(r.st)
      && r.st.order == st.order
      && r.st.futures.Keys == st.futures.Keys
      && |r.st.trace| >= |st.trace| && r.st.trace[..|st.trace|] == st.trace
      && (r.ok <==> Probed(false) !in r.st.trace[|st.trace|..])
      && (r.ok && samples != [] ==> forall k :: k in r.st.futures ==> r.st.futures[k].state == Running)
    decreases |samples|
  {
    if samples == [] {
      assert st.trace[|st.trace|..] == [];
    } else {
      var t := Tick(st, samples[0], online);
      TickEffect(st, samples[0], online);
      if t.ok {
        WaitEffect(samples[1..], t.st, online);
        var r := Wait(samples[1..], t.st, online);
        TraceSplit(st.trace, t.st.trace, r.st.trace);
        if samples[1..] == [] {
          assert r == t;
        }
      }
    }
  }

  /** `run_forever()` (lines 104-108): `setup`, `start`, then the wait loop,
      which a raising `start` never reaches. */
  function RunForever(subs: seq<Subscription>, samples: seq<bool>, st: State, online: nat -> bool): (r: Step)
  {
    var s := Start(subs, Setup(subs, st), online);
    if s.ok then Wait(samples, s.st, online) else s
  }

  /** Every subscription is provisioned before anything else happens, the
      worker start hook follows, and a run that raises has made a probe that
      failed. */
  lemma RunForeverCalls(subs: seq<Subscription>, samples: seq<bool>, st: State, online: nat -> bool)
    requires WellFormed(st)
    ensures var r := RunForever(subs, samples, st, online);
      && |r.st.trace| > |st.trace| + |subs|
      && r.st.trace[..|st.trace| + |subs| + 1] == st.trace + Provisions(subs) + [HookRun(PreWorkerStart)]
      && (!r.ok ==> Probed(false) in r.st.trace)
  {
    var u := Setup(subs, st);
    StartCalls(subs, u, online);
    var s := Start(subs, u, online);
    var r := RunForever(subs, samples, st, online);
    assert s.st.trace[..|st.trace| + |subs| + 1] == u.trace + [HookRun(PreWorkerStart)];
    if s.ok {
      StartHandles(subs, u, online);
      WaitEffect(samples, s.st, online);
      assert r.st.trace[..|st.trace| + |subs| + 1] == r.st.trace[..|s.st.trace|][..|st.trace| + |subs| + 1];
      if !r.ok {
        var j :| 0 <= j < |r.st.trace[|s.st.trace|..]| && r.st.trace[|s.st.trace|..][j] == Probed(false);
        assert r.st.trace[|s.st.trace| + j] == Probed(false);
      }
    }
  }

  /** A run that has not raised leaves every subscription with a running
      handle, and the state stays well formed. */
  lemma RunForeverHandles(subs: seq<Subscription>, samples: seq<bool>, st: State, online: nat -> bool)
    requires WellFormed(st)
    ensures var r := RunForever(subs, samples, st, online);
      && WellFormed(r.st)
      && (r.ok ==> forall s :: s in subs ==> s in r.st.futures && r.st.futures[s].state == Running)
  {
    var u := Setup(subs, st);
    StartHandles(subs, u, online);
    var s := Start(subs, u, online);
    if s.ok {
      WaitEffect(samples, s.st, online);
    }
  }
}
