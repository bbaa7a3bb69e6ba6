/** `rele/middleware.py`: the process-wide list of middleware objects, built
    from dotted class paths, and the dispatch of a named hook to each of them
    in registration order. */
module Middleware {
  import opened Wrappers
  import opened Strings
  import opened Exceptions
  import opened Messages
  import opened Subscriptions

  /** `*module_parts, middleware_class = path.split('.')` followed by
      `'.'.join(module_parts)`: the module path is everything before the last
      dot and the class name everything after it. */
  function SplitModulePath(path: string): (r: (string, string))
    ensures '.' !in r.1
    ensures '.' in path ==> r.0 + "." + r.1 == path
    ensures '.' !in path ==> r == ("", path)
  {
    var parts := Split(path, '.');
    JoinSplit(path, '.');
    if |parts| >= 2 then
      JoinSnoc(parts, '.');
      (Join('.', parts[..|parts| - 1]), Last(parts))
    else
      SplitWithoutSeparator(path, '.');
      ("", path)
  }

  /** The hooks of `BaseMiddleware`, with their arguments. */
  datatype Hook =
    | Setup
    | PrePublish(topic: string, data: Json, attrs: map<string, string>)
    | PostPublish(topic: string)
    | PreProcessMessage(subscription: Subscription)
    | PostProcessMessage
    | PostProcessMessageSuccess(subscription: Subscription, startTime: real)
    | PostProcessMessageFailure(subscription: Subscription, exception: Exception, startTime: real)
    | PreWorkerStart
    | PostWorkerStart
    | PreWorkerStop(subscriptions: seq<Subscription>)
    | PostWorkerStop

  /** An instantiated middleware class. */
  class MiddlewareObject {
    const modulePath: string
    const className: string

    constructor (modulePath: string, className: string)
      ensures this.modulePath == modulePath && this.className == className
    {
      this.modulePath := modulePath;
      this.className := className;
    }

    /** This object is an instance of the class `path` names. */
    predicate Instantiates(path: string)
    {
      modulePath == SplitModulePath(path).0 && className == SplitModulePath(path).1
    }
  }

  /** One call of a hook method on one middleware object. */
  datatype HookCall = HookCall(target: MiddlewareObject, hook: Hook)

  /** The calls of `hook` on each of `targets`, in order. */
  function Dispatches(targets: seq<MiddlewareObject>, hook: Hook): (r: seq<HookCall>)
    ensures |r| == |targets|
    ensures forall i :: 0 <= i < |r| ==> r[i] == HookCall(targets[i], hook)
  {
    if targets == [] then [] else [HookCall(targets[0], hook)] + Dispatches(targets[1..], hook)
  }

  lemma {:induction false} DispatchesSnoc(targets: seq<MiddlewareObject>, target: MiddlewareObject, hook: Hook)
    ensures Dispatches(targets + [target], hook) == Dispatches(targets, hook) + [HookCall(target, hook)]
  {
    var lhs, rhs := Dispatches(targets + [target], hook), Dispatches(targets, hook) + [HookCall(target, hook)];
    assert |lhs| == |rhs|;
    forall i | 0 <= i < |lhs| ensures lhs[i] == rhs[i] {
      if i < |targets| {
        assert (targets + [target])[i] == targets[i];
      }
    }
  }

  /** Why loading a middleware path failed: `importlib.import_module('')`
      rejects an empty module name, and importing the module or looking up
      the class can fail. */
  datatype RegisterError = EmptyModuleName(path: string) | ImportFailed(path: string)

  /** Whether `path` names a class that can be imported and instantiated;
      `importable` says which (module, class) pairs exist. */
  predicate Loadable(path: string, importable: (string, string) -> bool)
  {
    var parts := SplitModulePath(path);
    parts.0 != "" && importable(parts.0, parts.1)
  }

  /** The index of the first path that cannot be loaded, or `|paths|`. */
  function FirstUnloadable(paths: seq<string>, importable: (string, string) -> bool): (k: nat)
    ensures k <= |paths|
    ensures forall i :: 0 <= i < k ==> Loadable(paths[i], importable)
    ensures k < |paths| ==> !Loadable(paths[k], importable)
  {
    if paths == [] || !Loadable(paths[0], importable) then 0
    else 1 + FirstUnloadable(paths[1..], importable)
  }

  /** Any index before which every path loads and at which loading stops is
      the first unloadable one. */
  lemma {:induction false} FirstUnloadableAt(paths: seq<string>, importable: (string, string) -> bool, k: nat)
    requires k <= |paths|
    requires forall i :: 0 <= i < k ==> Loadable(paths[i], importable)
    requires k < |paths| ==> !Loadable(paths[k], importable)
    ensures FirstUnloadable(paths, importable) == k
  {
    if k > 0 {
      FirstUnloadableAt(paths[1..], importable, k - 1);
    }
  }

  /** The index of the first of `targets` whose `hook` raises, as `raises`
      says, or the length of `targets` when none does. */
  function FirstRaising(targets: seq<MiddlewareObject>, hook: Hook,
                        raises: (MiddlewareObject, Hook) -> Option<Exception>): (k: nat)
    ensures k <= |targets|
    ensures forall i :: 0 <= i < k ==> raises(targets[i], hook).None?
    ensures k < |targets| ==> raises(targets[k], hook).Some?
  {
    if targets == [] || raises(targets[0], hook).Some? then 0
    else 1 + FirstRaising(targets[1..], hook, raises)
  }

  /** The loop of `run_middleware_hook(hook_name, *args)` over `targets`:
      the calls it makes and how it ends. Each target's hook is called in
      turn until one of them raises, as `raises` says; that error
      propagates and the later targets are not called. */
  function HookRun(targets: seq<MiddlewareObject>, hook: Hook, raises: (MiddlewareObject, Hook) -> Option<Exception>)
    : (seq<HookCall>, Outcome<Exception>)
  {
    if targets == [] then ([], Pass)
    else if raises(targets[0], hook).Some? then ([HookCall(targets[0], hook)], Fail(raises(targets[0], hook).value))
    else
      var rest := HookRun(targets[1..], hook, raises);
      ([HookCall(targets[0], hook)] + rest.0, rest.1)
  }

  /** The hook loop calls every target up to and including the first whose
      hook raises, in order, and ends with that error; when none raises it
      calls them all and completes. */
  lemma {:induction false} HookRunStops(targets: seq<MiddlewareObject>, hook: Hook,
                                        raises: (MiddlewareObject, Hook) -> Option<Exception>)
    ensures var k := FirstRaising(targets, hook, raises);
      var (made, r) := HookRun(targets, hook, raises);
      && (k == |targets| ==> r == Pass && made == Dispatches(targets, hook))
      && (k < |targets| ==> r == Fail(raises(targets[k], hook).value) && made == Dispatches(targets[..k + 1], hook))
  {
    if targets != [] {
      var t := targets[0];
      if raises(t, hook).Some? {
        assert targets[..1][1..] == [];
      } else {
        HookRunStops(targets[1..], hook, raises);
        var k := FirstRaising(targets[1..], hook, raises);
        if k < |targets| - 1 {
          assert targets[..k + 2][1..] == targets[1..][..k + 1];
        }
      }
    }
  }

  /** Splits `path`, imports its module and instantiates its class. */
  method Load(path: string, importable: (string, string) -> bool) returns (r: Result<MiddlewareObject, RegisterError>)
    ensures r.Success? <==> Loadable(path, importable)
    ensures r.Success? ==> fresh(r.value) && r.value.Instantiates(path)
    ensures r.Failure? ==> r.error == (if SplitModulePath(path).0 == "" then EmptyModuleName(path) else ImportFailed(path))
  {
    var parts := SplitModulePath(path);
    if parts.0 == "" {
      return Failure(EmptyModuleName(path));
    }
    if !importable(parts.0, parts.1) {
      return Failure(ImportFailed(path));
    }
    var middleware := new MiddlewareObject(parts.0, parts.1);
    r := Success(middleware);
  }

  /** The `i`-th object instantiates the class the `i`-th path names. */
  ghost predicate InstantiatesAll(ms: seq<MiddlewareObject>, paths: seq<string>)
  {
    |ms| <= |paths| && forall j :: 0 <= j < |ms| ==> ms[j].Instantiates(paths[j])
  }

  lemma InstantiatesAllSnoc(ms: seq<MiddlewareObject>, m: MiddlewareObject, paths: seq<string>)
    requires InstantiatesAll(ms, paths) && |ms| < |paths| && m.Instantiates(paths[|ms|])
    ensures InstantiatesAll(ms + [m], paths)
  {
    forall j | 0 <= j < |ms| + 1 ensures (ms + [m])[j].Instantiates(paths[j]) {
      if j < |ms| {
        assert (ms + [m])[j] == ms[j];
      }
    }
  }

  /** No object occurs twice. */
  predicate Distinct(ms: seq<MiddlewareObject>)
  {
    forall j, k :: 0 <= j < k < |ms| ==> ms[j] != ms[k]
  }

  lemma DistinctSnoc(ms: seq<MiddlewareObject>, m: MiddlewareObject)
    requires Distinct(ms) && m !in ms
    ensures Distinct(ms + [m])
  {
  }

  /** The `_middlewares` global together with the record of hook calls made
      on the objects it holds. */
  class Registry {
    var middlewares: seq<MiddlewareObject>
    var calls: seq<HookCall>

    constructor ()
      ensures middlewares == [] && calls == []
    {
      middlewares := [];
      calls := [];
    }

    /** `register_middleware(paths)`: the list is emptied, then each path is
        split, its class instantiated, `setup()` called on the new object and
        the object appended. A path that cannot be loaded stops the loop, so
        the list keeps the objects of the paths before it. */
    method RegisterMiddleware(paths: seq<string>, importable: (string, string) -> bool)
      returns (r: Outcome<RegisterError>)
      modifies this
      ensures |middlewares| == FirstUnloadable(paths, importable)
      ensures r.Pass? <==> |middlewares| == |paths|
      ensures r.Fail? ==> r.error == (if SplitModulePath(paths[|middlewares|]).0 == ""
                                      then EmptyModuleName(paths[|middlewares|])
                                      else ImportFailed(paths[|middlewares|]))
      ensures forall m :: m in middlewares ==> fresh(m)
      ensures InstantiatesAll(middlewares, paths)
      ensures Distinct(middlewares)
      ensures calls == old(calls) + Dispatches(middlewares, Setup)
    {
      var ms: seq<MiddlewareObject> := [];
      var cs := calls;
      var i := 0;
      while i < |paths|
        invariant 0 <= i <= |paths|
        invariant |ms| == i
        invariant forall j :: 0 <= j < i ==> Loadable(paths[j], importable)
        invariant forall m :: m in ms ==> fresh(m)
        invariant InstantiatesAll(ms, paths)
        invariant Distinct(ms)
        invariant cs == old(calls) + Dispatches(ms, Setup)
      {
        var loaded := Load(paths[i], importable);
        if loaded.Failure? {
          FirstUnloadableAt(paths, importable, i);
          middlewares, calls := ms, cs;
          return Fail(loaded.error);
        }
        var middleware := loaded.value;
        InstantiatesAllSnoc(ms, middleware, paths);
        DistinctSnoc(ms, middleware);
        DispatchesSnoc(ms, middleware, Setup);
        cs := cs + [HookCall(middleware, Setup)];
        ms := ms + [middleware];
        i := i + 1;
      }
      middlewares, calls := ms, cs;
      FirstUnloadableAt(paths, importable, i);
      r := Pass;
    }

    /** `run_middleware_hook(hook_name, *args)`: the loop over the
        registered middleware makes the calls and ends as `HookRun` says,
        and the registry itself is not changed. */
    method RunMiddlewareHook(hook: Hook, raises: (MiddlewareObject, Hook) -> Option<Exception>)
      returns (r: Outcome<Exception>)
      modifies this`calls
      ensures calls == old(calls) + HookRun(middlewares, hook, raises).0
      ensures r == HookRun(middlewares, hook, raises).1
    {
      var ms := middlewares;
      var made: seq<HookCall> := [];
      var i := 0;
      assert ms[i..] == ms && made + HookRun(ms, hook, raises).0 == HookRun(ms, hook, raises).0;
      while i < |ms|
        invariant 0 <= i <= |ms|
        invariant calls == old(calls)
        invariant HookRun(ms, hook, raises) ==
          (made + HookRun(ms[i..], hook, raises).0, HookRun(ms[i..], hook, raises).1)
      {
        assert ms[i..][0] == ms[i] && ms[i..][1..] == ms[i + 1..];
        var call := HookCall(ms[i], hook);
        if raises(ms[i], hook).Some? {
          assert HookRun(ms[i..], hook, raises) == ([call], Fail(raises(ms[i], hook).value));
          calls := calls + (made + [call]);
          return Fail(raises(ms[i], hook).value);
        }
        ConcatAssoc(made, [call], HookRun(ms[i + 1..], hook, raises).0);
        made := made + [call];
        i := i + 1;
      }
      assert ms[i..] == [] && made + [] == made;
      calls := calls + made;
      r := Pass;
    }
  }
}
