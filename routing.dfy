/**
 * The router object: its configuration, the route table and bypass
 * handlers it registers on its crossroads instance, the currently
 * active controller and fragment, and a log of the calls it makes and
 * the events it emits.
 */
module Routing {
  import opened Wrappers
  import opened Values
  import opened Config
  import opened Location
  import opened Dispatch
  import opened Controllers

  class Router {
    /** The base path stripped from the location's pathname. */
    var base: string
    /** The pathname of the window's location, or None when there is no window. */
    var window: Option<string>
    /** The prefix of the module ids of controllers. */
    var baseControllerUrl: string
    /** The routes added to the crossroads instance, in order. */
    var routes: seq<Route>
    /** The handlers added to the crossroads instance's `bypassed` signal, in order. */
    var bypassed: seq<Handler>
    /** The controller whose action ran last, if any. */
    var currentController: Option<ControllerModule>
    /** The fragment at which it ran. */
    var currentFragment: Option<string>
    /** Calls made and events emitted, oldest first. */
    var log: seq<Entry>

    /** The active controller and its fragment are set together. */
    ghost predicate Valid()
      reads this
    {
      currentController.Some? == currentFragment.Some?
    }

    /**
     * `new Router(base, cr, config)` with a fresh crossroads instance:
     * the base defaults to '', the window is the global one if there is
     * one, and `config` may override `baseControllerUrl`.
     */
    constructor(basePath: Option<string>, globalWindow: Option<string>, controllerUrl: Option<string>)
      ensures Valid()
      ensures base == basePath.GetOr("") && window == globalWindow
      ensures baseControllerUrl == controllerUrl.GetOr(DefaultControllerUrl)
      ensures routes == [] && bypassed == []
      ensures currentController == None && currentFragment == None
      ensures log == []
    {
      base := basePath.GetOr("");
      window := globalWindow;
      baseControllerUrl := controllerUrl.GetOr(DefaultControllerUrl);
      routes, bypassed := [], [];
      currentController, currentFragment := None, None;
      log := [];
    }

    /**
     * `on(urls, callbacks)`: one route per url, in order, each with its own
     * url and all with the one composite handler of the callbacks.
     */
    method On(urls: OneOrMany<string>, callbacks: OneOrMany<Callback>) returns (self: Router)
      modifies this`routes
      ensures self == this
      ensures |routes| == |old(routes)| + |ToArray(urls)|
      ensures routes[..|old(routes)|] == old(routes)
      ensures forall i :: 0 <= i < |ToArray(urls)| ==>
                routes[|old(routes)| + i] == Route(ToArray(urls)[i], Handler(ToArray(callbacks)))
    {
      var us := ToArray(urls);
      var handler := Handler(ToArray(callbacks));
      for i := 0 to |us|
        invariant |routes| == |old(routes)| + i
        invariant routes[..|old(routes)|] == old(routes)
        invariant forall j :: 0 <= j < i ==> routes[|old(routes)| + j] == Route(us[j], handler)
      {
        routes := routes + [Route(us[i], handler)];
      }
      self := this;
    }

    /** `fallback(callbacks)`: one more bypass handler holding all the callbacks. */
    method Fallback(callbacks: OneOrMany<Callback>) returns (self: Router)
      modifies this`bypassed
      ensures self == this
      ensures bypassed == old(bypassed) + [Handler(ToArray(callbacks))]
    {
      bypassed := bypassed + [Handler(ToArray(callbacks))];
      self := this;
    }

    /** `controller(urls, config, action)`: routes the urls to a handler of the normalised config. */
    method Controller(urls: OneOrMany<string>, config: ConfigArg, action: Value) returns (self: Router)
      modifies this`routes
      ensures self == this
      ensures |routes| == |old(routes)| + |ToArray(urls)|
      ensures routes[..|old(routes)|] == old(routes)
      ensures forall i :: 0 <= i < |ToArray(urls)| ==>
                routes[|old(routes)| + i]
                == Route(ToArray(urls)[i], Handler([ControllerHandler(baseControllerUrl, Normalise(config, action))]))
    {
      self := On(urls, One(ControllerHandler(baseControllerUrl, Normalise(config, action))));
    }

    /** `fallbackController(config, action)`: a bypass handler of the normalised config. */
    method FallbackController(config: ConfigArg, action: Value) returns (self: Router)
      modifies this`bypassed
      ensures self == this
      ensures bypassed == old(bypassed) + [Handler([ControllerHandler(baseControllerUrl, Normalise(config, action))])]
    {
      self := Fallback(One(ControllerHandler(baseControllerUrl, Normalise(config, action))));
    }

    /**
     * The route's handler, as crossroads calls it on a match: the callbacks
     * run in order, then a `route` event carries the route's own url and
     * their results, which are also returned.
     */
    method FireRoute(index: nat, args: seq<Value>, apply: Apply) returns (result: seq<Value>)
      requires index < |routes|
      modifies this`log
      ensures |result| == |routes[index].handler.callbacks|
      ensures forall i :: 0 <= i < |result| ==> result[i] == apply(routes[index].handler.callbacks[i], args)
      ensures log == old(log) + Invocations(routes[index].handler.callbacks, args)
                     + [Emit(RouteEvent(routes[index].pattern, result))]
    {
      var route := routes[index];
      var calls;
      result, calls := CallFunctions(route.handler.callbacks, args, apply);
      assert calls == Invocations(route.handler.callbacks, args);
      log := log + calls + [Emit(RouteEvent(route.pattern, result))];
    }

    /**
     * A bypass handler, as crossroads calls it when nothing matches: the
     * callbacks run in order, then a `bypassed` event carries the first
     * argument (the url) and their results.
     */
    method FireBypass(index: nat, args: seq<Value>, apply: Apply)
      requires index < |bypassed|
      modifies this`log
      ensures log == old(log) + Invocations(bypassed[index].callbacks, args)
                     + [Emit(BypassedEvent(if args == [] then Undefined else args[0],
                                           Outputs(bypassed[index].callbacks, args, apply)))]
    {
      var handler := bypassed[index];
      var results, calls := CallFunctions(handler.callbacks, args, apply);
      assert calls == Invocations(handler.callbacks, args);
      assert results == Outputs(handler.callbacks, args, apply);
      log := log + calls + [Emit(BypassedEvent(if args == [] then Undefined else args[0], results))];
    }

    /**
     * What the module callback of a controller handler leaves behind, from
     * the active controller, fragment and log it started from, given the
     * action's arguments `args` and the new fragment `frag`. The previous
     * controller's `unload` has run first in either case. If the module
     * lacks the action, the outcome is the NotFound error and the active
     * controller and fragment are as they were. Otherwise the action runs,
     * then the `controller` event is emitted, and only then do the loaded
     * module and `frag` become the active ones.
     */
    ghost predicate AfterModuleLoaded(
      prevController: Option<ControllerModule>, prevFragment: Option<string>, prevLog: seq<Entry>,
      config: Obj, loaded: ControllerModule, args: seq<Value>, frag: string, apply: Apply,
      outcome: Result<Value, RouterError>)
      reads this
    {
      var unloads := UnloadCalls(prevController, args);
      var key := ActionKey(config);
      if key in loaded.members then
        && outcome == Success(apply(Fn(loaded.members[key]), args))
        && log == prevLog + unloads
                  + [Call(Fn(loaded.members[key]), args), Emit(ControllerEvent(config)), SetActive(loaded, frag)]
        && currentController == Some(loaded)
        && currentFragment == Some(frag)
      else
        && outcome == Failure(NotFound(config))
        && log == prevLog + unloads
        && currentController == prevController
        && currentFragment == prevFragment
    }

    /** The module callback of a controller handler, once the action's arguments and the new fragment are known. */
    method ModuleLoaded(config: Obj, loaded: ControllerModule, args: seq<Value>, frag: string, apply: Apply)
      returns (outcome: Result<Value, RouterError>)
      requires Valid()
      modifies this`currentController, this`currentFragment, this`log
      ensures Valid()
      ensures AfterModuleLoaded(old(currentController), old(currentFragment), old(log),
                                config, loaded, args, frag, apply, outcome)
    {
      log := log + UnloadCalls(currentController, args);
      var key := ActionKey(config);
      if key !in loaded.members {
        return Failure(NotFound(config));
      }
      var action := Fn(loaded.members[key]);
      var val := apply(action, args);
      log := log + [Call(action, args), Emit(ControllerEvent(config))];
      currentController := Some(loaded);
      currentFragment := Some(frag);
      log := log + [SetActive(loaded, frag)];
      outcome := Success(val);
    }

    /**
     * A controller handler's work once its module is loaded, as written:
     * without a window it fails before anything happens; otherwise
     * `unload` and the action get exactly the old and the new fragment,
     * whatever arguments the handler itself was called with.
     */
    method Activate(config: Obj, loaded: ControllerModule, callerArgs: seq<Value>, apply: Apply)
      returns (outcome: Result<Value, RouterError>)
      requires Valid()
      modifies this`currentController, this`currentFragment, this`log
      ensures Valid()
      ensures window.None? ==>
                && outcome == Failure(MissingWindow)
                && currentController == old(currentController)
                && currentFragment == old(currentFragment)
                && log == old(log)
      ensures window.Some? ==>
                var frag := GetFragment(window, base).value;
                AfterModuleLoaded(old(currentController), old(currentFragment), old(log), config, loaded,
                                  ActionArgsAsWritten(FragmentValue(old(currentFragment)), Str(frag), callerArgs),
                                  frag, apply, outcome)
    {
      var fragment := GetFragment(window, base);
      if fragment.Failure? {
        return Failure(fragment.error);
      }
      var args := ActionArgsAsWritten(FragmentValue(currentFragment), Str(fragment.value), callerArgs);
      outcome := ModuleLoaded(config, loaded, args, fragment.value, apply);
    }

    /** The same, with the intended argument list: the two fragments followed by the handler's own arguments. */
    method ActivateIntended(config: Obj, loaded: ControllerModule, callerArgs: seq<Value>, apply: Apply)
      returns (outcome: Result<Value, RouterError>)
      requires Valid()
      modifies this`currentController, this`currentFragment, this`log
      ensures Valid()
      ensures window.None? ==>
                && outcome == Failure(MissingWindow)
                && currentController == old(currentController)
                && currentFragment == old(currentFragment)
                && log == old(log)
      ensures window.Some? ==>
                var frag := GetFragment(window, base).value;
                AfterModuleLoaded(old(currentController), old(currentFragment), old(log), config, loaded,
                                  ActionArgs(FragmentValue(old(currentFragment)), Str(frag), callerArgs),
                                  frag, apply, outcome)
    {
      var fragment := GetFragment(window, base);
      if fragment.Failure? {
        return Failure(fragment.error);
      }
      var args := ActionArgs(FragmentValue(currentFragment), Str(fragment.value), callerArgs);
      outcome := ModuleLoaded(config, loaded, args, fragment.value, apply);
    }
  }

  /**
   * Two handlers of one controller, `init` then `second`, activated one
   * after the other on a fresh router with a window: `init` sees no old
   * fragment, `second` sees `init`'s fragment as the old one, and the
   * controller's `unload`, if it has one, runs between the two actions.
   */
  method ActivateTwice(r: Router, foo: ControllerModule, apply: Apply)
    returns (first: Result<Value, RouterError>, second: Result<Value, RouterError>)
    requires r.Valid() && r.window.Some? && r.currentController.None?
    requires "init" in foo.members && "second" in foo.members
    modifies r`currentController, r`currentFragment, r`log
    ensures first.Success? && second.Success?
    ensures r.currentController == Some(foo)
    ensures var frag := GetFragment(r.window, r.base).value;
            var initConfig := [Field("controller", Str("Foo")), Field("action", Str("init"))];
            var secondConfig := [Field("controller", Str("Foo")), Field("action", Str("second"))];
            && r.currentFragment == Some(frag)
            && r.log == old(r.log)
                      + [Call(Fn(foo.members["init"]), [Undefined, Str(frag)]), Emit(ControllerEvent(initConfig)),
                         SetActive(foo, frag)]
                      + UnloadCalls(Some(foo), [Str(frag), Str(frag)])
                      + [Call(Fn(foo.members["second"]), [Str(frag), Str(frag)]), Emit(ControllerEvent(secondConfig)),
                         SetActive(foo, frag)]
  {
    var initConfig := [Field("controller", Str("Foo")), Field("action", Str("init"))];
    var secondConfig := [Field("controller", Str("Foo")), Field("action", Str("second"))];
    assert ActionKey(initConfig) == "init";
    assert ActionKey(secondConfig) == "second";
    ghost var frag := GetFragment(r.window, r.base).value;
    first := r.Activate(initConfig, foo, [], apply);
    second := r.Activate(secondConfig, foo, [], apply);
  }

  /**
   * A fallback controller handler on a fresh router with a window, called
   * by the bypass signal with the unmatched url: the url does not reach
   * `init`, which gets `undefined` and the fragment only.
   */
  method ActivateFromBypass(r: Router, foo: ControllerModule, url: string, apply: Apply)
    returns (outcome: Result<Value, RouterError>)
    requires r.Valid() && r.window.Some? && r.currentController.None? && r.currentFragment.None?
    requires "init" in foo.members
    modifies r`currentController, r`currentFragment, r`log
    ensures var frag := GetFragment(r.window, r.base).value;
            var config := Normalise(Name("Foo"), Undefined);
            && outcome == Success(apply(Fn(foo.members["init"]), [Undefined, Str(frag)]))
            && r.log == old(r.log)
                      + [Call(Fn(foo.members["init"]), [Undefined, Str(frag)]), Emit(ControllerEvent(config)),
                         SetActive(foo, frag)]
  {
    var config := Normalise(Name("Foo"), Undefined);
    NormaliseName("Foo", Undefined);
    assert ActionKey(config) == "init";
    outcome := r.Activate(config, foo, [Str(url)], apply);
  }
}
