/**
 * What a controller handler computes when its controller module has
 * been loaded: the module id it asks for, the argument list of the
 * action, the unload call on the previous controller, and the error
 * for a missing action.
 */
module Controllers {
  import opened Wrappers
  import opened Values
  import opened Config
  import opened Dispatch

  /** The default of the router's `baseControllerUrl`. */
  const DefaultControllerUrl := "controllers/"

  /** The module id a controller handler asks the loader for: its base followed by the controller name. */
  function ModuleId(base: string, config: Obj): (id: string)
    ensures |base| <= |id| && id[..|base|] == base
    ensures id[|base|..] == Stringify(Get(config, "controller"))
  {
    base + Stringify(Get(config, "controller"))
  }

  /** For a config made from a controller name, the id is the base followed by that name. */
  lemma ModuleIdOfName(base: string, controller: string, action: Value)
    ensures ModuleId(base, Normalise(Name(controller), action)) == base + controller
  {
  }

  /** The property of the module that holds the action: `controller[config.action]`. */
  function ActionKey(config: Obj): (key: string)
    ensures Get(config, "action").Str? ==> key == Get(config, "action").s
    ensures !Has(config, "action") ==> key == "undefined"
  {
    Stringify(Get(config, "action"))
  }

  /** `router.currentFragment` as a JavaScript value: `undefined` before the first activation. */
  function FragmentValue(fragment: Option<string>): (v: Value)
    ensures fragment.None? <==> v == Undefined
    ensures fragment.Some? ==> v == Str(fragment.value)
  {
    match fragment
    case None => Undefined
    case Some(f) => Str(f)
  }

  /**
   * `_.merge(dest, src)` on two arrays: element by element, a source
   * element replaces the destination's unless it is `undefined` where the
   * destination has one; the longer array decides the length.
   */
  function Overlay(dest: seq<Value>, src: seq<Value>): (r: seq<Value>)
    ensures |r| == if |dest| < |src| then |src| else |dest|
    ensures forall i :: 0 <= i < |r| ==>
              r[i] == if i < |src| && (i >= |dest| || src[i] != Undefined) then src[i] else dest[i]
  {
    if src == [] then dest
    else if dest == [] then src
    else [if src[0] != Undefined then src[0] else dest[0]] + Overlay(dest[1..], src[1..])
  }

  /** `_.merge(dest, source)` where the source may be `undefined` (None), which merge skips. */
  function Merge(dest: seq<Value>, source: Option<seq<Value>>): (r: seq<Value>)
    ensures source.None? ==> r == dest
    ensures source.Some? ==> |r| == if |dest| < |source.value| then |source.value| else |dest|
    ensures source.Some? ==> forall i :: 0 <= i < |r| ==>
              r[i] == if i < |source.value| && (i >= |dest| || source.value[i] != Undefined)
                      then source.value[i] else dest[i]
  {
    match source
    case None => dest
    case Some(src) => Overlay(dest, src)
  }

  /**
   * The action's arguments as the handler computes them: the local
   * `var args` of the module callback is hoisted, so the `args` merged in
   * is that local, still `undefined`, and not the handler's own arguments.
   */
  function ActionArgsAsWritten(oldFrag: Value, newFrag: Value, callerArgs: seq<Value>): (r: seq<Value>)
    ensures |r| == 2 && r[0] == oldFrag && r[1] == newFrag
  {
    var hoistedLocalArgs: Option<seq<Value>> := None;
    Merge([oldFrag, newFrag], hoistedLocalArgs)
  }

  /** The action's arguments as intended: the old and the new fragment, then the handler's own arguments. */
  function ActionArgs(oldFrag: Value, newFrag: Value, callerArgs: seq<Value>): (r: seq<Value>)
    ensures |r| == 2 + |callerArgs|
    ensures r[0] == oldFrag && r[1] == newFrag
    ensures r[2..] == callerArgs
  {
    [oldFrag, newFrag] + callerArgs
  }

  /** As written, any arguments the handler is called with never reach the action. */
  lemma CallerArgsDropped(oldFrag: Value, newFrag: Value, callerArgs: seq<Value>)
    requires callerArgs != []
    ensures ActionArgsAsWritten(oldFrag, newFrag, callerArgs) == [oldFrag, newFrag]
    ensures ActionArgsAsWritten(oldFrag, newFrag, callerArgs) != ActionArgs(oldFrag, newFrag, callerArgs)
  {
  }

  /** Without handler arguments, the case the tests exercise, both give exactly `[oldFrag, newFrag]`. */
  lemma ArgsWithoutCallerArgs(oldFrag: Value, newFrag: Value)
    ensures ActionArgsAsWritten(oldFrag, newFrag, []) == [oldFrag, newFrag]
    ensures ActionArgs(oldFrag, newFrag, []) == [oldFrag, newFrag]
  {
  }

  /** Had the handler's arguments reached the merge, they would have overwritten the fragments, not followed them. */
  lemma MergeOverwritesFragments(oldFrag: Value, newFrag: Value, x: Value)
    requires x != Undefined
    ensures Merge([oldFrag, newFrag], Some([x])) == [x, newFrag]
  {
  }

  /** The call of the previous controller's `unload`, if there is a previous controller and it has one. */
  function UnloadCalls(previous: Option<ControllerModule>, args: seq<Value>): (calls: seq<Entry>)
    ensures |calls| <= 1
    ensures calls != [] <==> previous.Some? && "unload" in previous.value.members
    ensures calls != [] ==> calls[0] == Call(Fn(previous.value.members["unload"]), args)
  {
    if previous.Some? && "unload" in previous.value.members
    then [Call(Fn(previous.value.members["unload"]), args)]
    else []
  }

  /** The error for an action the controller lacks. */
  function NotFound(config: Obj): (e: RouterError)
    ensures e.MissingAction?
    ensures e.Message() == "Cannot find action " + Stringify(Get(config, "action"))
                           + " on controller " + Stringify(Get(config, "controller"))
  {
    MissingAction(Get(config, "action"), Get(config, "controller"))
  }

  /** For a config made from names, the message names the action and the controller. */
  lemma NotFoundNamesBoth(controller: string, action: string)
    requires action != ""
    ensures NotFound(Normalise(Name(controller), Str(action))).Message()
         == "Cannot find action " + action + " on controller " + controller
  {
  }
}
