/**
 * Coercion of "one or many" arguments and the composite handler that
 * calls several callbacks in order. Callbacks are opaque: what one
 * returns for given arguments is the caller-supplied `apply`.
 */
module Dispatch {
  import opened Values

  /** An argument that is either a single value or an array of them. */
  datatype OneOrMany<T> = One(item: T) | Many(items: seq<T>)

  /**
   * `toArray(item)`: an array keeps its elements in order; anything that
   * is not an object becomes a one-element array.
   */
  function ToArray<T>(x: OneOrMany<T>): (r: seq<T>)
    ensures x.One? ==> |r| == 1 && r[0] == x.item
    ensures x.Many? ==> r == x.items
  {
    match x
    case One(v) => [v]
    case Many(vs) => vs
  }

  /** Coercing what `toArray` returned changes nothing more. */
  lemma ToArrayIdempotent<T>(x: OneOrMany<T>)
    ensures ToArray(Many(ToArray(x))) == ToArray(x)
  {
  }

  /**
   * A function the router is given or builds: a user callback known by its
   * id, or the handler `controllerHandler` makes from a normalised config
   * and the controller base url it captured when it was made.
   */
  datatype Callback = Fn(id: nat) | ControllerHandler(base: string, config: Obj)

  /** What calling a callback with some arguments returns. */
  type Apply = (Callback, seq<Value>) -> Value

  /** The composite handler `callFunctions` returns for an array of callbacks. */
  datatype Handler = Handler(callbacks: seq<Callback>)

  /** A route of the route table: a pattern and the handler registered for it. */
  datatype Route = Route(pattern: string, handler: Handler)

  /** The events the router emits. */
  datatype Event =
    | RouteEvent(url: string, result: seq<Value>)
    | BypassedEvent(input: Value, results: seq<Value>)
    | ControllerEvent(config: Obj)

  /** A loaded controller module: its function-valued properties, by name, as function ids. */
  datatype ControllerModule = ControllerModule(members: map<string, nat>)

  /**
   * One observable step: a call of a function, an emitted event, or the
   * router recording a controller and its fragment as the active ones.
   */
  datatype Entry =
    | Call(callee: Callback, args: seq<Value>)
    | Emit(event: Event)
    | SetActive(controller: ControllerModule, fragment: string)

  /** The calls of `callbacks`, in order, each with `args`. */
  function Invocations(callbacks: seq<Callback>, args: seq<Value>): (calls: seq<Entry>)
    ensures |calls| == |callbacks|
    ensures forall i :: 0 <= i < |callbacks| ==> calls[i] == Call(callbacks[i], args)
  {
    seq(|callbacks|, i requires 0 <= i < |callbacks| => Call(callbacks[i], args))
  }

  /** The results of calling `callbacks`, in order, each with `args`. */
  function Outputs(callbacks: seq<Callback>, args: seq<Value>, apply: Apply): (results: seq<Value>)
    ensures |results| == |callbacks|
    ensures forall i :: 0 <= i < |callbacks| ==> results[i] == apply(callbacks[i], args)
  {
    seq(|callbacks|, i requires 0 <= i < |callbacks| => apply(callbacks[i], args))
  }

  /**
   * The composite handler of `callFunctions` invoked with `args`: calls
   * every callback once, in order, with the same arguments, and collects
   * their results in the same order.
   */
  method CallFunctions(callbacks: seq<Callback>, args: seq<Value>, apply: Apply)
    returns (results: seq<Value>, calls: seq<Entry>)
    ensures |results| == |callbacks| && |calls| == |callbacks|
    ensures forall i :: 0 <= i < |callbacks| ==> results[i] == apply(callbacks[i], args)
    ensures forall i :: 0 <= i < |callbacks| ==> calls[i] == Call(callbacks[i], args)
  {
    results, calls := [], [];
    for i := 0 to |callbacks|
      invariant |results| == i && |calls| == i
      invariant forall j :: 0 <= j < i ==> results[j] == apply(callbacks[j], args)
      invariant forall j :: 0 <= j < i ==> calls[j] == Call(callbacks[j], args)
    {
      calls := calls + [Call(callbacks[i], args)];
      results := results + [apply(callbacks[i], args)];
    }
  }
}
