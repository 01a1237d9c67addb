/**
 * Normalisation of the configuration given to `controller` and
 * `fallbackController`: a controller name, a name and an action, or a
 * config object with an optional action, all become one object whose
 * `action` is set.
 */
module Config {
  import opened Values

  /** The first argument of `normalise`: a controller name or a config object. */
  datatype ConfigArg = Name(controller: string) | Record(fields: Obj)

  /** The action used when none is given. */
  const DefaultAction: Value := Str("init")

  /** The object a call starts from: `{controller: name}` for a name, a copy of the object otherwise. */
  function Initial(config: ConfigArg): (o: Obj)
    ensures config.Name? ==> Keys(o) == ["controller"] && Get(o, "controller") == Str(config.controller)
    ensures config.Record? ==> o == config.fields
  {
    match config
    case Name(s) => [Field("controller", Str(s))]
    case Record(o) => o
  }

  /**
   * `normalise(config, action)`. Every property other than `action` is
   * copied; a truthy `action` argument wins, then a truthy existing
   * action, then "init". An existing `action` keeps its place among the
   * properties; a new one is added last.
   */
  function Normalise(config: ConfigArg, action: Value): (r: Obj)
    ensures Truthy(Get(r, "action"))
    ensures Truthy(action) ==> Get(r, "action") == action
    ensures !Truthy(action) && Truthy(Get(Initial(config), "action")) ==>
              Get(r, "action") == Get(Initial(config), "action")
    ensures !Truthy(action) && !Truthy(Get(Initial(config), "action")) ==>
              Get(r, "action") == DefaultAction
    ensures forall k :: k != "action" ==> Get(r, k) == Get(Initial(config), k)
    ensures Has(Initial(config), "action") ==> Keys(r) == Keys(Initial(config))
    ensures !Has(Initial(config), "action") ==> Keys(r) == Keys(Initial(config)) + ["action"]
    ensures Distinct(Initial(config)) ==> Distinct(r)
  {
    var copy := Initial(config);
    var given := if Truthy(action) then Put(copy, "action", action) else copy;
    var current := Get(given, "action");
    Put(given, "action", if Truthy(current) then current else DefaultAction)
  }

  /**
   * `normalise("Foo")` is `{controller: "Foo", action: "init"}` and
   * `normalise("Foo", "bar")` is `{controller: "Foo", action: "bar"}`,
   * properties in that order.
   */
  lemma NormaliseName(s: string, action: Value)
    ensures Normalise(Name(s), action)
         == [Field("controller", Str(s)), Field("action", if Truthy(action) then action else DefaultAction)]
  {
  }

  /** A config object without an action gets `action: "init"` appended and is otherwise as given. */
  lemma NormaliseAddsDefault(o: Obj)
    requires !Has(o, "action")
    ensures Normalise(Record(o), Undefined) == o + [Field("action", DefaultAction)]
  {
    PutNew(o, "action", DefaultAction);
  }

  /** A config object that already has a truthy action comes back unchanged. */
  lemma NormaliseKeepsComplete(o: Obj)
    requires Truthy(Get(o, "action"))
    ensures Normalise(Record(o), Undefined) == o
  {
    PutSame(o, "action");
  }

  /** Normalising twice gives what normalising once gives. */
  lemma NormaliseIdempotent(config: ConfigArg, action: Value)
    ensures Normalise(Record(Normalise(config, action)), Undefined) == Normalise(config, action)
  {
    NormaliseKeepsComplete(Normalise(config, action));
  }
}
