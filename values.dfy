/**
 * The part of JavaScript's value model the router looks at: truthiness,
 * conversion to a string, and plain objects whose own properties keep
 * their insertion order (which is what JSON.stringify shows).
 */
module Values {

  /** A JavaScript value. Numbers are integers here; objects and functions are known by identity. */
  datatype Value =
    | Undefined
    | Null
    | Bool(b: bool)
    | Num(n: int)
    | Str(s: string)
    | Ref(id: nat)

  /** JavaScript's ToBoolean: what `if (v)` and `v || w` test. */
  predicate Truthy(v: Value) {
    match v
    case Undefined => false
    case Null => false
    case Bool(b) => b
    case Num(n) => n != 0
    case Str(s) => s != ""
    case Ref(_) => true
  }

  function DigitChar(d: nat): char
    requires d < 10
  {
    "0123456789"[d]
  }

  /** Decimal digits of a natural number. */
  function NatString(n: nat): string
    decreases n
  {
    if n < 10 then [DigitChar(n)] else NatString(n / 10) + [DigitChar(n % 10)]
  }

  /** JavaScript's String(v), as used by `+` on strings and by property lookup. */
  function Stringify(v: Value): string {
    match v
    case Undefined => "undefined"
    case Null => "null"
    case Bool(b) => if b then "true" else "false"
    case Num(n) => if n < 0 then "-" + NatString(-n) else NatString(n)
    case Str(s) => s
    case Ref(_) => "[object Object]"
  }

  /** One own property of a plain object. */
  datatype Field = Field(key: string, value: Value)

  /** A plain object: its own properties in insertion order. */
  type Obj = seq<Field>

  /** The property names of `o`, in order. */
  function Keys(o: Obj): (ks: seq<string>)
    ensures |ks| == |o|
  {
    if o == [] then [] else [o[0].key] + Keys(o[1..])
  }

  /** `k` is an own property of `o`. */
  predicate Has(o: Obj, k: string) {
    k in Keys(o)
  }

  /** No property name occurs twice, as in every JavaScript object. */
  predicate Distinct(o: Obj) {
    o == [] || (o[0].key !in Keys(o[1..]) && Distinct(o[1..]))
  }

  /** The position of the first field named `k`. */
  function IndexOf(o: Obj, k: string): (i: nat)
    requires Has(o, k)
    ensures i < |o| && o[i].key == k
    ensures forall j :: 0 <= j < i ==> o[j].key != k
  {
    if o[0].key == k then 0 else 1 + IndexOf(o[1..], k)
  }

  /** `o[k]`: the value of the first field named `k`, `undefined` when there is none. */
  function Get(o: Obj, k: string): (v: Value)
    ensures !Has(o, k) ==> v == Undefined
    ensures Has(o, k) ==> v == o[IndexOf(o, k)].value
  {
    if o == [] then Undefined
    else if o[0].key == k then o[0].value
    else Get(o[1..], k)
  }

  /**
   * The assignment `o[k] = v`: an existing property keeps its place and
   * takes the new value; a new one goes at the end.
   */
  function Put(o: Obj, k: string, v: Value): (r: Obj)
    ensures Get(r, k) == v
    ensures forall k' :: k' != k ==> Get(r, k') == Get(o, k')
    ensures Has(o, k) ==> Keys(r) == Keys(o)
    ensures !Has(o, k) ==> Keys(r) == Keys(o) + [k]
    ensures Distinct(o) ==> Distinct(r)
  {
    if o == [] then [Field(k, v)]
    else if o[0].key == k then [Field(k, v)] + o[1..]
    else [o[0]] + Put(o[1..], k, v)
  }

  /** Writing back the value a property already has changes nothing. */
  lemma {:induction false} PutSame(o: Obj, k: string)
    requires Has(o, k)
    ensures Put(o, k, Get(o, k)) == o
  {
    if o[0].key != k {
      PutSame(o[1..], k);
    }
  }

  /** Assigning a property the object lacks appends exactly one field. */
  lemma {:induction false} PutNew(o: Obj, k: string, v: Value)
    requires !Has(o, k)
    ensures Put(o, k, v) == o + [Field(k, v)]
  {
    if o != [] {
      PutNew(o[1..], k, v);
    }
  }

  /** The errors the router raises. */
  datatype RouterError =
    | MissingWindow
    | MissingAction(action: Value, controller: Value)
  {
    /** The message of the Error the router throws. */
    function Message(): string {
      match this
      case MissingWindow => "Need to mock window for node"
      case MissingAction(a, c) =>
        "Cannot find action " + Stringify(a) + " on controller " + Stringify(c)
    }
  }
}
