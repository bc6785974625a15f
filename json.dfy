/**
 * JSON values as the client sees them after `response.json()`, with the
 * JavaScript notions the source applies to them: truthiness (`x || y`,
 * `if (x)`), property access (`v.key`, which throws on `null`) and
 * conversion to a string (`String(v)`, as `new Error(message)` does).
 * Numbers are whole numbers; fractional JSON numbers are not part of this model.
 */
module Json {
  import opened Text

  datatype Value =
    | Null
    | Bool(b: bool)
    | Num(n: int)
    | Str(s: string)
    | Arr(items: seq<Value>)
    | Obj(fields: map<string, Value>)

  /** The empty object `{}`. */
  const EmptyObject: Value := Obj(map[])

  /** JavaScript truthiness: `null`, `false`, `0` and `""` are falsy; arrays and objects never are. */
  predicate Truthy(v: Value) {
    match v
    case Null => false
    case Bool(b) => b
    case Num(n) => n != 0
    case Str(s) => s != ""
    case Arr(_) => true
    case Obj(_) => true
  }

  /** The outcome of a property access `v.key`. */
  datatype Access = TypeError | Undefined | Found(value: Value) {

    /** Optional chaining `a?.key`: a missing value gives `undefined` instead of throwing. */
    function OrUndefined(): Access {
      if TypeError? then Undefined else this
    }

    /** `a.key` on the result of a previous access; reading a property of `undefined` throws. */
    function Then(key: string): Access {
      match this
      case TypeError => TypeError
      case Undefined => TypeError
      case Found(v) => Get(v, key)
    }
  }

  /**
   * `v.key`: throws only on `null`; gives the member of an object that has
   * it, and `undefined` for every other value.
   */
  function Get(v: Value, key: string): (a: Access)
    ensures a.TypeError? <==> v.Null?
    ensures a.Found? <==> v.Obj? && key in v.fields
    ensures a.Found? ==> a.value == v.fields[key]
  {
    match v
    case Null => TypeError
    case Obj(f) => if key in f then Found(f[key]) else Undefined
    case _ => Undefined
  }

  /** `String(v)` for JSON values. */
  function ToJsString(v: Value): string
    decreases v, 1
  {
    match v
    case Null => "null"
    case Bool(b) => if b then "true" else "false"
    case Num(n) => IntToString(n)
    case Str(s) => s
    case Arr(items) => JoinItems(items, v)
    case Obj(_) => "[object Object]"
  }

  /** `Array.prototype.join(',')`: `null` elements contribute the empty string. */
  function JoinItems(items: seq<Value>, ghost parent: Value): string
    requires forall i :: 0 <= i < |items| ==> items[i] < parent
    decreases parent, 0, |items|
  {
    if items == [] then ""
    else
      var first := if items[0].Null? then "" else ToJsString(items[0]);
      if |items| == 1 then first else first + "," + JoinItems(items[1..], parent)
  }

  /** Truthy strings and numbers convert to non-empty strings. */
  lemma TruthyScalarString(v: Value)
    requires Truthy(v) && (v.Str? || v.Num? || v.Bool?)
    ensures ToJsString(v) != ""
  {
  }
}
