/**
  The part of JavaScript's value semantics that the clients and helpers rely
  on: truthiness, `null`/`undefined`, property access with (`a?.b`) and
  without (`a.b`) optional chaining, `??`, and the string conversion a
  template literal (`${v}`) performs. Numbers are integers here.
 */
module Js {

  datatype Value =
    | Undefined
    | Null
    | Bool(b: bool)
    | Num(n: int)
    | Str(s: string)
    | Arr(items: seq<Value>)
    | Obj(props: map<string, Value>)
      /** An `Error` instance: its `name`, its `message`, and in `props` the other properties a read of it sees, own or inherited. */
    | ErrorObj(name: string, message: string, props: map<string, Value>)

  /** How a JavaScript computation ends: with a value, or by throwing one. */
  datatype Completion<+T> = Normal(value: T) | Throw(exception: Value) {

    predicate IsFailure() {
      Throw?
    }

    function PropagateFailure<U>(): Completion<U>
      requires Throw?
    {
      Throw(exception)
    }

    function Extract(): T
      requires Normal?
    {
      value
    }
  }

  /** `v === null || v === undefined` */
  predicate IsNullish(v: Value) {
    v.Undefined? || v.Null?
  }

  /** `!!v` */
  predicate Truthy(v: Value) {
    match v
    case Undefined => false
    case Null => false
    case Bool(b) => b
    case Num(n) => n != 0
    case Str(s) => s != ""
    case _ => true
  }

  /** `typeof v === "object" && v !== null` */
  predicate IsObject(v: Value) {
    v.Arr? || v.Obj? || v.ErrorObj?
  }

  /**
    `v?.[key]`: the property `key` of `v`, or `undefined` when `v` is nullish
    or has no such property. Properties that primitives inherit from their
    prototypes are not modelled.
   */
  function Prop(v: Value, key: string): Value {
    match v
    case Obj(props) => if key in props then props[key] else Undefined
    case ErrorObj(name, message, props) =>
      if key == "name" then Str(name)
      else if key == "message" then Str(message)
      else if key in props then props[key]
      else Undefined
    case _ => Undefined
  }

  /** The `TypeError` an engine raises when reading `key` of `null` or `undefined`. */
  function ReadError(v: Value, key: string): Value {
    ErrorObj("TypeError", "Cannot read properties of " + ToString(v) + " (reading '" + key + "')", map[])
  }

  /** `v.key`: throws on a nullish `v`, and otherwise agrees with `v?.[key]`. */
  function Member(v: Value, key: string): (r: Completion<Value>)
    ensures r.Throw? <==> IsNullish(v)
    ensures r.Normal? ==> r.value == Prop(v, key)
  {
    if IsNullish(v) then Throw(ReadError(v, key)) else Normal(Prop(v, key))
  }

  /** `v ?? fallback` */
  function Coalesce(v: Value, fallback: Value): (r: Value)
    ensures !IsNullish(v) ==> r == v
    ensures IsNullish(v) ==> r == fallback
  {
    if IsNullish(v) then fallback else v
  }

  function Digit(d: nat): (c: char)
    requires d < 10
    ensures '0' <= c <= '9'
  {
    "0123456789"[d]
  }

  /** The decimal text of a natural number, most significant digit first. */
  function NatToString(n: nat): (s: string)
    ensures 1 <= |s|
    ensures forall i :: 0 <= i < |s| ==> '0' <= s[i] <= '9'
    ensures n < 10 <==> |s| == 1
  {
    if n < 10 then [Digit(n)] else NatToString(n / 10) + [Digit(n % 10)]
  }

  function IntToString(n: int): string {
    if n < 0 then "-" + NatToString(-n) else NatToString(n)
  }

  /** `${v}`: the string a template literal makes of `v`. */
  function ToString(v: Value): string
    decreases v, 1, 0
  {
    match v
    case Undefined => "undefined"
    case Null => "null"
    case Bool(b) => if b then "true" else "false"
    case Num(n) => IntToString(n)
    case Str(s) => s
    case Arr(items) => JoinItems(items, 0)
    case Obj(_) => "[object Object]"
      // Error.prototype.toString
    case ErrorObj(name, message, _) =>
      if name == "" then message
      else if message == "" then name
      else name + ": " + message
  }

  /** `items.slice(i).join(",")`, where `null` and `undefined` elements print as nothing. */
  function JoinItems(items: seq<Value>, i: nat): string
    requires i <= |items|
    decreases Arr(items), 0, |items| - i
  {
    if i == |items| then ""
    else
      var head := if IsNullish(items[i]) then "" else ToString(items[i]);
      if i + 1 == |items| then head else head + "," + JoinItems(items, i + 1)
  }
}
