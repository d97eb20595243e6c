/** JavaScript values as the simulator's handlers see them: inbound
    payloads, cached snapshots and outbound bodies. */
module Values {

  datatype Option<+T> = None | Some(value: T)

  /** The completion of an evaluation that may throw. `Err` carries the kind
      of exception; in this model it is always a TypeError. */
  datatype Result<+T> = Ok(value: T) | Err(error: string) {
    predicate IsFailure() { Err? }

    function PropagateFailure<U>(): Result<U>
      requires Err?
    {
      Err(error)
    }

    function Extract(): T
      requires Ok?
    {
      value
    }
  }

  const TypeError := "TypeError"

  /** A JavaScript value. A number is represented by the text `String(n)`
      prints for it ("15.15", "0", "NaN"), so that string conversion and
      `parseFloat` can be stated exactly. An object is the map of its own
      enumerable fields; the order of its keys is not modelled. */
  datatype Value =
    | Undefined
    | Null
    | Bool(b: bool)
    | Num(repr: string)
    | Str(s: string)
    | Arr(items: seq<Value>)
    | Obj(fields: map<string, Value>)

  /** `undefined` and `null`: the two values whose properties cannot be read. */
  predicate Nullish(v: Value) {
    v.Undefined? || v.Null?
  }

  /** JavaScript truthiness: what `if (v)`, `!v`, `v ? a : b` and the
      short-circuit `||` and `&&` test. */
  predicate Truthy(v: Value) {
    match v
    case Undefined => false
    case Null => false
    case Bool(b) => b
    case Num(r) => r != "0" && r != "NaN"
    case Str(s) => s != ""
    case Arr(_) => true
    case Obj(_) => true
  }

  /** `v.key` on a value that is neither undefined nor null: an own field of
      an object, and undefined otherwise. */
  function Field(v: Value, key: string): Value
    requires !Nullish(v)
  {
    if v.Obj? && key in v.fields then v.fields[key] else Undefined
  }

  /** `v.key` on any value: reading a property of undefined or null throws. */
  function Prop(v: Value, key: string): (r: Result<Value>)
    ensures r.Err? <==> Nullish(v)
    ensures r.Ok? ==> r.value == Field(v, key)
  {
    if Nullish(v) then Err(TypeError) else Ok(Field(v, key))
  }

  /** `String(v)`: what `+` with a string and a template literal `${v}`
      produce. An array prints as its items joined by commas, with undefined
      and null items printed as nothing. */
  function ToText(v: Value): (t: string)
    ensures v.Str? ==> t == v.s
    ensures v.Num? ==> t == v.repr
    ensures v.Undefined? ==> t == "undefined"
    decreases v
  {
    match v
    case Undefined => "undefined"
    case Null => "null"
    case Bool(b) => if b then "true" else "false"
    case Num(r) => r
    case Str(s) => s
    case Arr(items) =>
      CommaJoin(seq(|items|, i requires 0 <= i < |items| =>
                      if Nullish(items[i]) then "" else ToText(items[i])))
    case Obj(_) => "[object Object]"
  }

  function CommaJoin(parts: seq<string>): string {
    if |parts| == 0 then ""
    else if |parts| == 1 then parts[0]
    else parts[0] + "," + CommaJoin(parts[1..])
  }

  /** Header maps, keyed by the lower-case names the HTTP server gives
      inbound headers. */
  type Headers = map<string, string>

  /** `m[key]` on a string-valued map: absent keys read as undefined. */
  function Get(m: map<string, string>, key: string): Option<string> {
    if key in m then Some(m[key]) else None
  }

  /** A possibly undefined string as a JavaScript value. */
  function OptionalStr(o: Option<string>): Value {
    match o
    case Some(s) => Str(s)
    case None => Undefined
  }

  /** A possibly undefined string spliced into a string by `+` or `${…}`. */
  function Interpolate(o: Option<string>): (t: string)
    ensures o.Some? ==> t == o.value
    ensures o.None? ==> t == "undefined"
  {
    ToText(OptionalStr(o))
  }
}
