/**
 * The slice of JavaScript's value semantics that the upload bookkeeping
 * depends on: which values are falsy (every `!x` and `x || d` in the
 * source), how a value becomes a property key (every `obj[x]` lookup),
 * and the errors the core throws or rejects with.
 */
module JsValue {

  datatype Option<T> = None | Some(value: T)

  /** A JavaScript value. Numbers are integers only; objects and arrays are
      compared structurally, which is all the core ever needs of them. */
  datatype Value =
    | Undefined
    | Null
    | Bool(b: bool)
    | Num(n: int)
    | Str(s: string)
    | Arr(items: seq<Value>)
    | Obj(props: map<string, Value>)
    | Func(source: string)

  /** The errors of the core. `BadRequest` is the error tag produced for a
      rejected file type; `Thrown` is a plain `new Error(message)`;
      `TypeError` is the runtime's own; `Raised` is whatever a transform or
      the multipart parser fails with, kept opaque. */
  datatype Error =
    | BadRequest(message: string)
    | Thrown(message: string)
    | TypeError(message: string)
    | Raised(reason: Value)

  datatype Result<T> = Ok(value: T) | Err(error: Error)

  /** JavaScript truthiness: `undefined`, `null`, `false`, `0` and `""` are
      the falsy values; every array, object and function is truthy. */
  predicate Truthy(v: Value)
  {
    match v
    case Undefined => false
    case Null => false
    case Bool(b) => b
    case Num(n) => n != 0
    case Str(s) => s != ""
    case Arr(_) => true
    case Obj(_) => true
    case Func(_) => true
  }

  /** The decimal digits of a natural number, most significant first. */
  function NatToDecimal(n: nat): (r: string)
    ensures |r| > 0
    ensures forall i :: 0 <= i < |r| ==> '0' <= r[i] <= '9'
    decreases n
  {
    var digit := ['0' + (n % 10) as char];
    if n < 10 then digit else NatToDecimal(n / 10) + digit
  }

  /** `String(n)` for an integer. */
  function IntToDecimal(n: int): string
  {
    if n < 0 then "-" + NatToDecimal(-n) else NatToDecimal(n)
  }

  /** `parts.join(",")`. */
  function Join(parts: seq<string>): (r: string)
    ensures |parts| == 1 ==> r == parts[0]
  {
    if |parts| == 0 then ""
    else if |parts| == 1 then parts[0]
    else parts[0] + "," + Join(parts[1..])
  }

  /** The string a value turns into when it is used as a property key, as
      in `uploaders[mapping]`: JavaScript's `String(v)`. An array joins
      its elements with ",", where `null` and `undefined` elements print
      as "". */
  function PropertyKey(v: Value): (k: string)
    ensures v.Str? ==> k == v.s
    ensures v.Undefined? ==> k == "undefined"
    decreases v
  {
    match v
    case Undefined => "undefined"
    case Null => "null"
    case Bool(b) => if b then "true" else "false"
    case Num(n) => IntToDecimal(n)
    case Str(s) => s
    case Arr(items) =>
      Join(seq(|items|, i requires 0 <= i < |items| =>
        if items[i].Undefined? || items[i].Null? then "" else PropertyKey(items[i])))
    case Obj(_) => "[object Object]"
    case Func(source) => source
  }

  /** `v || fallback`. */
  function Or(v: Value, fallback: Value): (r: Value)
    ensures Truthy(v) ==> r == v
    ensures !Truthy(v) ==> r == fallback
  {
    if Truthy(v) then v else fallback
  }
}
