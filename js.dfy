/** The JavaScript values the pages pass around as plain objects (form state,
    table rows), with the language's truthiness, `||` and optional chaining. */
module Js {

  datatype Json =
    | Undefined
    | Null
    | Bool(b: bool)
    | Num(n: int)
    | Str(s: string)
    | Obj(fields: map<string, Json>)

  /** JavaScript truthiness: undefined, null, false, 0 and "" are falsy. */
  predicate Truthy(v: Json)
  {
    match v
    case Undefined => false
    case Null => false
    case Bool(b) => b
    case Num(n) => n != 0
    case Str(s) => s != []
    case Obj(_) => true
  }

  /** `a || b`. */
  function Or(a: Json, b: Json): Json
  {
    if Truthy(a) then a else b
  }

  /** `a === b`: primitives compare by value; an object is never taken to be
      the same reference as another value. */
  predicate StrictEq(a: Json, b: Json)
  {
    a == b && !a.Obj?
  }

  /** `v?.[key]`: a property of an object; undefined on null, undefined, a primitive or a missing key. */
  function Member(v: Json, key: string): Json
  {
    if v.Obj? && key in v.fields then v.fields[key] else Undefined
  }

  /** A decimal numeral, as a template literal prints a non-negative integer. */
  function NatText(n: nat): (r: string)
    ensures |r| > 0
    decreases n
  {
    var d := ['0', '1', '2', '3', '4', '5', '6', '7', '8', '9'][n % 10];
    if n < 10 then [d] else NatText(n / 10) + [d]
  }

  /** `${v}`: how a template literal prints a value. */
  function Template(v: Json): string
  {
    match v
    case Undefined => "undefined"
    case Null => "null"
    case Bool(b) => if b then "true" else "false"
    case Num(n) => if n < 0 then "-" + NatText(-n) else NatText(n)
    case Str(s) => s
    case Obj(_) => "[object Object]"
  }

  /** A toast as the pages set it: `{ message, type }`, `type` being "success", "error" or "warning". */
  datatype Toast = Toast(message: Json, kind: string)

  /** Whether a page's form was opened to add a record or to edit the selected one. */
  datatype FormMode = Add | Edit

  /** Evaluating an expression: its value, or the TypeError thrown by reading a
      property of null or undefined or calling a method a value does not have. */
  datatype Eval<T> = Value(value: T) | TypeError

  predicate Nullish(v: Json)
  {
    v.Undefined? || v.Null?
  }

  /** What a page dispatches to the resource store: a create, or an update of one id. */
  datatype Request = Create(resource: string, body: Json) | Update(resource: string, id: Json, body: Json)

  /** How a dispatched request settles: fulfilled, rejected with a payload, or a throw. */
  datatype Reply = Fulfilled | Rejected(payload: Json) | Thrown
}
