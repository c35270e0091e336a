/** Values of the single-page client: JavaScript primitives and plain
  * objects, with the JavaScript readings of them the components rely on. */
module JsValues {
  import Text

  /** A calendar instant on the client's local clock. */
  datatype Instant = Instant(year: int, month: int, day: int, millisecond: int)

  /** A JavaScript value as the client's records hold it. Numbers are reals
    * (NaN and the infinities are not modelled). */
  datatype Js =
    | Undefined
    | Null
    | Bool(b: bool)
    | Num(n: real)
    | Str(s: string)
    | Date(t: Instant)

  /** A plain object; a property that is not there reads as `undefined`. */
  type Obj = map<string, Js>

  /** `o.k`: the property, or `undefined` when it is absent. */
  function Prop(o: Obj, k: string): (v: Js)
    ensures k !in o ==> v == Undefined
    ensures k in o ==> v == o[k]
  {
    if k in o then o[k] else Undefined
  }

  /** JavaScript truthiness: undefined, null, false, 0 and "" are falsy. */
  predicate Truthy(v: Js)
  {
    match v
    case Undefined => false
    case Null => false
    case Bool(b) => b
    case Num(n) => n != 0.0
    case Str(s) => s != ""
    case Date(_) => true
  }

  /** `a || b`: the first operand when it is truthy, otherwise the second. */
  function Or(a: Js, b: Js): (r: Js)
    ensures Truthy(a) ==> r == a
    ensures !Truthy(a) ==> r == b
  {
    if Truthy(a) then a else b
  }

  /** `x || 0` of a numeric field: the number, or 0 when the field is
    * missing. */
  function OrZero(v: Js): (a: real)
    ensures !Truthy(v) ==> a == 0.0
    ensures v.Num? ==> a == v.n
  {
    if v.Num? then v.n else 0.0
  }

  /** `x == null` in the loose sense the query builders use: undefined or null. */
  predicate Nullish(v: Js)
  {
    v == Undefined || v == Null
  }

  /** `s?.toLowerCase()`: the lower-cased string, or `undefined` when the
    * value is missing. */
  function LowerOpt(v: Js): (r: Js)
    ensures v.Str? ==> r == Str(Text.Lower(v.s))
    ensures !v.Str? ==> r == Undefined
  {
    if v.Str? then Str(Text.Lower(v.s)) else Undefined
  }

  /** `s?.toLowerCase() === t` for a literal `t`. */
  predicate LowerIs(v: Js, t: string)
  {
    LowerOpt(v) == Str(t)
  }

  /** The `oid` every client entity carries. */
  function OidOf(o: Obj): Js
  {
    Prop(o, "oid")
  }

  /** The user object the auth slice holds. */
  datatype User = User(permissions: Option<seq<string>>)

  datatype Option<T> = None | Some(value: T)

  /** `user?.permissions?.includes(p)`: `None` when there is no user or no
    * permission list (the expression is then `undefined`). */
  function Includes(user: Option<User>, p: string): (r: Option<bool>)
    ensures r.Some? <==> user.Some? && user.value.permissions.Some?
    ensures r.Some? ==> (r.value <==> p in user.value.permissions.value)
  {
    if user.None? || user.value.permissions.None? then None
    else Some(p in user.value.permissions.value)
  }
}
