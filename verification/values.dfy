/** Values held in database rows and request parameters on the server side,
  * with the PHP and SQL readings of them that the controllers rely on. */
module Values {

  datatype Option<T> = None | Some(value: T)

  /** A calendar timestamp: the fields are compared in order (year first). */
  datatype DateTime = DateTime(year: int, month: int, day: int, second: int)

  /** A column or parameter value. Booleans are kept apart from numbers because
    * PHP distinguishes them, but SQL binds them as 0/1 (see NumOf). */
  datatype Value =
    | VNull
    | VBool(b: bool)
    | VInt(i: int)
    | VNum(r: real)
    | VStr(s: string)
    | VDate(d: DateTime)

  /** A database row or an associative array: column name to value.
    * Keys are case-sensitive, as PHP array keys are. */
  type Row = map<string, Value>

  /** The request parameters (query string or body), already typed. */
  type Request = map<string, Value>

  /** A reduced HTTP response: its status code, the `success` flag of the JSON
    * envelope and the payload, if any. */
  datatype Reply<T> = Reply(status: int, success: bool, data: Option<T>)

  const OK: int := 200
  const CREATED: int := 201
  const UNAUTHORIZED: int := 401
  const NOT_FOUND: int := 404
  const UNPROCESSABLE: int := 422
  const SERVER_ERROR: int := 500
  const NOT_IMPLEMENTED: int := 501

  /** Reading an attribute that a row does not have gives null, as Eloquent does. */
  function Get(row: Row, key: string): (v: Value)
    ensures key !in row ==> v == VNull
    ensures key in row ==> v == row[key]
  {
    if key in row then row[key] else VNull
  }

  /** PHP `isset($row[$key])`: the key is present and its value is not null. */
  predicate IsSet(row: Row, key: string)
  {
    key in row && row[key] != VNull
  }

  /** PHP truthiness: null, false, 0, 0.0, "" and "0" are falsy. */
  predicate Truthy(v: Value)
  {
    match v
    case VNull => false
    case VBool(b) => b
    case VInt(i) => i != 0
    case VNum(r) => r != 0.0
    case VStr(s) => s != "" && s != "0"
    case VDate(_) => true
  }

  /** Values that SQL compares numerically; PHP booleans are bound as 0 or 1. */
  predicate IsNumber(v: Value)
  {
    v.VBool? || v.VInt? || v.VNum?
  }

  function NumOf(v: Value): real
  {
    match v
    case VBool(b) => if b then 1.0 else 0.0
    case VInt(i) => i as real
    case VNum(r) => r
    case _ => 0.0
  }

  /** SQL `col = v` as Laravel issues it: `where(col, null)` becomes
    * `col IS NULL`; otherwise a null column never matches, numbers are
    * compared by value and everything else by identity. */
  predicate SqlEquals(column: Value, v: Value)
  {
    if v == VNull then column == VNull
    else if IsNumber(column) && IsNumber(v) then NumOf(column) == NumOf(v)
    else column != VNull && column == v
  }

  lemma SqlEqualsReflexive(v: Value)
    ensures SqlEquals(v, v)
  {
  }

  /** SUM(col) over rows, SQL style: nulls and non-numbers add nothing, and an
    * empty set of rows sums to 0 (the controllers apply `?? 0`). */
  function SumOf(rows: seq<Row>, column: string): real
  {
    if rows == [] then 0.0 else NumOf(Get(rows[0], column)) + SumOf(rows[1..], column)
  }

  lemma {:induction false} SumOfAppend(a: seq<Row>, b: seq<Row>, column: string)
    ensures SumOf(a + b, column) == SumOf(a, column) + SumOf(b, column)
  {
    if a != [] {
      assert (a + b)[1..] == a[1..] + b;
      SumOfAppend(a[1..], b, column);
    } else {
      assert a + b == b;
    }
  }

  /** A sum of non-negative column values is non-negative. */
  lemma {:induction false} SumOfNonNegative(rows: seq<Row>, column: string)
    requires forall i :: 0 <= i < |rows| ==> NumOf(Get(rows[i], column)) >= 0.0
    ensures SumOf(rows, column) >= 0.0
  {
    if rows != [] {
      SumOfNonNegative(rows[1..], column);
    }
  }
}
