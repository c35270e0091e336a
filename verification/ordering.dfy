/** The order Oracle's ORDER BY uses on column values. A column holds one
  * kind of value; for totality, kinds are ranked numbers < strings < dates,
  * and NULL sorts above everything, so it comes last in ascending and first
  * in descending order (Oracle's default NULLS LAST / NULLS FIRST). */
module Ordering {
  import opened Values

  function Rank(v: Value): nat
  {
    match v
    case VNull => 4
    case VDate(_) => 3
    case VStr(_) => 2
    case _ => 1
  }

  /** Binary (code point) lexicographic order on strings. */
  predicate StrLe(a: string, b: string)
  {
    a == [] || (b != [] && (a[0] < b[0] || (a[0] == b[0] && StrLe(a[1..], b[1..]))))
  }

  predicate DateLe(a: DateTime, b: DateTime)
  {
    a.year < b.year || (a.year == b.year &&
    (a.month < b.month || (a.month == b.month &&
    (a.day < b.day || (a.day == b.day && a.second <= b.second)))))
  }

  predicate ValueLe(a: Value, b: Value)
  {
    if Rank(a) != Rank(b) then Rank(a) < Rank(b)
    else if Rank(a) == 1 then NumOf(a) <= NumOf(b)
    else if Rank(a) == 2 then StrLe(a.s, b.s)
    else if Rank(a) == 3 then DateLe(a.d, b.d)
    else true
  }

  predicate ValueLt(a: Value, b: Value)
  {
    !ValueLe(b, a)
  }

  lemma {:induction false} StrLeTotal(a: string, b: string)
    ensures StrLe(a, b) || StrLe(b, a)
  {
    if a != [] && b != [] && a[0] == b[0] {
      StrLeTotal(a[1..], b[1..]);
    }
  }

  lemma {:induction false} StrLeTrans(a: string, b: string, c: string)
    requires StrLe(a, b) && StrLe(b, c)
    ensures StrLe(a, c)
  {
    if a != [] && b != [] && c != [] && a[0] == b[0] && b[0] == c[0] {
      StrLeTrans(a[1..], b[1..], c[1..]);
    }
  }

  lemma {:induction false} StrLeRefl(a: string)
    ensures StrLe(a, a)
  {
    if a != [] {
      StrLeRefl(a[1..]);
    }
  }

  lemma ValueLeTotal(a: Value, b: Value)
    ensures ValueLe(a, b) || ValueLe(b, a)
  {
    if Rank(a) == Rank(b) == 2 {
      StrLeTotal(a.s, b.s);
    }
  }

  lemma ValueLeRefl(a: Value)
    ensures ValueLe(a, a)
  {
    if Rank(a) == 2 {
      StrLeRefl(a.s);
    }
  }

  lemma ValueLeTrans(a: Value, b: Value, c: Value)
    requires ValueLe(a, b) && ValueLe(b, c)
    ensures ValueLe(a, c)
  {
    if Rank(a) == Rank(b) == Rank(c) == 2 {
      StrLeTrans(a.s, b.s, c.s);
    }
  }

  /** NULL is the greatest value. */
  lemma NullIsGreatest(a: Value)
    ensures ValueLe(a, VNull)
    ensures ValueLe(VNull, a) ==> a == VNull
  {
  }
}
