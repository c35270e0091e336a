/** The list pipeline every `index` endpoint runs: a conjunction of optional
  * criteria, ORDER BY one column, then Laravel's length-aware pagination. */
module Query {
  import opened Values
  import opened Ordering
  import Text

  /** One `where` call on an Eloquent query builder. */
  datatype Criterion =
    | Equals(column: string, value: Value)          // where(col, v)
    | Search(columns: seq<string>, term: string)    // where(col1 LIKE %t% OR col2 LIKE %t% ...)
    | AtLeast(column: string, bound: Value)         // where(col, '>=', v)
    | AtMost(column: string, bound: Value)          // where(col, '<=', v)
    | NotNull(column: string)                       // whereNotNull(col)

  /** SQL `v LIKE '%term%'`: a null or non-text column never matches. */
  predicate Like(v: Value, term: string)
  {
    v.VStr? && Text.Contains(v.s, term)
  }

  /** SQL `a <= b`: unknown (so false) when either side is NULL. */
  predicate SqlLe(a: Value, b: Value)
  {
    a != VNull && b != VNull && Rank(a) == Rank(b) && ValueLe(a, b)
  }

  predicate Satisfies(row: Row, c: Criterion)
  {
    match c
    case Equals(col, v) => SqlEquals(Get(row, col), v)
    case Search(cols, t) => exists i :: 0 <= i < |cols| && Like(Get(row, cols[i]), t)
    case AtLeast(col, b) => SqlLe(b, Get(row, col))
    case AtMost(col, b) => SqlLe(Get(row, col), b)
    case NotNull(col) => Get(row, col) != VNull
  }

  /** Successive `where` calls are AND-ed. */
  predicate MatchesAll(row: Row, cs: seq<Criterion>)
  {
    forall i :: 0 <= i < |cs| ==> Satisfies(row, cs[i])
  }

  lemma MatchesAllAppend(row: Row, cs: seq<Criterion>, c: Criterion)
    ensures MatchesAll(row, cs + [c]) <==> MatchesAll(row, cs) && Satisfies(row, c)
  {
    assert forall i :: 0 <= i < |cs| ==> (cs + [c])[i] == cs[i];
    assert (cs + [c])[|cs|] == c;
  }

  lemma MatchesAllConcat(row: Row, a: seq<Criterion>, b: seq<Criterion>)
    ensures MatchesAll(row, a + b) <==> MatchesAll(row, a) && MatchesAll(row, b)
  {
    if MatchesAll(row, a) && MatchesAll(row, b) {
      forall i | 0 <= i < |a + b| ensures Satisfies(row, (a + b)[i]) {
        if i >= |a| {
          assert (a + b)[i] == b[i - |a|];
        }
      }
    }
    if MatchesAll(row, a + b) {
      forall i | 0 <= i < |a| ensures Satisfies(row, a[i]) {
        assert (a + b)[i] == a[i];
      }
      forall i | 0 <= i < |b| ensures Satisfies(row, b[i]) {
        assert (a + b)[|a| + i] == b[i];
      }
    }
  }

  /** The conjunct a controller adds only when a request key is present. */
  function When(present: bool, c: Criterion): (r: seq<Criterion>)
    ensures |r| <= 1
  {
    if present then [c] else []
  }

  /** `if ($request->has(key)) $query->where(...)`: one conditional step of
    * building a query. */
  method AddWhen(cs: seq<Criterion>, present: bool, c: Criterion) returns (r: seq<Criterion>)
    ensures r == cs + When(present, c)
  {
    if present {
      r := cs + [c];
    } else {
      r := cs;
    }
  }

  lemma MatchesWhen(row: Row, present: bool, c: Criterion)
    ensures MatchesAll(row, When(present, c)) <==> (present ==> Satisfies(row, c))
  {
    if present {
      assert When(present, c)[0] == c;
    }
  }

  /** A search over several columns matches when one of them contains the term. */
  lemma SearchAny(row: Row, cols: seq<string>, t: string)
    ensures Satisfies(row, Search(cols, t)) <==> exists c :: c in cols && Like(Get(row, c), t)
  {
    if exists c :: c in cols && Like(Get(row, c), t) {
      var c :| c in cols && Like(Get(row, c), t);
      var i :| 0 <= i < |cols| && cols[i] == c;
    }
  }

  /** The text PHP interpolates into `"%{$search}%"`. */
  function TermOf(v: Value): (t: string)
    ensures v.VStr? ==> t == v.s
    ensures v == VNull ==> t == ""
  {
    match v
    case VStr(s) => s
    case VInt(i) => Text.IntToString(i)
    case VBool(b) => if b then "1" else ""
    case _ => ""
  }

  /** The rows satisfying every criterion, in table order. */
  function Filter(rows: seq<Row>, cs: seq<Criterion>): (r: seq<Row>)
    ensures |r| <= |rows|
    ensures forall x :: x in r ==> x in rows && MatchesAll(x, cs)
    ensures multiset(r) <= multiset(rows)
  {
    if rows == [] then []
    else
      assert rows == [rows[0]] + rows[1..];
      (if MatchesAll(rows[0], cs) then [rows[0]] else []) + Filter(rows[1..], cs)
  }

  /** No matching row is dropped. */
  lemma {:induction false} FilterComplete(rows: seq<Row>, cs: seq<Criterion>, x: Row)
    requires x in rows && MatchesAll(x, cs)
    ensures x in Filter(rows, cs)
  {
    if rows[0] != x {
      FilterComplete(rows[1..], cs, x);
    }
  }

  lemma {:induction false} FilterAppend(rows: seq<Row>, extra: seq<Row>, cs: seq<Criterion>)
    ensures Filter(rows + extra, cs) == Filter(rows, cs) + Filter(extra, cs)
  {
    if rows == [] {
      assert rows + extra == extra;
    } else {
      assert (rows + extra)[1..] == rows[1..] + extra;
      FilterAppend(rows[1..], extra, cs);
    }
  }

  /** Over a column with no negative values, the rows a filter keeps sum to
    * something between 0 and the sum over all rows. */
  lemma {:induction false} SumOfFilterAtMost(rows: seq<Row>, cs: seq<Criterion>, col: string)
    requires forall i :: 0 <= i < |rows| ==> NumOf(Get(rows[i], col)) >= 0.0
    ensures 0.0 <= SumOf(Filter(rows, cs), col) <= SumOf(rows, col)
  {
    if rows != [] {
      SumOfFilterAtMost(rows[1..], cs, col);
      var head := if MatchesAll(rows[0], cs) then [rows[0]] else [];
      SumOfAppend(head, Filter(rows[1..], cs), col);
    }
  }

  /** Every matching row is kept. */
  lemma FilterCompleteAll(rows: seq<Row>, cs: seq<Criterion>)
    ensures forall x :: x in rows && MatchesAll(x, cs) ==> x in Filter(rows, cs)
  {
    forall x | x in rows && MatchesAll(x, cs) ensures x in Filter(rows, cs) {
      FilterComplete(rows, cs, x);
    }
  }

  /** `hasMany(Related, fk)` seen from a parent whose key is `key`: the related
    * rows whose foreign key equals it; none when the parent key is null. */
  function HasMany(rows: seq<Row>, fk: string, key: Value): (r: seq<Row>)
    ensures key == VNull ==> r == []
    ensures forall x :: x in r ==> x in rows && SqlEquals(Get(x, fk), key)
    ensures forall x :: x in rows && key != VNull && SqlEquals(Get(x, fk), key) ==> x in r
  {
    if key == VNull then []
    else
      assert forall x :: MatchesAll(x, [Equals(fk, key)]) <==> SqlEquals(Get(x, fk), key) by {
        forall x ensures MatchesAll(x, [Equals(fk, key)]) <==> SqlEquals(Get(x, fk), key) {
          assert [Equals(fk, key)][0] == Equals(fk, key);
        }
      }
      FilterCompleteAll(rows, [Equals(fk, key)]);
      Filter(rows, [Equals(fk, key)])
  }

  /** `where(col, v)->first()`: the position of the first row that matches. */
  function FirstWhere(rows: seq<Row>, col: string, v: Value): (r: Option<nat>)
    ensures r.Some? ==> r.value < |rows| && SqlEquals(Get(rows[r.value], col), v)
    ensures r.Some? ==> forall i :: 0 <= i < r.value ==> !SqlEquals(Get(rows[i], col), v)
    ensures r.None? ==> forall i :: 0 <= i < |rows| ==> !SqlEquals(Get(rows[i], col), v)
  {
    if rows == [] then None
    else if SqlEquals(Get(rows[0], col), v) then Some(0)
    else
      match FirstWhere(rows[1..], col, v)
      case None => None
      case Some(j) => Some(j + 1)
  }

  /** The fold behind a collection's `max(col)`: nulls are skipped and a value
    * replaces the running result only when it is strictly greater. */
  function MaxFrom(rows: seq<Row>, col: string, acc: Value): Value
  {
    if rows == [] then acc
    else
      var v := Get(rows[0], col);
      MaxFrom(rows[1..], col, if v != VNull && (acc == VNull || ValueLt(acc, v)) then v else acc)
  }

  lemma {:induction false} MaxFromBounds(rows: seq<Row>, col: string, acc: Value)
    ensures var m := MaxFrom(rows, col, acc);
      (m == VNull ==> acc == VNull && forall i :: 0 <= i < |rows| ==> Get(rows[i], col) == VNull) &&
      (acc != VNull ==> ValueLe(acc, m)) &&
      (forall i :: 0 <= i < |rows| && Get(rows[i], col) != VNull ==> ValueLe(Get(rows[i], col), m)) &&
      (m == acc || exists i :: 0 <= i < |rows| && Get(rows[i], col) == m)
  {
    if rows == [] {
      ValueLeRefl(acc);
    } else {
      var v := Get(rows[0], col);
      var next := if v != VNull && (acc == VNull || ValueLt(acc, v)) then v else acc;
      MaxFromBounds(rows[1..], col, next);
      var m := MaxFrom(rows[1..], col, next);
      assert MaxFrom(rows, col, acc) == m;
      ValueLeTotal(acc, v);
      if acc != VNull && next != VNull {
        ValueLeRefl(acc);
        ValueLeTrans(acc, next, m);
      }
      if v != VNull {
        ValueLeRefl(v);
        ValueLeTrans(v, next, m);
      }
      assert forall i :: 1 <= i < |rows| ==> rows[i] == rows[1..][i - 1];
      if m != next {
        var j :| 0 <= j < |rows[1..]| && Get(rows[1..][j], col) == m;
        assert Get(rows[j + 1], col) == m;
      } else if next == v && v != acc {
        assert Get(rows[0], col) == m;
      }
    }
  }

  /** `->max(col)` on a collection: null when every value is null, otherwise a
    * value that occurs and that no other value exceeds. */
  function MaxOf(rows: seq<Row>, col: string): (m: Value)
    ensures m == VNull <==> forall i :: 0 <= i < |rows| ==> Get(rows[i], col) == VNull
    ensures m != VNull ==> exists i :: 0 <= i < |rows| && Get(rows[i], col) == m
    ensures forall i :: 0 <= i < |rows| && Get(rows[i], col) != VNull ==> ValueLe(Get(rows[i], col), m)
  {
    MaxFromBounds(rows, col, VNull);
    MaxFrom(rows, col, VNull)
  }

  /** The number of rows whose column holds exactly `v`. */
  function CountOf(rows: seq<Row>, col: string, v: Value): (n: nat)
    ensures n <= |rows|
    ensures n == 0 <==> forall i :: 0 <= i < |rows| ==> Get(rows[i], col) != v
  {
    if rows == [] then 0
    else
      assert forall i :: 1 <= i < |rows| ==> rows[i] == rows[1..][i - 1];
      (if Get(rows[0], col) == v then 1 else 0) + CountOf(rows[1..], col, v)
  }

  /** `selectRaw('col, COUNT(*)')->groupBy(col)->pluck('count', col)`: one
    * entry per value the column takes, holding how many rows take it. */
  function GroupCounts(rows: seq<Row>, col: string): (g: map<Value, nat>)
    ensures forall v :: v in g <==> exists i :: 0 <= i < |rows| && Get(rows[i], col) == v
    ensures forall v :: v in g ==> 1 <= g[v] <= |rows| && g[v] == CountOf(rows, col, v)
  {
    map v | v in (set i | 0 <= i < |rows| :: Get(rows[i], col)) :: CountOf(rows, col, v)
  }

  datatype Direction = Asc | Desc

  /** `a` may precede `b` in ORDER BY `col` `dir`. */
  predicate InOrder(a: Row, b: Row, col: string, dir: Direction)
  {
    if dir == Asc then ValueLe(Get(a, col), Get(b, col)) else ValueLe(Get(b, col), Get(a, col))
  }

  predicate Sorted(s: seq<Row>, col: string, dir: Direction)
  {
    forall i, j :: 0 <= i < j < |s| ==> InOrder(s[i], s[j], col, dir)
  }

  lemma InOrderTotal(a: Row, b: Row, col: string, dir: Direction)
    ensures InOrder(a, b, col, dir) || InOrder(b, a, col, dir)
  {
    ValueLeTotal(Get(a, col), Get(b, col));
  }

  lemma InOrderTrans(a: Row, b: Row, c: Row, col: string, dir: Direction)
    requires InOrder(a, b, col, dir) && InOrder(b, c, col, dir)
    ensures InOrder(a, c, col, dir)
  {
    if dir == Asc {
      ValueLeTrans(Get(a, col), Get(b, col), Get(c, col));
    } else {
      ValueLeTrans(Get(c, col), Get(b, col), Get(a, col));
    }
  }

  /** Rewriting rows without touching the ordering column keeps them sorted. */
  lemma SortedByKey(s: seq<Row>, t: seq<Row>, col: string, dir: Direction)
    requires Sorted(s, col, dir) && |s| == |t|
    requires forall k :: 0 <= k < |s| ==> Get(t[k], col) == Get(s[k], col)
    ensures Sorted(t, col, dir)
  {
    forall i, j | 0 <= i < j < |t| ensures InOrder(t[i], t[j], col, dir) {
      assert InOrder(s[i], s[j], col, dir);
    }
  }

  /** Places `x` before the first element it may precede. */
  function Insert(x: Row, s: seq<Row>, col: string, dir: Direction): (r: seq<Row>)
    ensures multiset(r) == multiset(s) + multiset{x}
    ensures |r| == |s| + 1
  {
    if s == [] then [x]
    else if InOrder(x, s[0], col, dir) then [x] + s
    else
      assert s == [s[0]] + s[1..];
      [s[0]] + Insert(x, s[1..], col, dir)
  }

  lemma {:induction false} InsertSorted(x: Row, s: seq<Row>, col: string, dir: Direction)
    requires Sorted(s, col, dir)
    ensures Sorted(Insert(x, s, col, dir), col, dir)
  {
    if s == [] {
    } else if InOrder(x, s[0], col, dir) {
      PrependSorted(x, s, col, dir);
    } else {
      InOrderTotal(x, s[0], col, dir);
      InsertSorted(x, s[1..], col, dir);
      InsertAfterHead(x, s, col, dir);
    }
  }

  /** A row that may precede the head of a sorted list may precede all of it. */
  lemma PrependSorted(x: Row, s: seq<Row>, col: string, dir: Direction)
    requires s != [] && Sorted(s, col, dir) && InOrder(x, s[0], col, dir)
    ensures Sorted([x] + s, col, dir)
  {
    var r := [x] + s;
    forall i, j | 0 <= i < j < |r| ensures InOrder(r[i], r[j], col, dir) {
      if i == 0 && j > 1 {
        InOrderTrans(x, s[0], s[j - 1], col, dir);
      }
    }
  }

  /** The head of a sorted list stays in front of the insertion into its tail. */
  lemma InsertAfterHead(x: Row, s: seq<Row>, col: string, dir: Direction)
    requires s != [] && Sorted(s, col, dir) && InOrder(s[0], x, col, dir)
    requires Sorted(Insert(x, s[1..], col, dir), col, dir)
    ensures Sorted([s[0]] + Insert(x, s[1..], col, dir), col, dir)
  {
    HeadPrecedesInsert(x, s, col, dir);
    ConsSorted(s[0], Insert(x, s[1..], col, dir), col, dir);
  }

  lemma HeadPrecedesInsert(x: Row, s: seq<Row>, col: string, dir: Direction)
    requires s != [] && Sorted(s, col, dir) && InOrder(s[0], x, col, dir)
    ensures forall y :: y in Insert(x, s[1..], col, dir) ==> InOrder(s[0], y, col, dir)
  {
    var t := Insert(x, s[1..], col, dir);
    forall y | y in t ensures InOrder(s[0], y, col, dir) {
      assert y in multiset(t);
      if y != x {
        assert y in multiset(s[1..]);
        var k :| 0 <= k < |s[1..]| && s[1..][k] == y;
        assert s[k + 1] == y;
      }
    }
  }

  /** A row that may precede every element of a sorted list heads it. */
  lemma ConsSorted(h: Row, t: seq<Row>, col: string, dir: Direction)
    requires Sorted(t, col, dir)
    requires forall y :: y in t ==> InOrder(h, y, col, dir)
    ensures Sorted([h] + t, col, dir)
  {
    var r := [h] + t;
    forall i, j | 0 <= i < j < |r| ensures InOrder(r[i], r[j], col, dir) {
      if i == 0 {
        assert r[j] == t[j - 1];
        assert t[j - 1] in t;
      } else {
        assert r[i] == t[i - 1] && r[j] == t[j - 1];
      }
    }
  }

  /** ORDER BY `col` `dir`, stable (Oracle leaves the order of ties open). */
  function SortBy(s: seq<Row>, col: string, dir: Direction): (r: seq<Row>)
    ensures multiset(r) == multiset(s)
    ensures |r| == |s|
    ensures Sorted(r, col, dir)
  {
    if s == [] then []
    else
      assert s == [s[0]] + s[1..];
      InsertSorted(s[0], SortBy(s[1..], col, dir), col, dir);
      Insert(s[0], SortBy(s[1..], col, dir), col, dir)
  }

  /** One page of a length-aware paginator. */
  datatype Page = Page(items: seq<Row>, total: nat, currentPage: nat, perPage: int, lastPage: nat)

  /** The model's `$perPage` property (Laravel's default page size). */
  const DefaultPerPage: int := 15

  /** `paginate($request->get('per_page', 15))`: a missing, null or zero size
    * falls back to the model's 15. */
  function PerPageOf(req: Request): (n: int)
    ensures n != 0
    ensures "per_page" !in req ==> n == DefaultPerPage
  {
    match Get(req, "per_page")
    case VInt(n) => if n == 0 then DefaultPerPage else n
    case _ => DefaultPerPage
  }

  /** The current page: the `page` parameter when it is an integer of at least 1, else 1. */
  function PageOf(req: Request): (p: nat)
    ensures p >= 1
  {
    match Get(req, "page")
    case VInt(p) => if p >= 1 then p else 1
    case _ => 1
  }

  function Min(a: int, b: int): int { if a <= b then a else b }

  /** Index of the first row of page `page`, clamped to the end of the rows. */
  function Offset(page: nat, perPage: int, n: nat): (o: nat)
    requires page >= 1 && perPage > 0
    ensures o <= n
  {
    Min((page - 1) * perPage, n)
  }

  /** The paginator's window on `s`. A negative size is ignored by the query
    * builder's `limit`, so the whole sequence comes back as page 1 of 1. */
  function Paginate(s: seq<Row>, page: nat, perPage: int): (p: Page)
    requires page >= 1
    ensures p.total == |s| && p.currentPage == page && p.perPage == perPage
    ensures perPage > 0 ==> |p.items| <= perPage && Offset(page, perPage, |s|) + |p.items| <= |s|
    ensures perPage > 0 ==> p.items == s[Offset(page, perPage, |s|)..Offset(page, perPage, |s|) + |p.items|]
    ensures perPage < 0 ==> p.items == s && p.lastPage == 1
    ensures p.lastPage >= 1
  {
    if perPage > 0 then
      var lo := Offset(page, perPage, |s|);
      var hi := Min(lo + perPage, |s|);
      var last := (|s| + perPage - 1) / perPage;
      Page(s[lo..hi], |s|, page, perPage, if last < 1 then 1 else last)
    else
      Page(s, |s|, page, perPage, 1)
  }

  lemma SortedSlice(s: seq<Row>, lo: nat, hi: nat, col: string, dir: Direction)
    requires lo <= hi <= |s| && Sorted(s, col, dir)
    ensures Sorted(s[lo..hi], col, dir)
  {
    var t := s[lo..hi];
    forall i, j | 0 <= i < j < |t| ensures InOrder(t[i], t[j], col, dir) {
      assert t[i] == s[lo + i] && t[j] == s[lo + j];
    }
  }

  /** Every row on a page comes from the paginated sequence, in its order. */
  lemma PaginateFrom(s: seq<Row>, page: nat, perPage: int, col: string, dir: Direction)
    requires page >= 1 && Sorted(s, col, dir)
    ensures var p := Paginate(s, page, perPage);
      (forall x :: x in p.items ==> x in s) && Sorted(p.items, col, dir)
  {
    var p := Paginate(s, page, perPage);
    if perPage > 0 {
      var lo := Offset(page, perPage, |s|);
      SortedSlice(s, lo, lo + |p.items|, col, dir);
      forall x | x in p.items ensures x in s {
        var k :| 0 <= k < |p.items| && p.items[k] == x;
        assert x == s[lo + k];
      }
    }
  }

  /** Element `k` of the sorted result is on page k / perPage + 1, so the pages
    * together show every row exactly where the ordering puts it. */
  lemma PageShows(s: seq<Row>, perPage: nat, k: nat)
    requires perPage > 0 && k < |s|
    ensures var p := Paginate(s, k / perPage + 1, perPage);
      k % perPage < |p.items| && p.items[k % perPage] == s[k]
  {
    var page := k / perPage + 1;
    assert (page - 1) * perPage == k / perPage * perPage;
    assert k / perPage * perPage + k % perPage == k;
  }

  /** Filter, order, then cut out the requested page. */
  function List(rows: seq<Row>, cs: seq<Criterion>, col: string, dir: Direction, req: Request): (p: Page)
    ensures p.total == |Filter(rows, cs)|
    ensures PerPageOf(req) > 0 ==> |p.items| <= PerPageOf(req)
    ensures forall x :: x in p.items ==> x in rows && MatchesAll(x, cs)
    ensures Sorted(p.items, col, dir)
  {
    var matching := Filter(rows, cs);
    var sorted := SortBy(matching, col, dir);
    PaginateFrom(sorted, PageOf(req), PerPageOf(req), col, dir);
    SortedMembers(matching, col, dir);
    Paginate(sorted, PageOf(req), PerPageOf(req))
  }

  /** Sorting neither adds nor drops rows. */
  lemma SortedMembers(s: seq<Row>, col: string, dir: Direction)
    ensures forall x :: x in SortBy(s, col, dir) ==> x in s
  {
    var r := SortBy(s, col, dir);
    forall x | x in r ensures x in s {
      assert x in multiset(r);
    }
  }

  /** One `{value, label}` pair of a select list. */
  datatype Choice = Choice(value: Value, name: Value)   // the `value` and `label` keys

  /** Each row projected to a select-list pair, in the same order. */
  function Options(rows: seq<Row>, valueCol: string, labelCol: string): (r: seq<Choice>)
    ensures |r| == |rows|
    ensures forall k :: 0 <= k < |rows| ==> r[k] == Choice(Get(rows[k], valueCol), Get(rows[k], labelCol))
  {
    seq(|rows|, k requires 0 <= k < |rows| => Choice(Get(rows[k], valueCol), Get(rows[k], labelCol)))
  }

  /** `select(col)->distinct()->pluck(col)`: each value of the column once,
    * null included, in order of last occurrence. */
  function Distinct(rows: seq<Row>, col: string): (r: seq<Value>)
    ensures forall i :: 0 <= i < |rows| ==> Get(rows[i], col) in r
    ensures forall v :: v in r ==> exists i :: 0 <= i < |rows| && Get(rows[i], col) == v
    ensures forall i, j :: 0 <= i < j < |r| ==> r[i] != r[j]
    ensures |r| <= |rows|
  {
    if rows == [] then []
    else
      var rest := Distinct(rows[1..], col);
      assert forall i :: 1 <= i < |rows| ==> rows[i] == rows[1..][i - 1];
      assert forall v :: v in rest ==> exists i :: 0 <= i < |rows| && Get(rows[i], col) == v by {
        forall v | v in rest ensures exists i :: 0 <= i < |rows| && Get(rows[i], col) == v {
          var i :| 0 <= i < |rows[1..]| && Get(rows[1..][i], col) == v;
          assert Get(rows[i + 1], col) == v;
        }
      }
      if Get(rows[0], col) in rest then rest else [Get(rows[0], col)] + rest
  }
}
