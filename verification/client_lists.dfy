/** The array and object operations the client's reducers and thunks use:
  * `findIndex` by `oid`, overwrite-in-place, `filter` by `oid`, object
  * spread, and the query-string loop of the list fetches. */
module ClientLists {
  import opened JsValues

  /** `r` is `s` with some elements dropped, the rest in their order. */
  predicate Subsequence<T(==)>(r: seq<T>, s: seq<T>)
  {
    if r == [] then true
    else if s == [] then false
    else (r[0] == s[0] && Subsequence(r[1..], s[1..])) || Subsequence(r, s[1..])
  }

  /** `findIndex(x => x.oid === oid)`: the first index holding that oid, or -1. */
  function FindIndex(s: seq<Obj>, oid: Js): (i: int)
    ensures -1 <= i < |s|
    ensures i == -1 <==> forall k :: 0 <= k < |s| ==> OidOf(s[k]) != oid
    ensures i >= 0 ==> OidOf(s[i]) == oid && forall k :: 0 <= k < i ==> OidOf(s[k]) != oid
  {
    if s == [] then -1
    else if OidOf(s[0]) == oid then 0
    else
      assert forall k :: 1 <= k < |s| ==> s[k] == s[1..][k - 1];
      var j := FindIndex(s[1..], oid);
      if j == -1 then -1 else j + 1
  }

  /** What an update-fulfilled reducer leaves: the first element with the
    * payload's oid is replaced by the payload; nothing is inserted when no
    * element matches, and every other element stays where it was. */
  function Overwrite(s: seq<Obj>, x: Obj): (r: seq<Obj>)
    ensures |r| == |s|
    ensures FindIndex(s, OidOf(x)) == -1 ==> r == s
    ensures FindIndex(s, OidOf(x)) >= 0 ==> r[FindIndex(s, OidOf(x))] == x
    ensures forall k :: 0 <= k < |s| && k != FindIndex(s, OidOf(x)) ==> r[k] == s[k]
  {
    var i := FindIndex(s, OidOf(x));
    if i == -1 then s else s[i := x]
  }

  /** The number of elements holding `oid`. */
  function CountOid(s: seq<Obj>, oid: Js): (n: nat)
    ensures n <= |s|
  {
    if s == [] then 0 else (if OidOf(s[0]) == oid then 1 else 0) + CountOid(s[1..], oid)
  }

  /** `filter(x => x.oid !== oid)`: every element holding `oid` goes, the
    * others stay in order. */
  function RemoveOid(s: seq<Obj>, oid: Js): (r: seq<Obj>)
    ensures forall x :: x in r <==> x in s && OidOf(x) != oid
    ensures |r| + CountOid(s, oid) == |s|
    ensures Subsequence(r, s)
  {
    if s == [] then []
    else
      var rest := RemoveOid(s[1..], oid);
      assert forall x :: x in s <==> x == s[0] || x in s[1..];
      if OidOf(s[0]) == oid then
        assert rest == [] || Subsequence(rest, s[1..]);
        rest
      else
        assert ([s[0]] + rest)[1..] == rest;
        [s[0]] + rest
  }

  /** After a removal no element holds that oid any more. */
  lemma RemovedIsGone(s: seq<Obj>, oid: Js)
    ensures FindIndex(RemoveOid(s, oid), oid) == -1
    ensures CountOid(RemoveOid(s, oid), oid) == 0
  {
    var r := RemoveOid(s, oid);
    assert forall k :: 0 <= k < |r| ==> r[k] in r;
    NoneCounted(r, oid);
  }

  lemma {:induction false} NoneCounted(s: seq<Obj>, oid: Js)
    requires forall k :: 0 <= k < |s| ==> OidOf(s[k]) != oid
    ensures CountOid(s, oid) == 0
  {
    if s != [] {
      assert forall k :: 1 <= k < |s| ==> s[k] == s[1..][k - 1];
      NoneCounted(s[1..], oid);
    }
  }

  /** `{ ...base, ...patch }`: the payload's keys win, the other keys keep
    * their values. */
  function Spread(base: Obj, patch: Obj): (r: Obj)
    ensures r.Keys == base.Keys + patch.Keys
    ensures forall k :: k in patch ==> r[k] == patch[k]
    ensures forall k :: k in base && k !in patch ==> r[k] == base[k]
  {
    base + patch
  }

  /** `selected?.oid`: `undefined` when nothing is selected. */
  function SelectedOid(selected: Option<Obj>): (v: Js)
    ensures selected.None? ==> v == Undefined
  {
    if selected.None? then Undefined else OidOf(selected.value)
  }

  /** `value.toString()`; number and date formatting are supplied by the
    * caller. */
  function Show(v: Js, showNum: real -> string, showDate: Instant -> string): string
  {
    match v
    case Str(s) => s
    case Bool(b) => if b then "true" else "false"
    case Num(n) => showNum(n)
    case Date(t) => showDate(t)
    case _ => ""
  }

  /** The query parameters built from an object's entries, in entry order:
    * one per entry whose value is neither undefined nor null. */
  function ParamsOf(entries: seq<(string, Js)>, showNum: real -> string, showDate: Instant -> string): (r: seq<(string, string)>)
    ensures |r| <= |entries|
  {
    if entries == [] then []
    else
      var last := entries[|entries| - 1];
      ParamsOf(entries[..|entries| - 1], showNum, showDate) +
        (if Nullish(last.1) then [] else [(last.0, Show(last.1, showNum, showDate))])
  }

  /** Every parameter comes from an entry whose value is set. */
  lemma {:induction false} ParamsFromSetEntries(entries: seq<(string, Js)>, showNum: real -> string, showDate: Instant -> string, p: (string, string))
    requires p in ParamsOf(entries, showNum, showDate)
    ensures exists i :: 0 <= i < |entries| && entries[i].0 == p.0 && !Nullish(entries[i].1)
  {
    var init := entries[..|entries| - 1];
    var last := entries[|entries| - 1];
    if p in ParamsOf(init, showNum, showDate) {
      ParamsFromSetEntries(init, showNum, showDate, p);
      var i :| 0 <= i < |init| && init[i].0 == p.0 && !Nullish(init[i].1);
      assert entries[i] == init[i];
    } else {
      assert p == (last.0, Show(last.1, showNum, showDate)) && !Nullish(last.1);
    }
  }

  /** Every entry whose value is set gives a parameter. */
  lemma {:induction false} SetEntriesGiveParams(entries: seq<(string, Js)>, showNum: real -> string, showDate: Instant -> string, i: int)
    requires 0 <= i < |entries| && !Nullish(entries[i].1)
    ensures (entries[i].0, Show(entries[i].1, showNum, showDate)) in ParamsOf(entries, showNum, showDate)
  {
    var init := entries[..|entries| - 1];
    if i < |init| {
      assert init[i] == entries[i];
      SetEntriesGiveParams(init, showNum, showDate, i);
    }
  }

  /** The `forEach` of a list fetch: `params.append(key, value.toString())`
    * for each entry whose value is not undefined or null. */
  method BuildParams(entries: seq<(string, Js)>, showNum: real -> string, showDate: Instant -> string)
    returns (params: seq<(string, string)>)
    ensures params == ParamsOf(entries, showNum, showDate)
  {
    params := [];
    var i := 0;
    while i < |entries|
      invariant 0 <= i <= |entries|
      invariant params == ParamsOf(entries[..i], showNum, showDate)
    {
      var (key, value) := entries[i];
      assert entries[..i + 1][..i] == entries[..i];
      if value != Undefined && value != Null {
        params := params + [(key, Show(value, showNum, showDate))];
      }
      i := i + 1;
    }
    assert entries[..i] == entries;
  }

  /** `entries` lists the object's own properties, each once. */
  predicate Lists(entries: seq<(string, Js)>, o: Obj)
  {
    (forall i :: 0 <= i < |entries| ==> entries[i].0 in o && o[entries[i].0] == entries[i].1) &&
    (forall k :: k in o ==> exists i :: 0 <= i < |entries| && entries[i].0 == k)
  }

  /** The query string names exactly the filters that are set (neither
    * undefined nor null). */
  lemma ParamsNameSetFilters(entries: seq<(string, Js)>, o: Obj, showNum: real -> string, showDate: Instant -> string, k: string)
    requires Lists(entries, o)
    ensures (exists p :: p in ParamsOf(entries, showNum, showDate) && p.0 == k) <==> k in o && !Nullish(o[k])
  {
    var r := ParamsOf(entries, showNum, showDate);
    if k in o && !Nullish(o[k]) {
      var i :| 0 <= i < |entries| && entries[i].0 == k;
      SetEntriesGiveParams(entries, showNum, showDate, i);
      assert (k, Show(entries[i].1, showNum, showDate)) in r;
    }
    if p :| p in r && p.0 == k {
      ParamsFromSetEntries(entries, showNum, showDate, p);
    }
  }

  /** The `pagination` block of a paged slice. */
  datatype Pagination = Pagination(total: real, page: real, pageSize: real, totalPages: real)

  /** The paged answer a list fetch resolves with. */
  datatype Paginated = Paginated(data: seq<Obj>, total: real, page: real, pageSize: real, totalPages: real)

  /** `{ page: 1, pageSize: 10 }`, the initial and the cleared filters. */
  const InitialFilters: Obj := map["page" := Num(1.0), "pageSize" := Num(10.0)]

  /** The initial pagination: nothing loaded, page 1 of size 10. */
  const InitialPagination := Pagination(0.0, 1.0, 10.0, 0.0)
}
