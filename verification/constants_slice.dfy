/** The constants slice of the client store: the whole constant list as
  * fetched, the same constants grouped into one bucket per `cnstType`, and
  * the request flags. */
module ConstantsSlice {
  import opened JsValues
  import opened ClientLists

  /** The bucket a constant goes to: its `cnstType` when that is a non-empty
    * string; a missing, null or empty type skips the constant. */
  function TypeKey(c: Obj): Option<string>
  {
    var v := Prop(c, "cnstType");
    if v.Str? && v.s != "" then Some(v.s) else None
  }

  /** The constants of type `t`, in list order. */
  function Bucket(s: seq<Obj>, t: string): (b: seq<Obj>)
    ensures forall c :: c in b <==> c in s && TypeKey(c) == Some(t)
    ensures Subsequence(b, s)
    ensures |b| <= |s|
  {
    if s == [] then []
    else
      var rest := Bucket(s[1..], t);
      assert forall c :: c in s <==> c == s[0] || c in s[1..];
      if TypeKey(s[0]) == Some(t) then
        assert ([s[0]] + rest)[1..] == rest;
        [s[0]] + rest
      else
        assert rest == [] || Subsequence(rest, s[1..]);
        rest
  }

  /** The distinct non-empty types the list mentions. */
  function TypesIn(s: seq<Obj>): (ts: set<string>)
    ensures forall t :: t in ts <==> Bucket(s, t) != []
  {
    var ts := set c | c in s && TypeKey(c).Some? :: TypeKey(c).value;
    forall t ensures t in ts <==> Bucket(s, t) != [] {
      if Bucket(s, t) != [] {
        assert Bucket(s, t)[0] in Bucket(s, t);
      }
    }
    ts
  }

  /** The number of constants that carry a type. */
  function TypedCount(s: seq<Obj>): (n: nat)
    ensures n <= |s|
  {
    if s == [] then 0 else (if TypeKey(s[0]).Some? then 1 else 0) + TypedCount(s[1..])
  }

  /** Appending a constant adds it to its own bucket only. */
  lemma {:induction false} BucketAppend(s: seq<Obj>, c: Obj, t: string)
    ensures Bucket(s + [c], t) == Bucket(s, t) + (if TypeKey(c) == Some(t) then [c] else [])
  {
    if s != [] {
      assert (s + [c])[0] == s[0];
      assert (s + [c])[1..] == s[1..] + [c];
      BucketAppend(s[1..], c, t);
    }
  }

  /** The sum of the bucket sizes over a set of types. */
  ghost function SizeSum(s: seq<Obj>, types: set<string>): nat
  {
    if types == {} then 0
    else
      var t :| t in types;
      |Bucket(s, t)| + SizeSum(s, types - {t})
  }

  /** The sum does not depend on the order the types are taken in. */
  lemma {:induction false} SizeSumSplit(s: seq<Obj>, types: set<string>, t: string)
    requires t in types
    ensures SizeSum(s, types) == |Bucket(s, t)| + SizeSum(s, types - {t})
    decreases |types|
  {
    var u :| u in types && SizeSum(s, types) == |Bucket(s, u)| + SizeSum(s, types - {u});
    if u != t {
      SizeSumSplit(s, types - {u}, t);
      SizeSumSplit(s, types - {t}, u);
      assert types - {u} - {t} == types - {t} - {u};
    }
  }

  /** Two lists whose buckets have the same sizes over `types` give the same
    * sum over `types`. */
  lemma {:induction false} SizeSumAgree(s1: seq<Obj>, s2: seq<Obj>, types: set<string>)
    requires forall t :: t in types ==> |Bucket(s1, t)| == |Bucket(s2, t)|
    ensures SizeSum(s1, types) == SizeSum(s2, types)
    decreases |types|
  {
    if types != {} {
      var u :| u in types && SizeSum(s1, types) == |Bucket(s1, u)| + SizeSum(s1, types - {u});
      SizeSumSplit(s2, types, u);
      SizeSumAgree(s1, s2, types - {u});
    }
  }

  /** The bucket sizes add up to the number of typed constants: every typed
    * constant is in exactly one bucket. */
  lemma {:induction false} BucketSizesSum(s: seq<Obj>)
    ensures SizeSum(s, TypesIn(s)) == TypedCount(s)
  {
    if s == [] {
      assert TypesIn(s) == {};
    } else {
      var rest := s[1..];
      BucketSizesSum(rest);
      var types := TypesIn(rest);
      match TypeKey(s[0])
      case None =>
        assert forall t :: Bucket(s, t) == Bucket(rest, t);
        assert TypesIn(s) == types;
        SizeSumAgree(s, rest, types);
      case Some(t0) =>
        assert forall t :: t != t0 ==> Bucket(s, t) == Bucket(rest, t);
        assert Bucket(s, t0) == [s[0]] + Bucket(rest, t0);
        assert TypesIn(s) == types + {t0};
        SizeSumSplit(s, types + {t0}, t0);
        SizeSumAgree(s, rest, types + {t0} - {t0});
        if t0 in types {
          SizeSumSplit(rest, types, t0);
          assert types + {t0} - {t0} == types - {t0};
        } else {
          assert types + {t0} - {t0} == types;
        }
    }
  }

  /** `m` holds exactly the buckets of `s`. */
  ghost predicate Grouped(m: map<string, seq<Obj>>, s: seq<Obj>)
  {
    m.Keys == TypesIn(s) && forall t :: t in m ==> m[t] == Bucket(s, t)
  }

  /** Appending a constant adds its type, if it has one, to the types. */
  lemma TypesInAppend(s: seq<Obj>, c: Obj)
    ensures TypeKey(c).None? ==> TypesIn(s + [c]) == TypesIn(s)
    ensures TypeKey(c).Some? ==> TypesIn(s + [c]) == TypesIn(s) + {TypeKey(c).value}
  {
    forall t ensures Bucket(s + [c], t) == Bucket(s, t) + (if TypeKey(c) == Some(t) then [c] else []) {
      BucketAppend(s, c, t);
    }
  }

  /** The `reduce` callback: an untyped constant leaves the groups as they
    * are, a typed one goes at the end of its bucket, which is opened empty
    * first when the type is new. */
  function AddToGroup(m: map<string, seq<Obj>>, c: Obj): (r: map<string, seq<Obj>>)
    ensures TypeKey(c).None? ==> r == m
    ensures TypeKey(c).Some? ==> r.Keys == m.Keys + {TypeKey(c).value}
    ensures TypeKey(c).Some? ==>
      r[TypeKey(c).value] == (if TypeKey(c).value in m then m[TypeKey(c).value] else []) + [c]
    ensures forall t :: t in m && Some(t) != TypeKey(c) ==> r[t] == m[t]
  {
    match TypeKey(c)
    case None => m
    case Some(t) =>
      var bucket := if t in m then m[t] else [];
      m[t := bucket + [c]]
  }

  /** One step of the `reduce` keeps the groups exact. */
  lemma GroupedAppend(m: map<string, seq<Obj>>, s: seq<Obj>, c: Obj)
    requires Grouped(m, s)
    ensures Grouped(AddToGroup(m, c), s + [c])
  {
    if TypeKey(c).None? {
      GroupedAppendUntyped(m, s, c);
    } else {
      GroupedAppendTyped(m, s, c);
    }
  }

  lemma GroupedAppendUntyped(m: map<string, seq<Obj>>, s: seq<Obj>, c: Obj)
    requires Grouped(m, s) && TypeKey(c).None?
    ensures Grouped(m, s + [c])
  {
    TypesInAppend(s, c);
    forall t | t in m ensures m[t] == Bucket(s + [c], t) {
      BucketAppend(s, c, t);
    }
  }

  lemma GroupedAppendTyped(m: map<string, seq<Obj>>, s: seq<Obj>, c: Obj)
    requires Grouped(m, s) && TypeKey(c).Some?
    ensures Grouped(AddToGroup(m, c), s + [c])
  {
    var t0 := TypeKey(c).value;
    var m' := AddToGroup(m, c);
    TypesInAppend(s, c);
    forall t | t in m' ensures m'[t] == Bucket(s + [c], t) {
      BucketAppend(s, c, t);
      if t != t0 {
        assert m'[t] == m[t];
      } else if t0 !in m {
        assert Bucket(s, t0) == [];
      }
    }
  }

  class ConstantsState {
    var constants: seq<Obj>
    var constantsByType: map<string, seq<Obj>>
    var loading: bool
    var error: Option<string>

    /** `initialState`. */
    constructor ()
      ensures constants == [] && constantsByType == map[] && !loading && error.None?
    {
      constants := [];
      constantsByType := map[];
      loading := false;
      error := None;
    }

    /** `clearError`. */
    method ClearError()
      modifies this`error
      ensures error.None?
    {
      error := None;
    }

    /** `fetchConstantsAsync.pending`. */
    method Pending()
      modifies this`loading, this`error
      ensures loading && error.None?
    {
      loading := true;
      error := None;
    }

    /** `fetchConstantsAsync.rejected`. */
    method Rejected(message: string)
      modifies this`loading, this`error
      ensures !loading && error == Some(message)
    {
      loading := false;
      error := Some(message);
    }

    /** `fetchConstantsAsync.fulfilled`: the list is kept as given, and the
      * `reduce` puts each typed constant at the end of its type's bucket,
      * opening the bucket on the type's first constant. */
    method Fulfilled(payload: seq<Obj>)
      modifies this`loading, this`constants, this`constantsByType
      ensures !loading && constants == payload
      ensures constantsByType.Keys == TypesIn(payload)
      ensures forall t :: t in constantsByType ==> constantsByType[t] == Bucket(payload, t)
    {
      var grouped: map<string, seq<Obj>> := map[];
      var i := 0;
      while i < |payload|
        invariant 0 <= i <= |payload|
        invariant Grouped(grouped, payload[..i])
      {
        var c := payload[i];
        assert payload[..i + 1] == payload[..i] + [c];
        GroupedAppend(grouped, payload[..i], c);
        grouped := AddToGroup(grouped, c);
        i := i + 1;
      }
      assert payload[..i] == payload;
      loading := false;
      constants := payload;
      constantsByType := grouped;
    }
  }
}
