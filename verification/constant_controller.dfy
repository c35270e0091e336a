/** The constants resource: the lookup table of labelled ids, with listing,
  * the four write/read endpoints, per-type lists and select options, and
  * the distinct types. */
module ConstantController {
  import opened Values
  import opened Query
  import opened Validation
  import opened Tables

  /** The Constant model's `$fillable` columns. */
  const Fillable: set<string> := {"CNST_NAME", "CNST_TYPE", "CNST_ENG"}

  ghost predicate IsConstantTable(t: Table)
    reads t
  {
    t.Valid() && t.key == "OID" && t.fillable == Fillable
  }

  /** The conjunction `index` builds: the search over the Arabic and English
    * names, then the type filter, each only when present. */
  function Criteria(req: Request): seq<Criterion>
  {
    When("search" in req, Search(["CNST_NAME", "CNST_ENG"], TermOf(Get(req, "search")))) +
    When("cnst_type" in req, Equals("CNST_TYPE", Get(req, "cnst_type")))
  }

  /** A constant is listed exactly when one of its names contains the search
    * term and its type is the requested one. */
  lemma CriteriaMeaning(req: Request, row: Row)
    ensures MatchesAll(row, Criteria(req)) <==>
      ("search" in req ==>
        Like(Get(row, "CNST_NAME"), TermOf(req["search"])) || Like(Get(row, "CNST_ENG"), TermOf(req["search"]))) &&
      ("cnst_type" in req ==> SqlEquals(Get(row, "CNST_TYPE"), req["cnst_type"]))
  {
    var cols := ["CNST_NAME", "CNST_ENG"];
    MatchesAllConcat(row, When("search" in req, Search(cols, TermOf(Get(req, "search")))),
                          When("cnst_type" in req, Equals("CNST_TYPE", Get(req, "cnst_type"))));
    MatchesWhen(row, "search" in req, Search(cols, TermOf(Get(req, "search"))));
    SearchAny(row, cols, TermOf(Get(req, "search")));
    MatchesWhen(row, "cnst_type" in req, Equals("CNST_TYPE", Get(req, "cnst_type")));
  }

  /** The successive `where` calls of `index`. */
  method BuildCriteria(req: Request) returns (cs: seq<Criterion>)
    ensures cs == Criteria(req)
  {
    cs := AddWhen([], "search" in req, Search(["CNST_NAME", "CNST_ENG"], TermOf(Get(req, "search"))));
    assert cs == When("search" in req, Search(["CNST_NAME", "CNST_ENG"], TermOf(Get(req, "search"))));
    cs := AddWhen(cs, "cnst_type" in req, Equals("CNST_TYPE", Get(req, "cnst_type")));
  }

  /** `index`: the matching constants, newest key first, one page of them. */
  method Index(constants: Table, req: Request) returns (reply: Reply<Page>)
    ensures reply == Reply(OK, true, Some(List(constants.rows, Criteria(req), "OID", Desc, req)))
    ensures reply.data.value.total == |Filter(constants.rows, Criteria(req))|
    ensures PerPageOf(req) > 0 ==> |reply.data.value.items| <= PerPageOf(req)
    ensures forall x :: x in reply.data.value.items ==> x in constants.rows && MatchesAll(x, Criteria(req))
    ensures Sorted(reply.data.value.items, "OID", Desc)
  {
    var cs := BuildCriteria(req);
    reply := Reply(OK, true, Some(List(constants.rows, cs, "OID", Desc, req)));
  }

  const StoreRules: seq<Rule> := [
    Rule("CNST_NAME", Required, false, Str(0, Some(80))),
    Rule("CNST_TYPE", Optional, true, Str(0, Some(40))),
    Rule("CNST_ENG", Optional, true, Str(0, Some(80)))]

  const UpdateRules: seq<Rule> := [
    Rule("CNST_NAME", Sometimes, false, Str(0, Some(80))),
    Rule("CNST_TYPE", Optional, true, Str(0, Some(40))),
    Rule("CNST_ENG", Optional, true, Str(0, Some(80)))]

  /** A stored constant has a name of at most 80 characters; a supplied type
    * has at most 40 and an English name at most 80. */
  lemma StoreNeeds(req: Request)
    requires Validate(StoreRules, req).Some?
    ensures Supplied(req, "CNST_NAME") && req["CNST_NAME"].VStr? && |req["CNST_NAME"].s| <= 80
    ensures Supplied(req, "CNST_TYPE") ==> req["CNST_TYPE"].VStr? && |req["CNST_TYPE"].s| <= 40
    ensures Supplied(req, "CNST_ENG") ==> req["CNST_ENG"].VStr? && |req["CNST_ENG"].s| <= 80
  {
    var name := Rule("CNST_NAME", Required, false, Str(0, Some(80)));
    RequiredPresent(StoreRules, req, name);
    KindHolds(StoreRules, req, name);
    if Supplied(req, "CNST_TYPE") {
      KindHolds(StoreRules, req, Rule("CNST_TYPE", Optional, true, Str(0, Some(40))));
    }
    if Supplied(req, "CNST_ENG") {
      KindHolds(StoreRules, req, Rule("CNST_ENG", Optional, true, Str(0, Some(80))));
    }
  }

  /** A non-blank name over 80 characters is refused by both rule sets. */
  lemma LongNameRefused(req: Request)
    requires Supplied(req, "CNST_NAME") && req["CNST_NAME"].VStr? && |req["CNST_NAME"].s| > 80
    ensures Validate(StoreRules, req).None?
    ensures Validate(UpdateRules, req).None?
  {
    BadKindFails(StoreRules, req, Rule("CNST_NAME", Required, false, Str(0, Some(80))));
    BadKindFails(UpdateRules, req, Rule("CNST_NAME", Sometimes, false, Str(0, Some(80))));
  }

  /** `store`: 201 with the created row, or 500 when validation fails. */
  method Store(constants: Table, req: Request) returns (reply: Reply<Row>)
    requires IsConstantTable(constants)
    modifies constants
    ensures IsConstantTable(constants)
    ensures Validate(StoreRules, req).None? ==>
      reply == Reply(SERVER_ERROR, false, None) && constants.rows == old(constants.rows)
    ensures Validate(StoreRules, req).Some? ==>
      var row := Created(Validate(StoreRules, req).value, Fillable, "OID", old(constants.nextOid));
      reply == Reply(CREATED, true, Some(row)) && constants.rows == old(constants.rows) + [row]
  {
    assert Validate(StoreRules, req).Some? ==> Validate(StoreRules, req).value + map[] == Validate(StoreRules, req).value;
    reply := Tables.Store(constants, StoreRules, req, map[]);
  }

  /** `show`: 200 with the constant, or 404. */
  method Show(constants: Table, id: int) returns (reply: Reply<Row>)
    ensures constants.Find(id).Some? ==> reply == Reply(OK, true, Some(constants.rows[constants.Find(id).value]))
    ensures constants.Find(id).None? ==> reply == Reply(NOT_FOUND, false, None)
  {
    reply := Tables.Show(constants, id);
  }

  /** `update`: 500 for a missing constant or a failed validation; otherwise
    * the supplied, validated columns are overwritten. */
  method Update(constants: Table, id: int, req: Request) returns (reply: Reply<Row>)
    requires IsConstantTable(constants)
    modifies constants
    ensures IsConstantTable(constants)
    ensures old(constants.Find(id)).None? || Validate(UpdateRules, req).None? ==>
      reply == Reply(SERVER_ERROR, false, None) && constants.rows == old(constants.rows)
    ensures old(constants.Find(id)).Some? && Validate(UpdateRules, req).Some? ==>
      var i := old(constants.Find(id)).value;
      var row := Updated(old(constants.rows)[i], Validate(UpdateRules, req).value, Fillable);
      reply == Reply(OK, true, Some(row)) && constants.rows == old(constants.rows)[i := row]
  {
    reply := Tables.Update(constants, id, UpdateRules, req);
  }

  /** `destroy`: 500 for a missing constant; otherwise its row is removed. */
  method Destroy(constants: Table, id: int) returns (reply: Reply<Row>)
    requires IsConstantTable(constants)
    modifies constants
    ensures IsConstantTable(constants)
    ensures old(constants.Find(id)).None? ==> reply == Reply(SERVER_ERROR, false, None) && constants.rows == old(constants.rows)
    ensures old(constants.Find(id)).Some? ==>
      var i := old(constants.Find(id)).value;
      reply == Reply(OK, true, None) && constants.rows == old(constants.rows)[..i] + old(constants.rows)[i + 1..]
    ensures constants.Find(id).None?
  {
    reply := Tables.Destroy(constants, id);
  }

  /** `getByType($type)`: exactly the constants of that type. */
  function ByType(constants: seq<Row>, tag: string): (r: seq<Row>)
    ensures forall x :: x in r <==> x in constants && Get(x, "CNST_TYPE") == VStr(tag)
    ensures multiset(r) <= multiset(constants)
  {
    var cs := [Equals("CNST_TYPE", VStr(tag))];
    assert forall x :: MatchesAll(x, cs) <==> Get(x, "CNST_TYPE") == VStr(tag) by {
      forall x ensures MatchesAll(x, cs) <==> Get(x, "CNST_TYPE") == VStr(tag) {
        assert cs[0] == Equals("CNST_TYPE", VStr(tag));
      }
    }
    FilterCompleteAll(constants, cs);
    Filter(constants, cs)
  }

  /** `getOptions($type)`: the same rows as `getByType`, each projected to
    * `{value: OID, label: CNST_NAME}`. */
  function TypeOptions(constants: seq<Row>, tag: string): (r: seq<Choice>)
    ensures |r| == |ByType(constants, tag)|
    ensures forall k :: 0 <= k < |r| ==>
      r[k].value == Get(ByType(constants, tag)[k], "OID") && r[k].name == Get(ByType(constants, tag)[k], "CNST_NAME")
  {
    Options(ByType(constants, tag), "OID", "CNST_NAME")
  }

  /** Every option names a constant of the requested type, and every such
    * constant has its option. */
  lemma TypeOptionsComplete(constants: seq<Row>, tag: string)
    ensures forall c :: c in TypeOptions(constants, tag) ==>
      exists x :: x in constants && Get(x, "CNST_TYPE") == VStr(tag) && c == Choice(Get(x, "OID"), Get(x, "CNST_NAME"))
    ensures forall x :: x in constants && Get(x, "CNST_TYPE") == VStr(tag) ==>
      Choice(Get(x, "OID"), Get(x, "CNST_NAME")) in TypeOptions(constants, tag)
  {
    var rows := ByType(constants, tag);
    var r := TypeOptions(constants, tag);
    forall c | c in r
      ensures exists x :: x in constants && Get(x, "CNST_TYPE") == VStr(tag) && c == Choice(Get(x, "OID"), Get(x, "CNST_NAME"))
    {
      var k :| 0 <= k < |r| && r[k] == c;
      assert rows[k] in rows;
    }
    forall x | x in constants && Get(x, "CNST_TYPE") == VStr(tag)
      ensures Choice(Get(x, "OID"), Get(x, "CNST_NAME")) in r
    {
      var k :| 0 <= k < |rows| && rows[k] == x;
      assert r[k] == Choice(Get(x, "OID"), Get(x, "CNST_NAME"));
    }
  }

  /** `getTypes`: every type in the table (null included) exactly once. */
  function Types(constants: seq<Row>): (r: seq<Value>)
    ensures forall i :: 0 <= i < |constants| ==> Get(constants[i], "CNST_TYPE") in r
    ensures forall v :: v in r ==> exists x :: x in constants && Get(x, "CNST_TYPE") == v
    ensures forall i, j :: 0 <= i < j < |r| ==> r[i] != r[j]
  {
    var r := Distinct(constants, "CNST_TYPE");
    forall v | v in r ensures exists x :: x in constants && Get(x, "CNST_TYPE") == v {
      var i :| 0 <= i < |constants| && Get(constants[i], "CNST_TYPE") == v;
      assert constants[i] in constants;
    }
    r
  }
}
