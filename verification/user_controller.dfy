/** The users resource: listing with search and flag filters, account
  * creation with a hashed password and 0/1 flags, partial updates whose
  * uniqueness checks skip the user's own row, status toggling and activity
  * statistics. */
module UserController {
  import opened Values
  import opened Ordering
  import opened Query
  import opened Validation
  import opened Tables

  /** The User model's `$fillable` columns. */
  const Fillable: set<string> := {
    "USER_NAME_NEW", "USER_PASSWORD", "USER_SSN", "USER_FULL_NAME", "USER_ACTIVE", "READ_ONLY", "REMEMBER_TOKEN"}

  ghost predicate IsUserTable(t: Table)
    reads t
  {
    t.Valid() && t.key == "OID" && t.fillable == Fillable
  }

  /** The conjunction `index` builds: the search over the login and the full
    * name, then the two flag filters, each only when present. */
  function Criteria(req: Request): seq<Criterion>
  {
    When("search" in req, Search(["USER_NAME_NEW", "USER_FULL_NAME"], TermOf(Get(req, "search")))) +
    When("user_active" in req, Equals("USER_ACTIVE", Get(req, "user_active"))) +
    When("read_only" in req, Equals("READ_ONLY", Get(req, "read_only")))
  }

  /** A user is listed exactly when the login or the full name contains the
    * search term and both flags have the requested values. */
  lemma CriteriaMeaning(req: Request, row: Row)
    ensures MatchesAll(row, Criteria(req)) <==>
      ("search" in req ==>
        Like(Get(row, "USER_NAME_NEW"), TermOf(req["search"])) || Like(Get(row, "USER_FULL_NAME"), TermOf(req["search"]))) &&
      ("user_active" in req ==> SqlEquals(Get(row, "USER_ACTIVE"), req["user_active"])) &&
      ("read_only" in req ==> SqlEquals(Get(row, "READ_ONLY"), req["read_only"]))
  {
    var cols := ["USER_NAME_NEW", "USER_FULL_NAME"];
    var a := When("search" in req, Search(cols, TermOf(Get(req, "search"))));
    var b := When("user_active" in req, Equals("USER_ACTIVE", Get(req, "user_active")));
    var c := When("read_only" in req, Equals("READ_ONLY", Get(req, "read_only")));
    MatchesAllConcat(row, a + b, c);
    MatchesAllConcat(row, a, b);
    MatchesWhen(row, "search" in req, Search(cols, TermOf(Get(req, "search"))));
    SearchAny(row, cols, TermOf(Get(req, "search")));
    MatchesWhen(row, "user_active" in req, Equals("USER_ACTIVE", Get(req, "user_active")));
    MatchesWhen(row, "read_only" in req, Equals("READ_ONLY", Get(req, "read_only")));
  }

  /** The successive `where` calls of `index`. */
  method BuildCriteria(req: Request) returns (cs: seq<Criterion>)
    ensures cs == Criteria(req)
  {
    cs := AddWhen([], "search" in req, Search(["USER_NAME_NEW", "USER_FULL_NAME"], TermOf(Get(req, "search"))));
    assert cs == When("search" in req, Search(["USER_NAME_NEW", "USER_FULL_NAME"], TermOf(Get(req, "search"))));
    cs := AddWhen(cs, "user_active" in req, Equals("USER_ACTIVE", Get(req, "user_active")));
    cs := AddWhen(cs, "read_only" in req, Equals("READ_ONLY", Get(req, "read_only")));
  }

  /** `index`: the matching users, newest key first, one page of them. */
  method Index(users: Table, req: Request) returns (reply: Reply<Page>)
    ensures reply == Reply(OK, true, Some(List(users.rows, Criteria(req), "OID", Desc, req)))
    ensures reply.data.value.total == |Filter(users.rows, Criteria(req))|
    ensures PerPageOf(req) > 0 ==> |reply.data.value.items| <= PerPageOf(req)
    ensures forall x :: x in reply.data.value.items ==> x in users.rows && MatchesAll(x, Criteria(req))
    ensures Sorted(reply.data.value.items, "OID", Desc)
  {
    var cs := BuildCriteria(req);
    reply := Reply(OK, true, Some(List(users.rows, cs, "OID", Desc, req)));
  }

  const StoreRules: seq<Rule> := [
    Rule("USER_NAME_NEW", Required, false, Str(0, Some(30))),
    Rule("USER_PASSWORD", Required, false, Str(0, Some(30))),
    Rule("USER_SSN", Optional, true, Integer),
    Rule("USER_FULL_NAME", Required, false, Str(0, Some(100))),
    Rule("USER_ACTIVE", Optional, true, Boolean),
    Rule("READ_ONLY", Optional, true, Boolean)]

  const UpdateRules: seq<Rule> := [
    Rule("USER_NAME_NEW", Sometimes, false, Str(0, Some(30))),
    Rule("USER_PASSWORD", Sometimes, false, Str(0, Some(30))),
    Rule("USER_SSN", Optional, true, Integer),
    Rule("USER_FULL_NAME", Sometimes, false, Str(0, Some(100))),
    Rule("USER_ACTIVE", Optional, true, Boolean),
    Rule("READ_ONLY", Optional, true, Boolean)]

  /** A new account always carries a login of at most 30 characters, a
    * password of at most 30 and a full name of at most 100. */
  lemma StoreNeeds(req: Request)
    requires Validate(StoreRules, req).Some?
    ensures Supplied(req, "USER_NAME_NEW") && req["USER_NAME_NEW"].VStr? && |req["USER_NAME_NEW"].s| <= 30
    ensures Supplied(req, "USER_PASSWORD") && req["USER_PASSWORD"].VStr? && |req["USER_PASSWORD"].s| <= 30
    ensures Supplied(req, "USER_FULL_NAME") && req["USER_FULL_NAME"].VStr? && |req["USER_FULL_NAME"].s| <= 100
  {
    var name := Rule("USER_NAME_NEW", Required, false, Str(0, Some(30)));
    var password := Rule("USER_PASSWORD", Required, false, Str(0, Some(30)));
    var fullName := Rule("USER_FULL_NAME", Required, false, Str(0, Some(100)));
    RequiredPresent(StoreRules, req, name);
    KindHolds(StoreRules, req, name);
    RequiredPresent(StoreRules, req, password);
    KindHolds(StoreRules, req, password);
    RequiredPresent(StoreRules, req, fullName);
    KindHolds(StoreRules, req, fullName);
  }

  /** The `unique:USERS,col[,id,OID]` rule's query: some row other than the
    * ignored one holds the value. */
  predicate Taken(users: seq<Row>, col: string, v: Value, except: Option<int>)
  {
    exists i :: 0 <= i < |users| && SqlEquals(Get(users[i], col), v) &&
      !(except.Some? && Get(users[i], "OID") == VInt(except.value))
  }

  /** Both uniqueness rules pass; like every non-implicit rule they are
    * skipped for an attribute that is not supplied. */
  predicate UniqueOk(users: seq<Row>, req: Request, except: Option<int>)
  {
    (Supplied(req, "USER_NAME_NEW") ==> !Taken(users, "USER_NAME_NEW", req["USER_NAME_NEW"], except)) &&
    (Supplied(req, "USER_SSN") ==> !Taken(users, "USER_SSN", req["USER_SSN"], except))
  }

  /** `$x ? 1 : 0`: a flag as Oracle stores it. */
  function Flag(v: Value): (f: Value)
    ensures f == VInt(0) || f == VInt(1)
    ensures Truthy(f) == Truthy(v)
  {
    if Truthy(v) then VInt(1) else VInt(0)
  }

  /** The attributes `store` creates the account from: the password replaced
    * by its hash, and both flags written as 1 or 0, 0 when absent or null. */
  function NewAttributes(validated: Row, hash: string -> string): (a: Row)
    ensures "USER_PASSWORD" in a && a["USER_PASSWORD"] == VStr(hash(TermOf(Get(validated, "USER_PASSWORD"))))
    ensures "USER_ACTIVE" in a && a["USER_ACTIVE"] == (if Truthy(Get(validated, "USER_ACTIVE")) then VInt(1) else VInt(0))
    ensures "READ_ONLY" in a && a["READ_ONLY"] == (if Truthy(Get(validated, "READ_ONLY")) then VInt(1) else VInt(0))
    ensures forall k :: k in validated && k !in {"USER_PASSWORD", "USER_ACTIVE", "READ_ONLY"} ==> k in a && a[k] == validated[k]
  {
    validated + Stamp(validated, hash)
  }

  /** The three columns `store` computes rather than copies. */
  function Stamp(attrs: Row, hash: string -> string): Row
  {
    map[
      "USER_PASSWORD" := VStr(hash(TermOf(Get(attrs, "USER_PASSWORD")))),
      "USER_ACTIVE" := Flag(Get(attrs, "USER_ACTIVE")),
      "READ_ONLY" := Flag(Get(attrs, "READ_ONLY"))]
  }

  /** The attributes `update` writes: the password hashed when set, each flag
    * written as 1 or 0 when set; everything else as validated. */
  function ChangedAttributes(validated: Row, hash: string -> string): (a: Row)
    ensures a.Keys == validated.Keys
    ensures Isset(validated, "USER_PASSWORD") ==> a["USER_PASSWORD"] == VStr(hash(TermOf(validated["USER_PASSWORD"])))
    ensures Isset(validated, "USER_ACTIVE") ==> a["USER_ACTIVE"] == Flag(validated["USER_ACTIVE"])
    ensures Isset(validated, "READ_ONLY") ==> a["READ_ONLY"] == Flag(validated["READ_ONLY"])
    ensures forall k :: k in validated && !(k in {"USER_PASSWORD", "USER_ACTIVE", "READ_ONLY"} && Isset(validated, k)) ==>
      a[k] == validated[k]
  {
    var p := if Isset(validated, "USER_PASSWORD") then
      validated["USER_PASSWORD" := VStr(hash(TermOf(validated["USER_PASSWORD"])))] else validated;
    var q := if Isset(p, "USER_ACTIVE") then p["USER_ACTIVE" := Flag(p["USER_ACTIVE"])] else p;
    if Isset(q, "READ_ONLY") then q["READ_ONLY" := Flag(q["READ_ONLY"])] else q
  }

  /** PHP's `isset($a[$k])`: present and not null. */
  predicate Isset(a: Row, k: string)
  {
    k in a && a[k] != VNull
  }

  /** No two accounts share a login. */
  predicate NamesUnique(rows: seq<Row>)
  {
    forall i, j :: 0 <= i < j < |rows| ==> Get(rows[i], "USER_NAME_NEW") != Get(rows[j], "USER_NAME_NEW")
  }

  /** `store`: 500 when validation or a uniqueness rule fails; otherwise 201
    * with the account created from `NewAttributes`. */
  method Store(users: Table, req: Request, hash: string -> string) returns (reply: Reply<Row>)
    requires IsUserTable(users)
    modifies users
    ensures IsUserTable(users)
    ensures Validate(StoreRules, req).None? || !UniqueOk(old(users.rows), req, None) ==>
      reply == Reply(SERVER_ERROR, false, None) && users.rows == old(users.rows)
    ensures Validate(StoreRules, req).Some? && UniqueOk(old(users.rows), req, None) ==>
      var row := Created(NewAttributes(Validate(StoreRules, req).value, hash), Fillable, "OID", old(users.nextOid));
      reply == Reply(CREATED, true, Some(row)) && users.rows == old(users.rows) + [row]
  {
    if !UniqueOk(users.rows, req, None) {
      reply := Reply(SERVER_ERROR, false, None);
    } else {
      var stamp := Stamp(req, hash);
      ghost var validated := Validate(StoreRules, req);
      if validated.Some? {
        StampAgrees(req, hash);
      }
      reply := Tables.Store(users, StoreRules, req, stamp);
    }
  }

  lemma StampAgrees(req: Request, hash: string -> string)
    requires Validate(StoreRules, req).Some?
    ensures Stamp(req, hash) == Stamp(Validate(StoreRules, req).value, hash)
  {
    RuledKept(StoreRules, req, Rule("USER_PASSWORD", Required, false, Str(0, Some(30))));
    RuledKept(StoreRules, req, Rule("USER_ACTIVE", Optional, true, Boolean));
    RuledKept(StoreRules, req, Rule("READ_ONLY", Optional, true, Boolean));
  }

  /** The account `store` writes never keeps the supplied password: its
    * password column is the hash of it, and both flags are 0 or 1. */
  lemma NewAccountShape(validated: Row, hash: string -> string, oid: int)
    ensures var row := Created(NewAttributes(validated, hash), Fillable, "OID", oid);
      row["USER_PASSWORD"] == VStr(hash(TermOf(Get(validated, "USER_PASSWORD")))) &&
      (row["USER_ACTIVE"] == VInt(1) <==> Truthy(Get(validated, "USER_ACTIVE"))) &&
      (row["USER_ACTIVE"] == VInt(0) || row["USER_ACTIVE"] == VInt(1)) &&
      (row["READ_ONLY"] == VInt(1) <==> Truthy(Get(validated, "READ_ONLY"))) &&
      (row["READ_ONLY"] == VInt(0) || row["READ_ONLY"] == VInt(1)) &&
      row["OID"] == VInt(oid)
  {
    var a := NewAttributes(validated, hash);
    assert "USER_PASSWORD" in a.Keys * Fillable && "USER_ACTIVE" in a.Keys * Fillable && "READ_ONLY" in a.Keys * Fillable;
  }

  /** A successful `store` keeps logins unique. */
  lemma StoreKeepsNamesUnique(rows: seq<Row>, req: Request, hash: string -> string, oid: int)
    requires NamesUnique(rows)
    requires Validate(StoreRules, req).Some? && UniqueOk(rows, req, None)
    ensures NamesUnique(rows + [Created(NewAttributes(Validate(StoreRules, req).value, hash), Fillable, "OID", oid)])
  {
    var row := Created(NewAttributes(Validate(StoreRules, req).value, hash), Fillable, "OID", oid);
    StoredName(req, hash, oid);
    var v := req["USER_NAME_NEW"];
    NotTakenMeans(rows, v, None);
    AppendKeepsUnique(rows, row);
  }

  lemma AppendKeepsUnique(rows: seq<Row>, row: Row)
    requires NamesUnique(rows)
    requires forall j :: 0 <= j < |rows| ==> Get(rows[j], "USER_NAME_NEW") != Get(row, "USER_NAME_NEW")
    ensures NamesUnique(rows + [row])
  {
    var all := rows + [row];
    forall i, j | 0 <= i < j < |all| ensures Get(all[i], "USER_NAME_NEW") != Get(all[j], "USER_NAME_NEW") {
      if j < |rows| {
        assert all[i] == rows[i] && all[j] == rows[j];
      }
    }
  }

  /** A login string that is not taken differs from the login of every row
    * the rule looks at. */
  lemma NotTakenMeans(rows: seq<Row>, v: Value, except: Option<int>)
    requires v.VStr? && !Taken(rows, "USER_NAME_NEW", v, except)
    ensures forall j :: 0 <= j < |rows| && !(except.Some? && Get(rows[j], "OID") == VInt(except.value)) ==>
      Get(rows[j], "USER_NAME_NEW") != v
  {
    forall j | 0 <= j < |rows| && !(except.Some? && Get(rows[j], "OID") == VInt(except.value))
      ensures Get(rows[j], "USER_NAME_NEW") != v
    {
      assert !SqlEquals(Get(rows[j], "USER_NAME_NEW"), v);
    }
  }

  /** The stored login is the supplied one, which is a string. */
  lemma StoredName(req: Request, hash: string -> string, oid: int)
    requires Validate(StoreRules, req).Some?
    ensures var row := Created(NewAttributes(Validate(StoreRules, req).value, hash), Fillable, "OID", oid);
      Supplied(req, "USER_NAME_NEW") && req["USER_NAME_NEW"].VStr? && Get(row, "USER_NAME_NEW") == req["USER_NAME_NEW"]
  {
    var name := Rule("USER_NAME_NEW", Required, false, Str(0, Some(30)));
    RequiredPresent(StoreRules, req, name);
    KindHolds(StoreRules, req, name);
    var a := NewAttributes(Validate(StoreRules, req).value, hash);
    assert "USER_NAME_NEW" in a.Keys * Fillable;
  }

  /** `update`: 500 for a missing user, a failed validation or a login or SSN
    * held by another user; otherwise the changed attributes overwrite the
    * user's row. */
  method Update(users: Table, id: int, req: Request, hash: string -> string) returns (reply: Reply<Row>)
    requires IsUserTable(users)
    modifies users
    ensures IsUserTable(users)
    ensures old(users.Find(id)).None? || Validate(UpdateRules, req).None? || !UniqueOk(old(users.rows), req, Some(id)) ==>
      reply == Reply(SERVER_ERROR, false, None) && users.rows == old(users.rows)
    ensures old(users.Find(id)).Some? && Validate(UpdateRules, req).Some? && UniqueOk(old(users.rows), req, Some(id)) ==>
      var i := old(users.Find(id)).value;
      var row := Updated(old(users.rows)[i], ChangedAttributes(Validate(UpdateRules, req).value, hash), Fillable);
      reply == Reply(OK, true, Some(row)) && users.rows == old(users.rows)[i := row]
  {
    var i := users.Find(id);
    var validated := Validate(UpdateRules, req);
    if i.None? || validated.None? || !UniqueOk(users.rows, req, Some(id)) {
      reply := Reply(SERVER_ERROR, false, None);
    } else {
      users.Overwrite(i.value, ChangedAttributes(validated.value, hash));
      reply := Reply(OK, true, Some(users.rows[i.value]));
    }
  }

  /** A successful `update` of the user whose key is `id` keeps logins unique:
    * either the login is untouched, or the new one is held by nobody else.
    * (A blank login is skipped by the rules, so it must be supplied when
    * present; the request middleware turns blank strings into null.) */
  lemma UpdateKeepsNamesUnique(rows: seq<Row>, i: nat, id: int, req: Request, hash: string -> string)
    requires NamesUnique(rows)
    requires i < |rows| && Get(rows[i], "OID") == VInt(id)
    requires forall j :: 0 <= j < |rows| && j != i ==> Get(rows[j], "OID") != VInt(id)
    requires Validate(UpdateRules, req).Some? && UniqueOk(rows, req, Some(id))
    requires "USER_NAME_NEW" in req ==> Supplied(req, "USER_NAME_NEW")
    ensures NamesUnique(rows[i := Updated(rows[i], ChangedAttributes(Validate(UpdateRules, req).value, hash), Fillable)])
  {
    var validated := Validate(UpdateRules, req).value;
    var a := ChangedAttributes(validated, hash);
    var row := Updated(rows[i], a, Fillable);
    var all := rows[i := row];
    if "USER_NAME_NEW" in req {
      var v := req["USER_NAME_NEW"];
      assert "USER_NAME_NEW" in validated;
      assert Get(row, "USER_NAME_NEW") == v;
      KindHolds(UpdateRules, req, Rule("USER_NAME_NEW", Sometimes, false, Str(0, Some(30))));
      NotTakenMeans(rows, v, Some(id));
    } else {
      assert "USER_NAME_NEW" !in a;
      assert Get(row, "USER_NAME_NEW") == Get(rows[i], "USER_NAME_NEW");
    }
    forall j, k | 0 <= j < k < |all| ensures Get(all[j], "USER_NAME_NEW") != Get(all[k], "USER_NAME_NEW") {
      if j != i && k != i {
        assert all[j] == rows[j] && all[k] == rows[k];
      }
    }
  }

  /** `show`: 200 with the user, or 404. */
  method Show(users: Table, id: int) returns (reply: Reply<Row>)
    ensures users.Find(id).Some? ==> reply == Reply(OK, true, Some(users.rows[users.Find(id).value]))
    ensures users.Find(id).None? ==> reply == Reply(NOT_FOUND, false, None)
  {
    reply := Tables.Show(users, id);
  }

  /** `destroy`: 500 for a missing user; otherwise its row is removed. */
  method Destroy(users: Table, id: int) returns (reply: Reply<Row>)
    requires IsUserTable(users)
    modifies users
    ensures IsUserTable(users)
    ensures old(users.Find(id)).None? ==> reply == Reply(SERVER_ERROR, false, None) && users.rows == old(users.rows)
    ensures old(users.Find(id)).Some? ==>
      var i := old(users.Find(id)).value;
      reply == Reply(OK, true, None) && users.rows == old(users.rows)[..i] + old(users.rows)[i + 1..]
    ensures users.Find(id).None?
  {
    reply := Tables.Destroy(users, id);
  }

  /** `$user->USER_ACTIVE ? 0 : 1`. */
  function Flipped(v: Value): (f: Value)
    ensures f == VInt(0) || f == VInt(1)
    ensures Truthy(f) == !Truthy(v)
  {
    if Truthy(v) then VInt(0) else VInt(1)
  }

  /** The row `toggleStatus` writes. */
  function Toggled(row: Row): (r: Row)
    ensures "USER_ACTIVE" in r && Truthy(r["USER_ACTIVE"]) == !Truthy(Get(row, "USER_ACTIVE"))
    ensures r.Keys == row.Keys + {"USER_ACTIVE"}
    ensures forall k :: k in row && k != "USER_ACTIVE" ==> r[k] == row[k]
  {
    Updated(row, map["USER_ACTIVE" := Flipped(Get(row, "USER_ACTIVE"))], Fillable)
  }

  /** Toggling twice restores a stored 0/1 flag and leaves the row as it was. */
  lemma ToggleTwice(row: Row)
    requires "USER_ACTIVE" in row && (row["USER_ACTIVE"] == VInt(0) || row["USER_ACTIVE"] == VInt(1))
    ensures Toggled(Toggled(row)) == row
  {
    var twice := Toggled(Toggled(row));
    assert twice["USER_ACTIVE"] == row["USER_ACTIVE"];
    assert twice.Keys == row.Keys;
  }

  /** `toggleStatus`: 500 for a missing user; otherwise the active flag is
    * flipped and nothing else changes. */
  method ToggleStatus(users: Table, id: int) returns (reply: Reply<Row>)
    requires IsUserTable(users)
    modifies users
    ensures IsUserTable(users)
    ensures old(users.Find(id)).None? ==> reply == Reply(SERVER_ERROR, false, None) && users.rows == old(users.rows)
    ensures old(users.Find(id)).Some? ==>
      var i := old(users.Find(id)).value;
      reply == Reply(OK, true, Some(Toggled(old(users.rows)[i]))) && users.rows == old(users.rows)[i := Toggled(old(users.rows)[i])]
  {
    var i := users.Find(id);
    if i.None? {
      reply := Reply(SERVER_ERROR, false, None);
    } else {
      users.Overwrite(i.value, map["USER_ACTIVE" := Flipped(Get(users.rows[i.value], "USER_ACTIVE"))]);
      reply := Reply(OK, true, Some(users.rows[i.value]));
    }
  }

  /** The figures `userStats` reports. */
  datatype Activity = Activity(totalGasBills: nat, totalFuelLogs: nat, lastActivity: Value, isActive: bool, isReadOnly: bool)

  /** The user's activity: the bills entered under `ENTERY_USER_OID`, the
    * logs entered under `ENTRY_USER`, the latest entry date among those logs
    * (null when none has one) and the two flags as booleans. */
  function ActivityOf(user: Row, bills: seq<Row>, logs: seq<Row>): (s: Activity)
    ensures s.totalGasBills == |HasMany(bills, "ENTERY_USER_OID", Get(user, "OID"))|
    ensures s.totalFuelLogs == |HasMany(logs, "ENTRY_USER", Get(user, "OID"))|
    ensures forall x ::
      x in logs && Get(user, "OID") != VNull && SqlEquals(Get(x, "ENTRY_USER"), Get(user, "OID")) && Get(x, "ENTRY_DATE") != VNull
      ==> ValueLe(Get(x, "ENTRY_DATE"), s.lastActivity)
    ensures s.lastActivity != VNull ==>
      exists x :: x in logs && SqlEquals(Get(x, "ENTRY_USER"), Get(user, "OID")) && Get(x, "ENTRY_DATE") == s.lastActivity
    ensures s.isActive == Truthy(Get(user, "USER_ACTIVE")) && s.isReadOnly == Truthy(Get(user, "READ_ONLY"))
  {
    var own := HasMany(logs, "ENTRY_USER", Get(user, "OID"));
    LatestOfOwn(own, logs, Get(user, "OID"));
    Activity(|HasMany(bills, "ENTERY_USER_OID", Get(user, "OID"))|, |own|, MaxOf(own, "ENTRY_DATE"),
             Truthy(Get(user, "USER_ACTIVE")), Truthy(Get(user, "READ_ONLY")))
  }

  /** The latest entry date among a user's logs bounds every one of them and
    * is the date of one of them. */
  lemma LatestOfOwn(own: seq<Row>, logs: seq<Row>, oid: Value)
    requires own == HasMany(logs, "ENTRY_USER", oid)
    ensures forall x ::
      x in logs && oid != VNull && SqlEquals(Get(x, "ENTRY_USER"), oid) && Get(x, "ENTRY_DATE") != VNull
      ==> ValueLe(Get(x, "ENTRY_DATE"), MaxOf(own, "ENTRY_DATE"))
    ensures MaxOf(own, "ENTRY_DATE") != VNull ==>
      exists x :: x in logs && SqlEquals(Get(x, "ENTRY_USER"), oid) && Get(x, "ENTRY_DATE") == MaxOf(own, "ENTRY_DATE")
  {
    var last := MaxOf(own, "ENTRY_DATE");
    forall x | x in logs && oid != VNull && SqlEquals(Get(x, "ENTRY_USER"), oid) && Get(x, "ENTRY_DATE") != VNull
      ensures ValueLe(Get(x, "ENTRY_DATE"), last)
    {
      var i :| 0 <= i < |own| && own[i] == x;
    }
    if last != VNull {
      var i :| 0 <= i < |own| && Get(own[i], "ENTRY_DATE") == last;
      assert own[i] in own;
    }
  }

  /** `userStats`: 500 for a missing user, otherwise 200 with the activity. */
  method UserStats(users: Table, bills: Table, logs: Table, id: int) returns (reply: Reply<Activity>)
    ensures users.Find(id).None? ==> reply == Reply(SERVER_ERROR, false, None)
    ensures users.Find(id).Some? ==>
      reply == Reply(OK, true, Some(ActivityOf(users.rows[users.Find(id).value], bills.rows, logs.rows)))
  {
    var i := users.Find(id);
    if i.None? {
      reply := Reply(SERVER_ERROR, false, None);
    } else {
      reply := Reply(OK, true, Some(ActivityOf(users.rows[i.value], bills.rows, logs.rows)));
    }
  }
}
