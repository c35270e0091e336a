/** A database table as Eloquent sees it, and the show/store/update/destroy
  * endpoints that every resource controller repeats around it. */
module Tables {
  import opened Values
  import opened Validation

  /** Mass assignment: only the model's `$fillable` attributes are kept. */
  function Fill(attrs: Row, fillable: set<string>): (r: Row)
    ensures r.Keys == attrs.Keys * fillable
    ensures forall k :: k in r ==> r[k] == attrs[k]
  {
    map k | k in attrs.Keys * fillable :: attrs[k]
  }

  /** `where(key, id)->first()`: the position of the row whose key is `id`. */
  function FindIndex(rows: seq<Row>, key: string, id: int): (r: Option<nat>)
    ensures r.Some? ==> r.value < |rows| && Get(rows[r.value], key) == VInt(id)
    ensures r.Some? ==> forall i :: 0 <= i < r.value ==> Get(rows[i], key) != VInt(id)
    ensures r.None? ==> forall i :: 0 <= i < |rows| ==> Get(rows[i], key) != VInt(id)
  {
    if rows == [] then None
    else if Get(rows[0], key) == VInt(id) then Some(0)
    else
      match FindIndex(rows[1..], key, id)
      case None => None
      case Some(j) => Some(j + 1)
  }

  /** The row an insert writes: the fillable part of the attributes and a
    * fresh primary key. */
  function Created(attrs: Row, fillable: set<string>, key: string, oid: int): (r: Row)
    requires key !in fillable
    ensures r.Keys == (attrs.Keys * fillable) + {key}
    ensures r[key] == VInt(oid)
    ensures forall k :: k in r && k != key ==> r[k] == attrs[k]
  {
    Fill(attrs, fillable)[key := VInt(oid)]
  }

  /** The row an update writes: the fillable attributes supplied replace the
    * old values; every other column keeps its value. */
  function Updated(row: Row, attrs: Row, fillable: set<string>): (r: Row)
    ensures r.Keys == row.Keys + (attrs.Keys * fillable)
    ensures forall k :: k in attrs && k in fillable ==> r[k] == attrs[k]
    ensures forall k :: k in row && !(k in attrs && k in fillable) ==> r[k] == row[k]
  {
    row + Fill(attrs, fillable)
  }

  /** One table: its rows in storage order and the next value of its key sequence. */
  class Table {
    var rows: seq<Row>
    var nextOid: int
    const key: string
    const fillable: set<string>

    /** Every row has an integer primary key below `nextOid`, and no two rows share one. */
    ghost predicate Valid()
      reads this
    {
      key !in fillable &&
      (forall i :: 0 <= i < |rows| ==> key in rows[i] && rows[i][key].VInt? && rows[i][key].i < nextOid) &&
      (forall i, j :: 0 <= i < j < |rows| ==> rows[i][key] != rows[j][key])
    }

    constructor (key: string, fillable: set<string>)
      requires key !in fillable
      ensures Valid() && this.key == key && this.fillable == fillable
      ensures rows == [] && nextOid == 1
    {
      this.key := key;
      this.fillable := fillable;
      rows := [];
      nextOid := 1;
    }

    function Find(id: int): (r: Option<nat>)
      reads this
      ensures r.Some? ==> r.value < |rows|
    {
      FindIndex(rows, key, id)
    }

    /** `Model::create($attrs)`. */
    method Insert(attrs: Row) returns (row: Row)
      requires Valid()
      modifies this
      ensures Valid()
      ensures row == Created(attrs, fillable, key, old(nextOid))
      ensures rows == old(rows) + [row] && nextOid == old(nextOid) + 1
    {
      row := Created(attrs, fillable, key, nextOid);
      rows := rows + [row];
      nextOid := nextOid + 1;
    }

    /** `$model->update($attrs)` on the row at position `i`. */
    method Overwrite(i: nat, attrs: Row)
      requires Valid() && i < |rows|
      modifies this
      ensures Valid()
      ensures rows == old(rows)[i := Updated(old(rows)[i], attrs, fillable)]
      ensures nextOid == old(nextOid)
    {
      rows := rows[i := Updated(rows[i], attrs, fillable)];
    }

    /** `$model->delete()` on the row at position `i`. */
    method Remove(i: nat)
      requires Valid() && i < |rows|
      modifies this
      ensures Valid()
      ensures rows == old(rows)[..i] + old(rows)[i + 1..]
      ensures nextOid == old(nextOid)
    {
      rows := rows[..i] + rows[i + 1..];
    }
  }

  /** `show`: `findOrFail` answers 200 with the row; the catch answers 404. */
  method Show(t: Table, id: int) returns (reply: Reply<Row>)
    ensures t.Find(id).Some? ==> reply == Reply(OK, true, Some(t.rows[t.Find(id).value]))
    ensures t.Find(id).None? ==> reply == Reply(NOT_FOUND, false, None)
  {
    var i := t.Find(id);
    if i.Some? {
      reply := Reply(OK, true, Some(t.rows[i.value]));
    } else {
      reply := Reply(NOT_FOUND, false, None);
    }
  }

  /** `store`: validate, then create from the validated data overlaid with the
    * server-stamped fields. A failed validation is caught and answered 500. */
  method Store(t: Table, rules: seq<Rule>, input: Request, stamp: Row) returns (reply: Reply<Row>)
    requires t.Valid()
    modifies t
    ensures t.Valid()
    ensures Validate(rules, input).None? ==>
      reply == Reply(SERVER_ERROR, false, None) && t.rows == old(t.rows) && t.nextOid == old(t.nextOid)
    ensures Validate(rules, input).Some? ==>
      var row := Created(Validate(rules, input).value + stamp, t.fillable, t.key, old(t.nextOid));
      reply == Reply(CREATED, true, Some(row)) && t.rows == old(t.rows) + [row]
  {
    var validated := Validate(rules, input);
    if validated.None? {
      reply := Reply(SERVER_ERROR, false, None);
    } else {
      var row := t.Insert(validated.value + stamp);
      reply := Reply(CREATED, true, Some(row));
    }
  }

  /** `update`: `findOrFail`, validate, then overwrite the supplied fillable
    * attributes. A missing row and a failed validation are both caught and
    * answered 500; nothing is written then. */
  method Update(t: Table, id: int, rules: seq<Rule>, input: Request) returns (reply: Reply<Row>)
    requires t.Valid()
    modifies t
    ensures t.Valid() && t.nextOid == old(t.nextOid)
    ensures old(t.Find(id)).None? || Validate(rules, input).None? ==>
      reply == Reply(SERVER_ERROR, false, None) && t.rows == old(t.rows)
    ensures old(t.Find(id)).Some? && Validate(rules, input).Some? ==>
      var i := old(t.Find(id)).value;
      var row := Updated(old(t.rows)[i], Validate(rules, input).value, t.fillable);
      reply == Reply(OK, true, Some(row)) && t.rows == old(t.rows)[i := row]
  {
    var i := t.Find(id);
    var validated := Validate(rules, input);
    if i.None? || validated.None? {
      reply := Reply(SERVER_ERROR, false, None);
    } else {
      t.Overwrite(i.value, validated.value);
      reply := Reply(OK, true, Some(t.rows[i.value]));
    }
  }

  /** `destroy`: `findOrFail` then delete; a missing row is answered 500.
    * After a successful delete no row has that key any more. */
  method Destroy(t: Table, id: int) returns (reply: Reply<Row>)
    requires t.Valid()
    modifies t
    ensures t.Valid() && t.nextOid == old(t.nextOid)
    ensures old(t.Find(id)).None? ==> reply == Reply(SERVER_ERROR, false, None) && t.rows == old(t.rows)
    ensures old(t.Find(id)).Some? ==>
      var i := old(t.Find(id)).value;
      reply == Reply(OK, true, None) && t.rows == old(t.rows)[..i] + old(t.rows)[i + 1..]
    ensures t.Find(id).None?
  {
    var i := t.Find(id);
    if i.None? {
      reply := Reply(SERVER_ERROR, false, None);
    } else {
      ghost var before := t.rows;
      var k := i.value;
      t.Remove(k);
      forall j | 0 <= j < |t.rows| ensures Get(t.rows[j], t.key) != VInt(id) {
        if j < k {
          assert t.rows[j] == before[j];
        } else {
          assert t.rows[j] == before[j + 1];
          assert before[k][t.key] != before[j + 1][t.key];
        }
      }
      reply := Reply(OK, true, None);
    }
  }
}
