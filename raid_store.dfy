/**
 * The JSON fallback store both raid routers use when no database model is
 * available: the file dev-raids.json holds one array of raid rows, which a
 * handler reads whole, changes (push, assignment at an index, splice) and
 * writes back whole. A row keeps whatever keys it was written with; the
 * model lists the keys the routers read, legacy aliases included.
 */
module RaidStore {
  import opened Common

  /** A stored raid row; `objectId` is the legacy `_id` key. */
  datatype Row = Row(
    id: Js, raidId: Js, objectId: Js,
    title: Js, name: Js, difficulty: Js, diff: Js, lootType: Js, loot: Js,
    date: Js, when: Js, datetime: Js,
    lead: Js, leadId: Js, leadName: Js, presetId: Js, preset: Js,
    bosses: Js, channelId: Js, messageId: Js)

  /** A row with no keys at all. */
  const Blank := Row(
    Undefined, Undefined, Undefined,
    Undefined, Undefined, Undefined, Undefined, Undefined, Undefined,
    Undefined, Undefined, Undefined,
    Undefined, Undefined, Undefined, Undefined, Undefined,
    Undefined, Undefined, Undefined)

  /** `a === b` between parsed JSON values: never for NaN or two distinct objects. */
  predicate StrictEq(a: Js, b: Js)
  {
    a == b && !a.NaN? && !a.Obj?
  }

  /** `list.findIndex((x) => x.id === id)` */
  function IndexById(rows: seq<Row>, id: Js): (r: Option<nat>)
    ensures r.Some? ==> r.value < |rows| && StrictEq(rows[r.value].id, id)
    ensures r.Some? ==> forall j :: 0 <= j < r.value ==> !StrictEq(rows[j].id, id)
    ensures r.None? ==> forall j :: 0 <= j < |rows| ==> !StrictEq(rows[j].id, id)
  {
    if rows == [] then None
    else if StrictEq(rows[0].id, id) then Some(0)
    else match IndexById(rows[1..], id)
      case None => None
      case Some(k) => Some(k + 1)
  }

  /** A row appended with an id no earlier row has is found at the end. */
  lemma IndexOfAppended(rows: seq<Row>, row: Row, uuid: string)
    requires forall j :: 0 <= j < |rows| ==> rows[j].id != Str(uuid)
    requires row.id == Str(uuid)
    ensures IndexById(rows + [row], Str(uuid)) == Some(|rows|)
  {
    var all := rows + [row];
    assert StrictEq(all[|rows|].id, Str(uuid));
    forall j | 0 <= j < |rows|
      ensures !StrictEq(all[j].id, Str(uuid))
    {
      assert all[j] == rows[j];
    }
  }

  /** `list.findIndex(x => String(x.id) === String(param))` */
  function IndexByText(rows: seq<Row>, param: string): (r: Option<nat>)
    ensures r.Some? ==> r.value < |rows| && JsString(rows[r.value].id) == param
    ensures r.Some? ==> forall j :: 0 <= j < r.value ==> JsString(rows[j].id) != param
    ensures r.None? ==> forall j :: 0 <= j < |rows| ==> JsString(rows[j].id) != param
  {
    if rows == [] then None
    else if JsString(rows[0].id) == param then Some(0)
    else match IndexByText(rows[1..], param)
      case None => None
      case Some(k) => Some(k + 1)
  }

  /** The contents of dev-raids.json. */
  class JsonRaids {
    var rows: seq<Row>

    /** A missing or unreadable file reads as the empty list. */
    constructor ()
      ensures rows == []
    {
      rows := [];
    }

    /** `list.push(row); jsonWrite(list)` */
    method Push(row: Row)
      modifies this
      ensures rows == old(rows) + [row]
    {
      rows := rows + [row];
    }

    /** `list[i] = row; jsonWrite(list)` */
    method Put(i: nat, row: Row)
      requires i < |rows|
      modifies this
      ensures rows == old(rows)[i := row]
    {
      rows := rows[i := row];
    }

    /** `const [removed] = list.splice(i, 1); jsonWrite(list)` */
    method Splice(i: nat) returns (removed: Row)
      requires i < |rows|
      modifies this
      ensures removed == old(rows)[i]
      ensures rows == old(rows)[..i] + old(rows)[i + 1..]
      ensures multiset(rows) + multiset{removed} == multiset(old(rows))
    {
      removed := rows[i];
      assert rows == rows[..i] + [removed] + rows[i + 1..];
      rows := rows[..i] + rows[i + 1..];
    }
  }
}
