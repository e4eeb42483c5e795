/**
 * The signup table as the Discord sign-up flow changes it
 * (discord/modules/raidSignup.js, createBoosterSignup,
 * createLootbuddySignup, deleteOwnSignup), and the facts about row
 * sequences those three mutations rest on.
 */
module SignupTable {
  import opened Common

  const SIGNUPED: string := "SIGNUPED"
  const LOOTBUDDY: string := "LOOTBUDDY"

  /** One row of the table, with the columns the flow writes (displayName is always null). */
  datatype Signup = Signup(
    id: nat,
    raidId: Option<NumVal>,
    userId: string,
    typ: string,
    charId: Option<NumVal>,
    saved: bool,
    note: Option<string>,
    cls: Option<string>,
    status: string)

  predicate SamePair(r: Signup, raidId: Option<NumVal>, charId: Option<NumVal>)
  {
    r.raidId == raidId && r.charId == charId
  }

  predicate Owns(r: Signup, raidId: Option<NumVal>, userId: string)
  {
    r.raidId == raidId && r.userId == userId
  }

  /** Row ids strictly increase along the table: every row has its own id. */
  predicate IdsIncreasing(rows: seq<Signup>)
  {
    forall i, j :: 0 <= i < j < |rows| ==> rows[i].id < rows[j].id
  }

  /** How many rows belong to the pair (raidId, charId). */
  function CountPair(rows: seq<Signup>, raidId: Option<NumVal>, charId: Option<NumVal>): nat
  {
    if rows == [] then 0
    else (if SamePair(rows[0], raidId, charId) then 1 else 0) + CountPair(rows[1..], raidId, charId)
  }

  /** No character is signed up twice for the same raid. */
  predicate OneRowPerChar(rows: seq<Signup>)
  {
    forall r :: r in rows && r.charId.Some? ==> CountPair(rows, r.raidId, r.charId) == 1
  }

  /** `a` is `b` with some rows deleted, the rest in their order. */
  predicate Sublist(a: seq<Signup>, b: seq<Signup>)
    decreases |b|
  {
    if a == [] then true
    else if b == [] then false
    else (a[0] == b[0] && Sublist(a[1..], b[1..])) || Sublist(a, b[1..])
  }

  // ---------------------------------------------------------------------
  // Queries and deletions, as the database performs them

  /** `signup.findFirst({ where: { raidId, charId } })`: the first row of the pair. */
  function FirstPairIndex(rows: seq<Signup>, raidId: Option<NumVal>, charId: Option<NumVal>): (r: Option<nat>)
    ensures r.Some? ==> r.value < |rows| && SamePair(rows[r.value], raidId, charId)
    ensures r.Some? ==> forall j :: 0 <= j < r.value ==> !SamePair(rows[j], raidId, charId)
    ensures r.None? ==> forall j :: 0 <= j < |rows| ==> !SamePair(rows[j], raidId, charId)
  {
    if rows == [] then None
    else if SamePair(rows[0], raidId, charId) then Some(0)
    else
      match FirstPairIndex(rows[1..], raidId, charId)
      case None => None
      case Some(i) => Some(i + 1)
  }

  /** `signup.delete({ where: { id } })` */
  function DeleteId(rows: seq<Signup>, id: nat): (out: seq<Signup>)
    ensures Sublist(out, rows)
    ensures forall x :: x in out <==> x in rows && x.id != id
  {
    if rows == [] then []
    else if rows[0].id == id then DeleteId(rows[1..], id)
    else [rows[0]] + DeleteId(rows[1..], id)
  }

  /** `signup.findMany({ where: { raidId, userId } })` */
  function Owned(rows: seq<Signup>, raidId: Option<NumVal>, userId: string): (out: seq<Signup>)
    ensures forall x :: x in out <==> x in rows && Owns(x, raidId, userId)
  {
    if rows == [] then []
    else if Owns(rows[0], raidId, userId) then [rows[0]] + Owned(rows[1..], raidId, userId)
    else Owned(rows[1..], raidId, userId)
  }

  /** The ids of the rows, in order. */
  function IdsOf(rows: seq<Signup>): (ids: seq<nat>)
    ensures |ids| == |rows| && forall i :: 0 <= i < |rows| ==> ids[i] == rows[i].id
  {
    seq(|rows|, i requires 0 <= i < |rows| => rows[i].id)
  }

  /** The rows whose id is not listed. */
  function WithoutIds(rows: seq<Signup>, ids: seq<nat>): seq<Signup>
  {
    if rows == [] then []
    else if rows[0].id in ids then WithoutIds(rows[1..], ids)
    else [rows[0]] + WithoutIds(rows[1..], ids)
  }

  // ---------------------------------------------------------------------
  // The table states each mutation leads to

  /** The table once the first row of the pair, if any, is gone. */
  function DeleteFirst(rows: seq<Signup>, raidId: Option<NumVal>, charId: Option<NumVal>): (out: seq<Signup>)
    ensures Sublist(out, rows)
  {
    if rows == [] then []
    else if SamePair(rows[0], raidId, charId) then SublistSelf(rows[1..]); rows[1..]
    else [rows[0]] + DeleteFirst(rows[1..], raidId, charId)
  }

  /** The table without any row of the user for the raid. */
  function WithoutOwn(rows: seq<Signup>, raidId: Option<NumVal>, userId: string): (out: seq<Signup>)
    ensures Sublist(out, rows)
    ensures forall x :: x in out <==> x in rows && !Owns(x, raidId, userId)
  {
    if rows == [] then []
    else if Owns(rows[0], raidId, userId) then WithoutOwn(rows[1..], raidId, userId)
    else [rows[0]] + WithoutOwn(rows[1..], raidId, userId)
  }

  // ---------------------------------------------------------------------
  // Facts about deleting rows

  lemma SublistSelf(s: seq<Signup>)
    ensures Sublist(s, s)
  {
  }

  lemma {:induction false} SublistMember(a: seq<Signup>, b: seq<Signup>, x: Signup)
    requires Sublist(a, b) && x in a
    ensures x in b
    decreases |b|
  {
    if a[0] == b[0] && Sublist(a[1..], b[1..]) {
      if x != a[0] {
        SublistMember(a[1..], b[1..], x);
      }
    } else {
      SublistMember(a, b[1..], x);
    }
  }

  lemma {:induction false} SublistCount(a: seq<Signup>, b: seq<Signup>, raidId: Option<NumVal>, charId: Option<NumVal>)
    requires Sublist(a, b)
    ensures CountPair(a, raidId, charId) <= CountPair(b, raidId, charId)
    decreases |b|
  {
    if a != [] {
      if a[0] == b[0] && Sublist(a[1..], b[1..]) {
        SublistCount(a[1..], b[1..], raidId, charId);
      } else {
        SublistCount(a, b[1..], raidId, charId);
      }
    }
  }

  lemma {:induction false} SublistIncreasing(a: seq<Signup>, b: seq<Signup>)
    requires Sublist(a, b) && IdsIncreasing(b)
    ensures IdsIncreasing(a)
    decreases |b|
  {
    if a != [] {
      assert IdsIncreasing(b[1..]);
      if a[0] == b[0] && Sublist(a[1..], b[1..]) {
        SublistIncreasing(a[1..], b[1..]);
        forall j | 0 < j < |a|
          ensures a[0].id < a[j].id
        {
          SublistMember(a[1..], b[1..], a[j]);
        }
        forall i, j | 0 <= i < j < |a|
          ensures a[i].id < a[j].id
        {
          if i > 0 {
            assert a[i] == a[1..][i - 1] && a[j] == a[1..][j - 1];
          }
        }
      } else {
        SublistIncreasing(a, b[1..]);
      }
    }
  }

  lemma {:induction false} CountMember(s: seq<Signup>, x: Signup)
    requires x in s
    ensures CountPair(s, x.raidId, x.charId) >= 1
  {
    if s[0] != x {
      CountMember(s[1..], x);
    }
  }

  lemma {:induction false} CountAppend(s: seq<Signup>, x: Signup, raidId: Option<NumVal>, charId: Option<NumVal>)
    ensures CountPair(s + [x], raidId, charId)
      == CountPair(s, raidId, charId) + (if SamePair(x, raidId, charId) then 1 else 0)
  {
    if s != [] {
      assert (s + [x])[1..] == s[1..] + [x];
      CountAppend(s[1..], x, raidId, charId);
    }
  }

  /** Deleting the first row of a pair lowers that pair's count by one and no other. */
  lemma {:induction false} DeleteFirstCount(s: seq<Signup>, p: (Option<NumVal>, Option<NumVal>), q: (Option<NumVal>, Option<NumVal>))
    ensures CountPair(DeleteFirst(s, p.0, p.1), q.0, q.1)
      == if p == q && CountPair(s, p.0, p.1) > 0 then CountPair(s, q.0, q.1) - 1 else CountPair(s, q.0, q.1)
  {
    if s != [] && !SamePair(s[0], p.0, p.1) {
      DeleteFirstCount(s[1..], p, q);
    }
  }

  /** With increasing ids, deleting the found row by its id deletes the first row of the pair. */
  lemma {:induction false} DeleteFoundRow(rows: seq<Signup>, raidId: Option<NumVal>, charId: Option<NumVal>)
    requires IdsIncreasing(rows)
    ensures match FirstPairIndex(rows, raidId, charId)
      case None => DeleteFirst(rows, raidId, charId) == rows
      case Some(i) => DeleteId(rows, rows[i].id) == DeleteFirst(rows, raidId, charId)
  {
    if rows != [] {
      assert IdsIncreasing(rows[1..]);
      DeleteFoundRow(rows[1..], raidId, charId);
      if SamePair(rows[0], raidId, charId) {
        DeleteAbsentId(rows[1..], rows[0].id);
      } else if FirstPairIndex(rows, raidId, charId).Some? {
        var i := FirstPairIndex(rows, raidId, charId).value;
        assert rows[1..][i - 1] == rows[i];
      }
    }
  }

  lemma {:induction false} DeleteAbsentId(rows: seq<Signup>, id: nat)
    requires forall j :: 0 <= j < |rows| ==> rows[j].id > id
    ensures DeleteId(rows, id) == rows
  {
    if rows != [] {
      DeleteAbsentId(rows[1..], id);
    }
  }

  lemma {:induction false} WithoutNoIds(rows: seq<Signup>)
    ensures WithoutIds(rows, []) == rows
  {
    if rows != [] {
      WithoutNoIds(rows[1..]);
    }
  }

  lemma {:induction false} DeleteIdExtends(rows: seq<Signup>, ids: seq<nat>, id: nat)
    ensures DeleteId(WithoutIds(rows, ids), id) == WithoutIds(rows, ids + [id])
  {
    if rows != [] {
      DeleteIdExtends(rows[1..], ids, id);
    }
  }

  lemma {:induction false} WithoutIdsIsWithoutOwn(rows: seq<Signup>, ids: seq<nat>, raidId: Option<NumVal>, userId: string)
    requires forall j :: 0 <= j < |rows| ==> (rows[j].id in ids <==> Owns(rows[j], raidId, userId))
    ensures WithoutIds(rows, ids) == WithoutOwn(rows, raidId, userId)
  {
    if rows != [] {
      WithoutIdsIsWithoutOwn(rows[1..], ids, raidId, userId);
    }
  }

  /** After a booster signup the pair has exactly one row when it had at most one. */
  lemma BoosterSignupLeavesOne(rows: seq<Signup>, row: Signup)
    requires CountPair(rows, row.raidId, row.charId) <= 1
    ensures CountPair(DeleteFirst(rows, row.raidId, row.charId) + [row], row.raidId, row.charId) == 1
  {
    var p := (row.raidId, row.charId);
    CountAppend(DeleteFirst(rows, p.0, p.1), row, p.0, p.1);
    DeleteFirstCount(rows, p, p);
  }

  /** A booster signup leaves the count of every other pair as it was. */
  lemma BoosterSignupKeepsOthers(rows: seq<Signup>, row: Signup, q: (Option<NumVal>, Option<NumVal>))
    requires q != (row.raidId, row.charId)
    ensures CountPair(DeleteFirst(rows, row.raidId, row.charId) + [row], q.0, q.1) == CountPair(rows, q.0, q.1)
  {
    var p := (row.raidId, row.charId);
    CountAppend(DeleteFirst(rows, p.0, p.1), row, q.0, q.1);
    DeleteFirstCount(rows, p, q);
  }

  /** The row a booster signup creates, with the id the table hands out next. */
  function BoosterRow(id: nat, raidId: Option<NumVal>, userId: string, charId: Option<NumVal>,
    role: string, saved: bool, note: string, charClass: Option<string>): (r: Signup)
    ensures r.typ == role && r.status == SIGNUPED && SamePair(r, raidId, charId)
    ensures r.note.Some? <==> note != ""
    ensures r.cls.Some? <==> NonEmpty(charClass)
  {
    Signup(id, raidId, userId, role, charId, saved, OrStr(Some(note), None), OrStr(charClass, None), SIGNUPED)
  }

  /** The row a lootbuddy signup creates: no character, never saved. */
  function LootbuddyRow(id: nat, raidId: Option<NumVal>, userId: string, pickedClass: Option<string>, note: string): (r: Signup)
    ensures r.typ == LOOTBUDDY && r.status == SIGNUPED && r.charId.None? && !r.saved
    ensures r.note.Some? <==> note != ""
    ensures r.cls.Some? <==> NonEmpty(pickedClass)
  {
    Signup(id, raidId, userId, LOOTBUDDY, None, false, OrStr(Some(note), None), OrStr(pickedClass, None), SIGNUPED)
  }

  /** The table invariant, for ids below `bound`. */
  ghost predicate WellFormed(rows: seq<Signup>, bound: nat)
  {
    IdsIncreasing(rows)
    && (forall i :: 0 <= i < |rows| ==> rows[i].id < bound)
    && OneRowPerChar(rows)
  }

  /** A booster signup keeps the invariant, with the bound moved past the new row. */
  lemma BoosterKeepsWellFormed(rows: seq<Signup>, row: Signup)
    requires WellFormed(rows, row.id)
    ensures WellFormed(DeleteFirst(rows, row.raidId, row.charId) + [row], row.id + 1)
  {
    var deleted := DeleteFirst(rows, row.raidId, row.charId);
    var after := deleted + [row];
    SublistIncreasing(deleted, rows);
    forall i | 0 <= i < |deleted|
      ensures deleted[i].id < row.id
    {
      SublistMember(deleted, rows, deleted[i]);
    }
    forall r | r in after && r.charId.Some?
      ensures CountPair(after, r.raidId, r.charId) == 1
    {
      if (r.raidId, r.charId) == (row.raidId, row.charId) {
        if CountPair(rows, row.raidId, row.charId) > 0 {
          var x := PairMember(rows, row.raidId, row.charId);
        }
        BoosterSignupLeavesOne(rows, row);
      } else {
        BoosterSignupKeepsOthers(rows, row, (r.raidId, r.charId));
        assert r in deleted;
        SublistMember(deleted, rows, r);
      }
    }
  }

  /** A lootbuddy signup keeps the invariant, with the bound moved past the new row. */
  lemma AppendLootbuddyKeepsWellFormed(rows: seq<Signup>, row: Signup)
    requires WellFormed(rows, row.id) && row.charId.None?
    ensures WellFormed(rows + [row], row.id + 1)
  {
    forall r | r in rows + [row] && r.charId.Some?
      ensures CountPair(rows + [row], r.raidId, r.charId) == 1
    {
      CountAppend(rows, row, r.raidId, r.charId);
    }
  }

  /** A pair with rows has a row. */
  lemma {:induction false} PairMember(rows: seq<Signup>, raidId: Option<NumVal>, charId: Option<NumVal>) returns (x: Signup)
    requires CountPair(rows, raidId, charId) > 0
    ensures x in rows && SamePair(x, raidId, charId)
  {
    if SamePair(rows[0], raidId, charId) {
      x := rows[0];
    } else {
      x := PairMember(rows[1..], raidId, charId);
    }
  }

  // ---------------------------------------------------------------------
  // The table

  class Table {
    var rows: seq<Signup>
    var nextId: nat

    ghost predicate Valid()
      reads this
    {
      WellFormed(rows, nextId)
    }

    constructor ()
      ensures Valid() && rows == [] && nextId == 1
    {
      rows := [];
      nextId := 1;
    }

    /**
     * `createBoosterSignup`: delete the first row of (raidId, charId) if
     * there is one, then append the new row. `charClass` is the class of
     * the character with id `charId`, if the database has one.
     */
    method CreateBoosterSignup(raidId: Option<NumVal>, userId: string, charId: Option<NumVal>,
      role: string, saved: bool, note: string, charClass: Option<string>)
      modifies this
      requires Valid()
      ensures Valid()
      ensures rows == DeleteFirst(old(rows), raidId, charId)
        + [BoosterRow(old(nextId), raidId, userId, charId, role, saved, note, charClass)]
      ensures nextId == old(nextId) + 1
    {
      var existing := FirstPairIndex(rows, raidId, charId);
      DeleteFoundRow(rows, raidId, charId);
      if existing.Some? {
        rows := DeleteId(rows, rows[existing.value].id);
      }
      var row := BoosterRow(nextId, raidId, userId, charId, role, saved, note, charClass);
      BoosterKeepsWellFormed(old(rows), row);
      rows := rows + [row];
      nextId := nextId + 1;
    }

    /** `createLootbuddySignup`: always append; no de-duplication. */
    method CreateLootbuddySignup(raidId: Option<NumVal>, userId: string, pickedClass: Option<string>, note: string)
      modifies this
      requires Valid()
      ensures Valid()
      ensures rows == old(rows) + [LootbuddyRow(old(nextId), raidId, userId, pickedClass, note)]
      ensures nextId == old(nextId) + 1
    {
      var row := LootbuddyRow(nextId, raidId, userId, pickedClass, note);
      AppendLootbuddyKeepsWellFormed(rows, row);
      rows := rows + [row];
      nextId := nextId + 1;
    }

    /** `deleteOwnSignup`: find the user's rows for the raid, then delete them one by one. */
    method DeleteOwnSignup(raidId: Option<NumVal>, userId: string)
      modifies this
      requires Valid()
      ensures Valid()
      ensures rows == WithoutOwn(old(rows), raidId, userId)
      ensures nextId == old(nextId)
    {
      var found := Owned(rows, raidId, userId);
      var k := 0;
      WithoutNoIds(rows);
      while k < |found|
        invariant 0 <= k <= |found|
        invariant rows == WithoutIds(old(rows), IdsOf(found[..k]))
        invariant nextId == old(nextId)
      {
        DeleteNextFound(old(rows), found, k);
        rows := DeleteId(rows, found[k].id);
        k := k + 1;
      }
      DeletedAllFound(old(rows), nextId, raidId, userId);
    }
  }

  /** One more pass of the deletion loop deletes one more found id. */
  lemma DeleteNextFound(rows: seq<Signup>, found: seq<Signup>, k: nat)
    requires k < |found|
    ensures DeleteId(WithoutIds(rows, IdsOf(found[..k])), found[k].id) == WithoutIds(rows, IdsOf(found[..k + 1]))
  {
    DeleteIdExtends(rows, IdsOf(found[..k]), found[k].id);
    assert IdsOf(found[..k + 1]) == IdsOf(found[..k]) + [found[k].id];
  }

  /** Once every found id is deleted, exactly the user's rows for the raid are gone. */
  lemma DeletedAllFound(rows: seq<Signup>, bound: nat, raidId: Option<NumVal>, userId: string)
    requires WellFormed(rows, bound)
    ensures var found := Owned(rows, raidId, userId);
      WithoutIds(rows, IdsOf(found[..|found|])) == WithoutOwn(rows, raidId, userId)
      && WellFormed(WithoutOwn(rows, raidId, userId), bound)
  {
    var found := Owned(rows, raidId, userId);
    assert found[..|found|] == found;
    IdsOfFound(rows, found, raidId, userId);
    WithoutIdsIsWithoutOwn(rows, IdsOf(found), raidId, userId);
    SublistKeepsWellFormed(WithoutOwn(rows, raidId, userId), rows, bound);
  }

  /** Deleting rows keeps the invariant. */
  lemma SublistKeepsWellFormed(out: seq<Signup>, rows: seq<Signup>, bound: nat)
    requires WellFormed(rows, bound) && Sublist(out, rows)
    ensures WellFormed(out, bound)
  {
    SublistIncreasing(out, rows);
    forall r | r in out && r.charId.Some?
      ensures CountPair(out, r.raidId, r.charId) == 1
    {
      SublistCount(out, rows, r.raidId, r.charId);
      CountMember(out, r);
      SublistMember(out, rows, r);
    }
    forall i | 0 <= i < |out|
      ensures out[i].id < bound
    {
      SublistMember(out, rows, out[i]);
    }
  }

  /** The ids of the found rows are exactly the ids of the user's rows for the raid. */
  lemma IdsOfFound(rows: seq<Signup>, found: seq<Signup>, raidId: Option<NumVal>, userId: string)
    requires IdsIncreasing(rows)
    requires found == Owned(rows, raidId, userId)
    ensures forall j :: 0 <= j < |rows| ==> (rows[j].id in IdsOf(found) <==> Owns(rows[j], raidId, userId))
  {
    var ids := IdsOf(found);
    forall j | 0 <= j < |rows|
      ensures rows[j].id in ids <==> Owns(rows[j], raidId, userId)
    {
      var r := rows[j];
      if r.id in ids {
        var m :| 0 <= m < |ids| && ids[m] == r.id;
        assert found[m] in rows;
        var i :| 0 <= i < |rows| && rows[i] == found[m];
        assert i == j;
      }
    }
  }
}
