/**
 * The HTTP signup routes (routes/signups.js): the order of the checks a
 * booster or lootbuddy signup passes, and the row each accepted request
 * appends to the signup table.
 */
module SignupsRoute {
  import opened Common
  import Wow

  datatype User = User(id: string)

  /** A booster character; the class may sit in any of three columns. */
  datatype CharRec = CharRec(id: int, className: Option<string>, cls: Option<string>, wowClass: Option<string>)

  /** The request body fields, as JavaScript values. */
  datatype BoosterBody = BoosterBody(raidId: Js, charId: Js, role: Js, saved: Js, note: Js)
  datatype LootBody = LootBody(raidId: Js, className: Js, note: Js)

  /** A row as these routes write it. */
  datatype Entry = Entry(
    id: nat, raidId: int, userId: string, charId: Option<int>, asRole: Js,
    isSaved: bool, note: Js, kind: string, lbClass: Js)

  datatype Reply =
    | Unauthorized
    | MissingFields
    | RaidNotFound
    | CharNotFound
    | RoleNotAllowed(className: Option<string>, allowed: seq<string>)
    | Accepted

  function Status(r: Reply): nat
  {
    match r
    case Unauthorized => 401
    case MissingFields => 400
    case RaidNotFound => 404
    case CharNotFound => 404
    case RoleNotAllowed(_, _) => 400
    case Accepted => 200
  }

  /** `findUnique({ where: { id: Number(v) } })` over the existing ids; NaN finds nothing. */
  function FindId(ids: set<int>, v: Js): (r: Option<int>)
    ensures r.Some? ==> r.value in ids && JsNumber(v) == Finite(r.value)
  {
    match JsNumber(v)
    case NotANumber => None
    case Finite(n) => if n in ids then Some(n) else None
  }

  function FindChar(chars: map<int, CharRec>, v: Js): (r: Option<CharRec>)
    ensures r.Some? ==> JsNumber(v).Finite? && JsNumber(v).v in chars && r.value == chars[JsNumber(v).v]
  {
    match JsNumber(v)
    case NotANumber => None
    case Finite(n) => if n in chars then Some(chars[n]) else None
  }

  /** `char.className || char.class || char.wowClass` */
  function CharClass(c: CharRec): Option<string>
  {
    OrStr(OrStr(c.className, c.cls), c.wowClass)
  }

  /** `arr.includes(v)` on a list of strings. */
  predicate Includes(arr: seq<string>, v: Js)
  {
    v.Str? && v.s in arr
  }

  /** `POST /signups/booster` up to the insert: the first failing check, or acceptance. */
  function BoosterDecision(user: Option<User>, body: BoosterBody, raids: set<int>, chars: map<int, CharRec>): (r: Reply)
    ensures r.Unauthorized? <==> user.None?
    ensures r.MissingFields? <==> user.Some? && !(Truthy(body.raidId) && Truthy(body.charId) && Truthy(body.role))
    ensures r.RaidNotFound? <==>
      user.Some? && Truthy(body.raidId) && Truthy(body.charId) && Truthy(body.role) && FindId(raids, body.raidId).None?
    ensures r.CharNotFound? <==>
      user.Some? && Truthy(body.raidId) && Truthy(body.charId) && Truthy(body.role)
      && FindId(raids, body.raidId).Some? && FindChar(chars, body.charId).None?
    ensures r.Accepted? || r.RoleNotAllowed? ==>
      user.Some? && FindId(raids, body.raidId).Some? && FindChar(chars, body.charId).Some?
      && (Includes(Wow.AllowedRolesForClass(CharClass(FindChar(chars, body.charId).value)), body.role) <==> r.Accepted?)
    ensures r.RoleNotAllowed? ==>
      r.className == CharClass(FindChar(chars, body.charId).value) && r.allowed == Wow.AllowedRolesForClass(r.className)
  {
    if user.None? then Unauthorized
    else if !Truthy(body.raidId) || !Truthy(body.charId) || !Truthy(body.role) then MissingFields
    else if FindId(raids, body.raidId).None? then RaidNotFound
    else
      match FindChar(chars, body.charId)
      case None => CharNotFound
      case Some(c) =>
        var allowed := Wow.AllowedRolesForClass(CharClass(c));
        if !Includes(allowed, body.role) then RoleNotAllowed(CharClass(c), allowed)
        else Accepted
  }

  /** `POST /signups/lootbuddy` up to the insert: no role check. */
  function LootDecision(user: Option<User>, body: LootBody, raids: set<int>): (r: Reply)
    ensures r.Unauthorized? <==> user.None?
    ensures r.MissingFields? <==> user.Some? && !(Truthy(body.raidId) && Truthy(body.className))
    ensures r.RaidNotFound? <==> user.Some? && Truthy(body.raidId) && Truthy(body.className) && FindId(raids, body.raidId).None?
    ensures r.Accepted? <==> user.Some? && Truthy(body.raidId) && Truthy(body.className) && FindId(raids, body.raidId).Some?
    ensures !r.RoleNotAllowed? && !r.CharNotFound?
  {
    if user.None? then Unauthorized
    else if !Truthy(body.raidId) || !Truthy(body.className) then MissingFields
    else if FindId(raids, body.raidId).None? then RaidNotFound
    else Accepted
  }

  /** A role the route accepts is one the class may fill, as `isRoleAllowedForClass` says. */
  lemma AcceptedRoleIsAllowed(user: Option<User>, body: BoosterBody, raids: set<int>, chars: map<int, CharRec>)
    requires BoosterDecision(user, body, raids, chars).Accepted?
    ensures body.role.Str?
    ensures Wow.IsRoleAllowedForClass(CharClass(FindChar(chars, body.charId).value), body.role.s)
    ensures body.role.s in {Wow.TANK, Wow.HEALER, Wow.DPS}
  {
  }

  /** DPS passes the role check for every class, known or not. */
  lemma DpsAlwaysPassesRoleCheck(user: Option<User>, body: BoosterBody, raids: set<int>, chars: map<int, CharRec>)
    requires body.role == Str(Wow.DPS)
    ensures !BoosterDecision(user, body, raids, chars).RoleNotAllowed?
  {
  }

  /** The signup rows these routes append to. */
  class Ledger {
    var entries: seq<Entry>
    var nextId: nat

    constructor ()
      ensures entries == [] && nextId == 1
    {
      entries := [];
      nextId := 1;
    }

    /** `POST /signups/booster`: every accepted request appends a row; there is no de-duplication. */
    method PostBooster(user: Option<User>, body: BoosterBody, raids: set<int>, chars: map<int, CharRec>)
      returns (r: Reply, entry: Option<Entry>)
      modifies this
      ensures r == BoosterDecision(user, body, raids, chars)
      ensures r.Accepted? ==>
        && entry == Some(Entry(old(nextId), FindId(raids, body.raidId).value, user.value.id,
             Some(FindChar(chars, body.charId).value.id), body.role, Truthy(body.saved),
             Or(body.note, Null), "BOOSTER", Undefined))
        && entries == old(entries) + [entry.value]
        && nextId == old(nextId) + 1
      ensures !r.Accepted? ==> entry.None? && entries == old(entries) && nextId == old(nextId)
    {
      r := BoosterDecision(user, body, raids, chars);
      if r.Accepted? {
        var raidId := FindId(raids, body.raidId).value;
        var c := FindChar(chars, body.charId).value;
        var e := Entry(nextId, raidId, user.value.id, Some(c.id), body.role, Truthy(body.saved),
          Or(body.note, Null), "BOOSTER", Undefined);
        entries := entries + [e];
        nextId := nextId + 1;
        entry := Some(e);
      } else {
        entry := None;
      }
    }

    /** `POST /signups/lootbuddy`: every accepted request appends a LOOTBUDDY row. */
    method PostLootbuddy(user: Option<User>, body: LootBody, raids: set<int>)
      returns (r: Reply, entry: Option<Entry>)
      modifies this
      ensures r == LootDecision(user, body, raids)
      ensures r.Accepted? ==>
        && entry == Some(Entry(old(nextId), FindId(raids, body.raidId).value, user.value.id, None,
             Str("LOOTBUDDY"), false, Or(body.note, Null), "LOOTBUDDY", body.className))
        && entries == old(entries) + [entry.value]
        && nextId == old(nextId) + 1
      ensures !r.Accepted? ==> entry.None? && entries == old(entries) && nextId == old(nextId)
    {
      r := LootDecision(user, body, raids);
      if r.Accepted? {
        var e := Entry(nextId, FindId(raids, body.raidId).value, user.value.id, None,
          Str("LOOTBUDDY"), false, Or(body.note, Null), "LOOTBUDDY", body.className);
        entries := entries + [e];
        nextId := nextId + 1;
        entry := Some(e);
      } else {
        entry := None;
      }
    }
  }
}
