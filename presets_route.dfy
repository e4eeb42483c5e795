/**
 * The preset router (routes/presets.js): a raid lead may create, update and
 * delete presets, each a name and four slot counts. The database is
 * abstracted: a handler's outcome is either a refusal or the write it asks
 * the database to make, and `Apply` is what an update does to a stored row.
 */
module PresetsRoute {
  import opened Common
  import Session

  datatype Guard = Unauthorized | Forbidden | Next

  /** `requireRaidLead`: 401 without a session, 403 unless the session's isRaidlead is truthy. */
  function RequireRaidLead(u: Option<Session.User>): (g: Guard)
    ensures g == Unauthorized <==> u.None?
    ensures g == Next <==> u.Some? && Truthy(u.value.isRaidlead)
  {
    if u.None? then Unauthorized
    else if !Truthy(u.value.isRaidlead) then Forbidden
    else Next
  }

  /** Only the raid-lead flag opens the guard: an owner or admin without it is turned away. */
  lemma OnlyLeadFlagCounts(u: Session.User)
    requires Truthy(u.isOwner) && Truthy(u.isAdmin) && !Truthy(u.isRaidlead)
    ensures RequireRaidLead(Some(u)) == Forbidden
  {
  }

  /** A request body's fields, as JSON values (`undefined` when absent). */
  datatype Body = Body(name: Js, tanks: Js, healers: Js, dps: Js, lootbuddies: Js)

  /** The four counts as `+value` gives them. */
  datatype Counts = Counts(tanks: NumVal, healers: NumVal, dps: NumVal, lootbuddies: NumVal)

  /** A stored preset. */
  datatype Preset = Preset(id: int, name: Js, tanks: int, healers: int, dps: int, lootbuddies: int)

  /** The fields an update writes; an absent one is left alone. */
  datatype Patch = Patch(name: Option<Js>, tanks: Option<int>, healers: Option<int>, dps: Option<int>, lootbuddies: Option<int>)

  /** What a handler answers: a refusal, or the write it hands to the database. */
  datatype Reply =
    | Refused(status: nat, error: string)
    | Create(name: Js, counts: Counts)
    | Update(id: int, patch: Patch)
    | Delete(id: int)

  function GuardReply(g: Guard): (r: Reply)
    requires g != Next
    ensures r.Refused? && (g == Unauthorized ==> r == Refused(401, "unauthorized")) && (g == Forbidden ==> r == Refused(403, "forbidden"))
  {
    if g == Unauthorized then Refused(401, "unauthorized") else Refused(403, "forbidden")
  }

  /** A destructuring default `= 0` applies to `undefined` only. */
  function Default0(v: Js): (r: Js)
    ensures v.Undefined? ==> r == Num(0)
    ensures !v.Undefined? ==> r == v
  {
    if v.Undefined? then Num(0) else v
  }

  /** `POST /`: the name must be truthy; a missing count is 0. */
  function PostPreset(u: Option<Session.User>, b: Body): (r: Reply)
    ensures RequireRaidLead(u) != Next ==> r == GuardReply(RequireRaidLead(u))
    ensures RequireRaidLead(u) == Next && !Truthy(b.name) ==> r == Refused(400, "missing_name")
    ensures r.Create? <==> RequireRaidLead(u) == Next && Truthy(b.name)
    ensures r.Create? ==> r.name == b.name
    ensures r.Create? ==> r.counts == Counts(JsNumber(Default0(b.tanks)), JsNumber(Default0(b.healers)),
                                             JsNumber(Default0(b.dps)), JsNumber(Default0(b.lootbuddies)))
  {
    var g := RequireRaidLead(u);
    if g != Next then GuardReply(g)
    else if !Truthy(b.name) then Refused(400, "missing_name")
    else Create(b.name, Counts(JsNumber(Default0(b.tanks)), JsNumber(Default0(b.healers)),
                               JsNumber(Default0(b.dps)), JsNumber(Default0(b.lootbuddies))))
  }

  /** Missing counts become 0, and so does `null`, since `+null` is 0. */
  lemma MissingCountsAreZero(u: Session.User, name: string)
    requires Truthy(u.isRaidlead) && name != ""
    ensures PostPreset(Some(u), Body(Str(name), Undefined, Null, Undefined, Null))
         == Create(Str(name), Counts(Finite(0), Finite(0), Finite(0), Finite(0)))
  {
  }

  /** `Number.isFinite(+v) ? v : absent` */
  function FiniteOpt(v: Js): (r: Option<int>)
    ensures r.Some? <==> JsNumber(v).Finite?
    ensures r.Some? ==> r.value == JsNumber(v).v
    ensures v.Undefined? ==> r.None?
  {
    var n := JsNumber(v);
    if n.Finite? then Some(n.v) else None
  }

  /** The update `PUT /:id` builds from a body. */
  function PatchOf(b: Body): (p: Patch)
    ensures p.name.Some? <==> !b.name.Undefined?
    ensures p.name.Some? ==> p.name.value == b.name
    ensures p.tanks == FiniteOpt(b.tanks) && p.healers == FiniteOpt(b.healers)
    ensures p.dps == FiniteOpt(b.dps) && p.lootbuddies == FiniteOpt(b.lootbuddies)
  {
    Patch(if b.name.Undefined? then None else Some(b.name),
          FiniteOpt(b.tanks), FiniteOpt(b.healers), FiniteOpt(b.dps), FiniteOpt(b.lootbuddies))
  }

  /** `PUT /:id`: the guard, then the id check, before any database access. */
  function PutPreset(u: Option<Session.User>, idParam: string, b: Body): (r: Reply)
    ensures RequireRaidLead(u) != Next ==> r == GuardReply(RequireRaidLead(u))
    ensures RequireRaidLead(u) == Next && NumberOf(idParam).NotANumber? ==> r == Refused(400, "bad_id")
    ensures r.Update? <==> RequireRaidLead(u) == Next && NumberOf(idParam).Finite?
    ensures r.Update? ==> r.id == NumberOf(idParam).v && r.patch == PatchOf(b)
  {
    var g := RequireRaidLead(u);
    if g != Next then GuardReply(g)
    else
      var id := NumberOf(idParam);
      if !id.Finite? then Refused(400, "bad_id")
      else Update(id.v, PatchOf(b))
  }

  /** `DELETE /:id`: the guard, then the id check. */
  function DeletePreset(u: Option<Session.User>, idParam: string): (r: Reply)
    ensures RequireRaidLead(u) != Next ==> r == GuardReply(RequireRaidLead(u))
    ensures RequireRaidLead(u) == Next && NumberOf(idParam).NotANumber? ==> r == Refused(400, "bad_id")
    ensures r.Delete? <==> RequireRaidLead(u) == Next && NumberOf(idParam).Finite?
    ensures r.Delete? ==> r.id == NumberOf(idParam).v
  {
    var g := RequireRaidLead(u);
    if g != Next then GuardReply(g)
    else
      var id := NumberOf(idParam);
      if !id.Finite? then Refused(400, "bad_id")
      else Delete(id.v)
  }

  function Keep<T>(v: Option<T>, current: T): (r: T)
    ensures v.Some? ==> r == v.value
    ensures v.None? ==> r == current
  {
    if v.Some? then v.value else current
  }

  /** The database's update: the written fields change, the others and the id stay. */
  function Apply(p: Preset, patch: Patch): (r: Preset)
    ensures r.id == p.id
    ensures r.name == Keep(patch.name, p.name) && r.tanks == Keep(patch.tanks, p.tanks)
    ensures r.healers == Keep(patch.healers, p.healers) && r.dps == Keep(patch.dps, p.dps)
    ensures r.lootbuddies == Keep(patch.lootbuddies, p.lootbuddies)
  {
    Preset(p.id, Keep(patch.name, p.name), Keep(patch.tanks, p.tanks), Keep(patch.healers, p.healers),
           Keep(patch.dps, p.dps), Keep(patch.lootbuddies, p.lootbuddies))
  }

  /** An update whose body carries nothing usable leaves the preset as it was. */
  lemma EmptyBodyChangesNothing(p: Preset, tanks: Js, healers: Js, dps: Js, lootbuddies: Js)
    requires JsNumber(tanks).NotANumber? && JsNumber(healers).NotANumber?
    requires JsNumber(dps).NotANumber? && JsNumber(lootbuddies).NotANumber?
    ensures Apply(p, PatchOf(Body(Undefined, tanks, healers, dps, lootbuddies))) == p
  {
  }

  /** A partial update changes exactly the fields it names with usable values. */
  lemma UpdateIsPartial(p: Preset, b: Body)
    ensures var r := Apply(p, PatchOf(b));
      && (b.name.Undefined? ==> r.name == p.name)
      && (!b.name.Undefined? ==> r.name == b.name)
      && (JsNumber(b.tanks).Finite? ==> r.tanks == JsNumber(b.tanks).v)
      && (JsNumber(b.tanks).NotANumber? ==> r.tanks == p.tanks)
      && (JsNumber(b.healers).NotANumber? ==> r.healers == p.healers)
      && (JsNumber(b.dps).NotANumber? ==> r.dps == p.dps)
      && (JsNumber(b.lootbuddies).NotANumber? ==> r.lootbuddies == p.lootbuddies)
  {
  }
}
