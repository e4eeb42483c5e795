/**
 * The preset page (pages/Presets.jsx): the count clamp every submitted
 * count goes through, the create form's blank-name check, and the bodies
 * the create and edit forms send to the preset router.
 */
module PresetsPage {
  import opened Common
  import Session
  import PresetsRoute

  /** What `Number(v)` yields for a form field: a finite number, NaN or an infinity. */
  datatype Number = Fin(x: real) | NaN | PosInf | NegInf

  /** `clampInt(v, min, max)`: floor, then clamp; anything non-finite gives `min`. */
  function ClampInt(v: Number, min: int, max: int): (r: int)
    ensures !v.Fin? ==> r == min
    ensures min <= r
    ensures min <= max ==> r <= max
    ensures v.Fin? && min <= v.x.Floor <= max ==> r == v.x.Floor
    ensures v.Fin? && min <= max && v.x.Floor < min ==> r == min
    ensures v.Fin? && min <= max && max < v.x.Floor ==> r == max
  {
    if !v.Fin? then min
    else
      var f := v.x.Floor;
      var low := if max < f then max else f;
      if min > low then min else low
  }

  /** On finite inputs the clamp never decreases as the input grows. */
  lemma ClampMonotone(a: real, b: real, min: int, max: int)
    requires a <= b && min <= max
    ensures ClampInt(Fin(a), min, max) <= ClampInt(Fin(b), min, max)
  {
    assert a.Floor <= b.Floor by {
      assert a.Floor as real <= a <= b < b.Floor as real + 1.0;
    }
  }

  /** An integer already in range comes back unchanged. */
  lemma ClampKeepsInRange(n: int, min: int, max: int)
    requires min <= n <= max
    ensures ClampInt(Fin(n as real), min, max) == n
  {
  }

  /** Infinity is not finite, so it gives the minimum, below what any large finite input gives. */
  lemma InfinityGivesMinimum()
    ensures ClampInt(PosInf, 0, 40) == 0 && ClampInt(Fin(1000.0), 0, 40) == 40
  {
  }

  /** The page's default range for every count. */
  function Clamp40(v: Number): (r: int)
    ensures 0 <= r <= 40
  {
    ClampInt(v, 0, 40)
  }

  /** The create form (and the edit form, which has the same fields). */
  datatype Form = Form(name: string, tanks: Number, heals: Number, dps: Number, lootbuddies: Number)

  /** What pressing "create" does: refuse with a message, or send a body. */
  datatype Outcome = Refused(message: string) | Submitted(body: PresetsRoute.Body)

  /** The body both forms send: the trimmed name and the clamped counts. */
  function BodyOf(f: Form): (b: PresetsRoute.Body)
    ensures b.name == Str(Trim(f.name))
    ensures b.tanks == Num(Clamp40(f.tanks)) && b.healers == Num(Clamp40(f.heals))
    ensures b.dps == Num(Clamp40(f.dps)) && b.lootbuddies == Num(Clamp40(f.lootbuddies))
  {
    PresetsRoute.Body(Str(Trim(f.name)), Num(Clamp40(f.tanks)), Num(Clamp40(f.heals)),
                      Num(Clamp40(f.dps)), Num(Clamp40(f.lootbuddies)))
  }

  /** `onCreate`: a blank name is refused before any request is made. */
  function OnCreate(f: Form): (o: Outcome)
    ensures o.Refused? <==> Trim(f.name) == ""
    ensures o.Refused? ==> o.message == "Bitte Name angeben."
    ensures o.Submitted? ==> o.body == BodyOf(f) && o.body.name != Str("")
  {
    if Trim(f.name) == "" then Refused("Bitte Name angeben.") else Submitted(BodyOf(f))
  }

  /**
   * Everything the create form sends passes the router's name check, and
   * the stored counts are the clamped ones, each between 0 and 40.
   */
  lemma CreateAccepted(u: Session.User, f: Form)
    requires Truthy(u.isRaidlead)
    requires OnCreate(f).Submitted?
    ensures var r := PresetsRoute.PostPreset(Some(u), OnCreate(f).body);
      && r.Create?
      && r.name == Str(Trim(f.name))
      && r.counts == PresetsRoute.Counts(Finite(Clamp40(f.tanks)), Finite(Clamp40(f.heals)),
                                         Finite(Clamp40(f.dps)), Finite(Clamp40(f.lootbuddies)))
  {
  }

  /**
   * `saveEdit`: the edit form sends its body to `/api/presets/<id>`, with
   * no name check. The update it causes rewrites every field of the
   * preset, a blank name included.
   */
  lemma EditRewritesAll(u: Session.User, p: PresetsRoute.Preset, f: Form)
    requires Truthy(u.isRaidlead)
    ensures var r := PresetsRoute.PutPreset(Some(u), IntToString(p.id), BodyOf(f));
      && r.Update? && r.id == p.id
      && PresetsRoute.Apply(p, r.patch)
         == PresetsRoute.Preset(p.id, Str(Trim(f.name)), Clamp40(f.tanks), Clamp40(f.heals), Clamp40(f.dps), Clamp40(f.lootbuddies))
  {
    NumberOfIntToString(p.id);
  }
}
