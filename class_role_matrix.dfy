/**
 * The class/role matrix of the Discord sign-up flow
 * (discord/modules/classRoleMatrix.js): exact, case-sensitive class names
 * mapped to the set of roles TANK, HEAL and DPS.
 */
module ClassRoleMatrix {
  import opened Common
  import Wow

  const TANK: string := "TANK"
  const HEAL: string := "HEAL"
  const DPS: string := "DPS"

  /** `MATRIX.get(wowClass)` */
  function Matrix(wowClass: string): (r: Option<set<string>>)
    ensures r.Some? ==> DPS in r.value && r.value <= {TANK, HEAL, DPS}
  {
    match wowClass
    case "Druid" => Some({TANK, HEAL, DPS})
    case "Paladin" => Some({TANK, HEAL, DPS})
    case "Warrior" => Some({TANK, DPS})
    case "Death Knight" => Some({TANK, DPS})
    case "Demon Hunter" => Some({TANK, DPS})
    case "Monk" => Some({TANK, HEAL, DPS})
    case "Priest" => Some({HEAL, DPS})
    case "Shaman" => Some({HEAL, DPS})
    case "Evoker" => Some({HEAL, DPS})
    case "Mage" => Some({DPS})
    case "Warlock" => Some({DPS})
    case "Hunter" => Some({DPS})
    case "Rogue" => Some({DPS})
    case _ => None
  }

  /** `isRoleAllowedForClass`: a missing or empty class is looked up as "". */
  function IsRoleAllowedForClass(wowClass: Option<string>, role: string): (r: bool)
    ensures r ==> role == TANK || role == HEAL || role == DPS
    ensures r ==> wowClass.Some? && Matrix(wowClass.value).Some?
    ensures wowClass.Some? && Matrix(wowClass.value).Some? && role == DPS ==> r
  {
    var key := if wowClass.Some? then wowClass.value else "";
    var set_ := Matrix(key);
    set_.Some? && role in set_.value
  }

  /** The role names of utils/wow.js translated to this matrix's names. */
  function FromWowRole(role: string): string
  {
    if role == Wow.TANK then TANK else if role == Wow.HEALER then HEAL else role
  }

  /**
   * The two tables agree: for every class of either table, a role is
   * allowed by one exactly when its translation is allowed by the other,
   * and both tables list the same classes.
   */
  lemma TablesAgree(c: string, role: string)
    requires role == Wow.TANK || role == Wow.HEALER || role == Wow.DPS
    ensures Matrix(c).Some? <==> Wow.ClassAllowedRoles(c).Some?
    ensures Matrix(c).Some? ==>
      (role in Wow.ClassAllowedRoles(c).value <==> FromWowRole(role) in Matrix(c).value)
  {
  }

  /** Lookups are exact: an unknown or differently cased class allows no role. */
  lemma UnknownClassAllowsNothing(c: string, role: string)
    requires Wow.ClassAllowedRoles(c).None?
    ensures !IsRoleAllowedForClass(Some(c), role)
    ensures !IsRoleAllowedForClass(None, role)
  {
    TablesAgree(c, Wow.DPS);
  }

  /** Exactly six classes may tank. */
  lemma TankClasses(c: string)
    ensures IsRoleAllowedForClass(Some(c), TANK) <==>
      c == "Druid" || c == "Paladin" || c == "Warrior" || c == "Death Knight" || c == "Demon Hunter" || c == "Monk"
  {
  }
}
