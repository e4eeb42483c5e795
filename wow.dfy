/**
 * World of Warcraft classes and the raid roles each may fill
 * (utils/wow.js). Class names coming from players or external services
 * are normalised by alias: an exact alias first, then the first alias,
 * in table order, that occurs inside the name.
 */
module Wow {
  import opened Common

  const TANK: string := "Tank"
  const HEALER: string := "Healer"
  const DPS: string := "DPS"

  /** `CLASS_ALLOWED_ROLES`, keyed by canonical class name. */
  function ClassAllowedRoles(className: string): (r: Option<seq<string>>)
    ensures r.Some? ==> DPS in r.value
  {
    match className
    case "Death Knight" => Some([TANK, DPS])
    case "Demon Hunter" => Some([TANK, DPS])
    case "Druid" => Some([TANK, HEALER, DPS])
    case "Evoker" => Some([HEALER, DPS])
    case "Hunter" => Some([DPS])
    case "Mage" => Some([DPS])
    case "Monk" => Some([TANK, HEALER, DPS])
    case "Paladin" => Some([TANK, HEALER, DPS])
    case "Priest" => Some([HEALER, DPS])
    case "Rogue" => Some([DPS])
    case "Shaman" => Some([HEALER, DPS])
    case "Warlock" => Some([DPS])
    case "Warrior" => Some([TANK, DPS])
    case _ => None
  }

  /** The alias table of `normalizeClassName`, in its key order. */
  const ALIASES: seq<(string, string)> := [
    ("death knight", "Death Knight"),
    ("dk", "Death Knight"),
    ("demon hunter", "Demon Hunter"),
    ("dh", "Demon Hunter"),
    ("druid", "Druid"),
    ("evoker", "Evoker"),
    ("hunter", "Hunter"),
    ("mage", "Mage"),
    ("monk", "Monk"),
    ("paladin", "Paladin"),
    ("priest", "Priest"),
    ("rogue", "Rogue"),
    ("shaman", "Shaman"),
    ("warlock", "Warlock"),
    ("warrior", "Warrior")
  ]

  /** The class of the first alias equal to `s`. */
  function FirstExact(aliases: seq<(string, string)>, s: string): Option<string>
  {
    if aliases == [] then None
    else if aliases[0].0 == s then Some(aliases[0].1)
    else FirstExact(aliases[1..], s)
  }

  /** The class of the first alias occurring inside `s`. */
  function FirstContained(aliases: seq<(string, string)>, s: string): Option<string>
  {
    if aliases == [] then None
    else if Contains(s, aliases[0].0) then Some(aliases[0].1)
    else FirstContained(aliases[1..], s)
  }

  /** An alias equal to `s` anywhere in the table makes the exact search succeed. */
  lemma {:induction false} ExactFound(aliases: seq<(string, string)>, s: string, i: nat)
    requires i < |aliases| && aliases[i].0 == s
    ensures FirstExact(aliases, s).Some?
  {
    if i > 0 {
      ExactFound(aliases[1..], s, i - 1);
    }
  }

  /** The canonical class an already trimmed, lower-cased name stands for, if any. */
  function AliasLookup(s: string): Option<string>
  {
    var exact := FirstExact(ALIASES, s);
    if exact.Some? then exact else FirstContained(ALIASES, s)
  }

  /** The key `normalizeClassName` matches on. */
  function MatchKey(input: string): string
  {
    Lower(Trim(input))
  }

  /**
   * `normalizeClassName`, as a value: null for a missing or empty name,
   * the canonical class when an alias matches, else the input unchanged.
   */
  function Normalized(input: Option<string>): Option<string>
  {
    if !NonEmpty(input) then None
    else
      var hit := AliasLookup(MatchKey(input.value));
      if hit.Some? then hit else input
  }

  /** Every alias names a class of the role table. */
  lemma {:induction false} AliasesNameClasses(aliases: seq<(string, string)>, s: string)
    requires forall i :: 0 <= i < |aliases| ==> ClassAllowedRoles(aliases[i].1).Some?
    ensures FirstExact(aliases, s).Some? ==> ClassAllowedRoles(FirstExact(aliases, s).value).Some?
    ensures FirstContained(aliases, s).Some? ==> ClassAllowedRoles(FirstContained(aliases, s).value).Some?
  {
    if aliases != [] {
      AliasesNameClasses(aliases[1..], s);
    }
  }

  /** Every class the alias table maps to is a key of the role table. */
  lemma AliasTargetsAreClasses()
    ensures forall i :: 0 <= i < |ALIASES| ==> ClassAllowedRoles(ALIASES[i].1).Some?
  {
  }

  /** A normalised name is missing exactly for a missing or empty input, and is otherwise the input or a class. */
  lemma NormalizedShape(input: Option<string>)
    ensures Normalized(input).None? <==> !NonEmpty(input)
    ensures Normalized(input).Some? ==> Normalized(input) == input || ClassAllowedRoles(Normalized(input).value).Some?
  {
    if NonEmpty(input) {
      AliasTargetsAreClasses();
      AliasesNameClasses(ALIASES, MatchKey(input.value));
    }
  }

  /** The abbreviations "dk" and "dh" stand for Death Knight and Demon Hunter. */
  lemma Abbreviations(x: string)
    ensures MatchKey(x) == "dk" ==> Normalized(Some(x)) == Some("Death Knight")
    ensures MatchKey(x) == "dh" ==> Normalized(Some(x)) == Some("Demon Hunter")
  {
    assert |MatchKey(x)| <= |x|;
  }

  /** Changing letter case or surrounding a name with whitespace does not change its match key. */
  lemma MatchKeyIgnoresCaseAndPadding(x: string, y: string, pre: string, post: string)
    requires SameUpToCase(x, y) && AllWs(pre) && AllWs(post)
    ensures MatchKey(pre + y + post) == MatchKey(x)
  {
    TrimPadded(pre, y, post);
    LowerTrimIgnoresCase(x, y);
  }

  /** A name whose key names a class normalises to that class however it is cased or padded. */
  lemma NormalizedIgnoresCaseAndPadding(x: string, y: string, pre: string, post: string)
    requires SameUpToCase(x, y) && AllWs(pre) && AllWs(post)
    requires x != [] && AliasLookup(MatchKey(x)).Some?
    ensures Normalized(Some(pre + y + post)) == Normalized(Some(x)) == AliasLookup(MatchKey(x))
  {
    MatchKeyIgnoresCaseAndPadding(x, y, pre, post);
  }

  /** A found exact alias is one of the table's entries. */
  lemma {:induction false} ExactWitness(aliases: seq<(string, string)>, s: string)
    requires FirstExact(aliases, s).Some?
    ensures exists i :: 0 <= i < |aliases| && aliases[i].0 == s && aliases[i].1 == FirstExact(aliases, s).value
  {
    if aliases[0].0 != s {
      ExactWitness(aliases[1..], s);
      var i :| 0 <= i < |aliases[1..]| && aliases[1..][i].0 == s && aliases[1..][i].1 == FirstExact(aliases, s).value;
      assert aliases[i + 1] == aliases[1..][i];
    }
  }

  /** Only the last alias occurring inside `s` makes the contains search return its class. */
  lemma {:induction false} OnlyLastContained(aliases: seq<(string, string)>, s: string)
    requires aliases != [] && Contains(s, aliases[|aliases| - 1].0)
    requires forall i :: 0 <= i < |aliases| - 1 ==> !Contains(s, aliases[i].0)
    ensures FirstContained(aliases, s) == Some(aliases[|aliases| - 1].1)
  {
    if |aliases| > 1 {
      assert !Contains(s, aliases[0].0);
      var rest := aliases[1..];
      assert rest[|rest| - 1] == aliases[|aliases| - 1];
      assert forall i :: 0 <= i < |rest| - 1 ==> rest[i] == aliases[i + 1];
      OnlyLastContained(rest, s);
    }
  }

  /** When only the last alias occurs inside `s`, both searches can only find its class. */
  lemma OnlyLastMatches(aliases: seq<(string, string)>, s: string)
    requires aliases != [] && Contains(s, aliases[|aliases| - 1].0)
    requires forall i :: 0 <= i < |aliases| - 1 ==> !Contains(s, aliases[i].0)
    ensures FirstExact(aliases, s).Some? ==> FirstExact(aliases, s) == Some(aliases[|aliases| - 1].1)
    ensures FirstContained(aliases, s) == Some(aliases[|aliases| - 1].1)
  {
    OnlyLastContained(aliases, s);
    if FirstExact(aliases, s).Some? {
      ExactWitness(aliases, s);
      var i :| 0 <= i < |aliases| && aliases[i].0 == s && aliases[i].1 == FirstExact(aliases, s).value;
      assert StartsWith(s, s);
    }
  }

  /**
   * A name containing "warrior" and no earlier alias, as in
   * "Highmountain Tauren Warrior", normalises to Warrior.
   */
  lemma ContainedWarrior(x: string)
    requires Contains(MatchKey(x), "warrior")
    requires forall i :: 0 <= i < |ALIASES| - 1 ==> !Contains(MatchKey(x), ALIASES[i].0)
    ensures Normalized(Some(x)) == Some("Warrior")
  {
    assert |MatchKey(x)| <= |x|;
    assert ALIASES[|ALIASES| - 1] == ("warrior", "Warrior");
    OnlyLastMatches(ALIASES, MatchKey(x));
  }

  /** `normalizeClassName`: the two searches over the alias table. */
  method NormalizeClassName(input: Option<string>) returns (r: Option<string>)
    ensures r == Normalized(input)
    ensures r.None? <==> !NonEmpty(input)
    ensures r.Some? ==> r == input || ClassAllowedRoles(r.value).Some?
  {
    NormalizedShape(input);
    if !NonEmpty(input) {
      return None;
    }
    var s := MatchKey(input.value);
    r := FindExact(ALIASES, s);
    if r.Some? {
      return;
    }
    r := FindContained(ALIASES, s);
    if r.Some? {
      return;
    }
    return input;
  }

  /** The first loop: an alias equal to the key. */
  method FindExact(aliases: seq<(string, string)>, s: string) returns (r: Option<string>)
    ensures r == FirstExact(aliases, s)
  {
    var i := 0;
    while i < |aliases|
      invariant 0 <= i <= |aliases|
      invariant FirstExact(aliases, s) == FirstExact(aliases[i..], s)
    {
      assert aliases[i..][1..] == aliases[i + 1..];
      if s == aliases[i].0 {
        return Some(aliases[i].1);
      }
      i := i + 1;
    }
    return None;
  }

  /** The second loop: the first alias occurring inside the key. */
  method FindContained(aliases: seq<(string, string)>, s: string) returns (r: Option<string>)
    ensures r == FirstContained(aliases, s)
  {
    var i := 0;
    while i < |aliases|
      invariant 0 <= i <= |aliases|
      invariant FirstContained(aliases, s) == FirstContained(aliases[i..], s)
    {
      assert aliases[i..][1..] == aliases[i + 1..];
      if Contains(s, aliases[i].0) {
        return Some(aliases[i].1);
      }
      i := i + 1;
    }
    return None;
  }

  /** `allowedRolesForClass` */
  function AllowedRolesForClass(className: Option<string>): (r: seq<string>)
    ensures DPS in r
    ensures forall x :: x in r ==> x == TANK || x == HEALER || x == DPS
  {
    var norm := Normalized(className);
    if norm.Some? && ClassAllowedRoles(norm.value).Some? then ClassAllowedRoles(norm.value).value
    else [DPS]
  }

  /** `isRoleAllowedForClass` */
  function IsRoleAllowedForClass(className: Option<string>, role: string): (r: bool)
    ensures role == DPS ==> r
    ensures r ==> role == TANK || role == HEALER || role == DPS
  {
    role in AllowedRolesForClass(className)
  }

  /**
   * For a name an alias matches, the roles depend only on the trimmed,
   * lower-cased name; a name no alias matches that is not itself a table
   * key gets DPS only.
   */
  lemma RolesIgnoreCaseAndSpace(a: string, b: string)
    requires a != "" && b != "" && MatchKey(a) == MatchKey(b)
    ensures AliasLookup(MatchKey(a)).Some? ==>
      AllowedRolesForClass(Some(a)) == AllowedRolesForClass(Some(b))
    ensures AliasLookup(MatchKey(a)).None? && ClassAllowedRoles(a).None? ==> AllowedRolesForClass(Some(a)) == [DPS]
  {
    var hit := AliasLookup(MatchKey(a));
    NormalizedOf(a);
    NormalizedOf(b);
    if hit.Some? {
      RolesFollowNormalized(a, b);
    }
  }

  /** A non-empty name normalises to the alias hit, or else to itself. */
  lemma NormalizedOf(x: string)
    requires x != ""
    ensures Normalized(Some(x)) == (if AliasLookup(MatchKey(x)).Some? then AliasLookup(MatchKey(x)) else Some(x))
  {
  }

  /** The roles depend on the normalised name only. */
  lemma RolesFollowNormalized(a: string, b: string)
    requires Normalized(Some(a)) == Normalized(Some(b))
    ensures AllowedRolesForClass(Some(a)) == AllowedRolesForClass(Some(b))
  {
  }
}
