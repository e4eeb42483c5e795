/**
 * Role flags derived from a Discord guild-member record and the permission
 * policies over them (utils/roles.js).
 */
module Roles {
  import opened Common

  /** The configured role ids ("" when unset). */
  datatype RoleIds = RoleIds(admin: string, raidlead: string, booster: string, lootbuddy: string)

  /** `ENV[name]`, with an unset variable read as "" (both are falsy). */
  function Var(env: map<string, string>, name: string): string
  {
    if name in env then env[name] else ""
  }

  /** `ENV[a] || ENV[b] || ... || ""`: the first variable set to a non-empty value. */
  function FirstSet(env: map<string, string>, names: seq<string>): (r: string)
    ensures r == "" <==> forall i :: 0 <= i < |names| ==> Var(env, names[i]) == ""
    ensures r != "" ==> exists i :: 0 <= i < |names| && Var(env, names[i]) == r && forall j :: 0 <= j < i ==> Var(env, names[j]) == ""
    decreases |names|
  {
    if names == [] then ""
    else if Var(env, names[0]) != "" then Var(env, names[0])
    else
      var r := FirstSet(env, names[1..]);
      if r != "" then
        var i :| 0 <= i < |names[1..]| && Var(env, names[1..][i]) == r && forall j :: 0 <= j < i ==> Var(env, names[1..][j]) == "";
        assert Var(env, names[i + 1]) == r && forall j :: 0 <= j < i + 1 ==> Var(env, names[j]) == "";
        r
      else r
  }

  /** The variables roles.js reads the raidlead role id from, in order. */
  const RAIDLEAD_VARS: seq<string> := ["RAIDLEAD_ROLE_ID", "DISCORD_ROLE_RAIDLEAD_ID", "DISCORD_ROLE_RAIDLEAD"]

  /** The role ids roles.js reads from the environment when it loads. */
  function RoleIdsFromEnv(env: map<string, string>): (r: RoleIds)
    ensures r.raidlead == "" <==> forall i :: 0 <= i < 3 ==> Var(env, RAIDLEAD_VARS[i]) == ""
    ensures r.admin == "" <==> Var(env, "DISCORD_ROLE_ADMIN_ID") == "" && Var(env, "ADMIN_ROLE_ID") == ""
    ensures Var(env, "DISCORD_ROLE_ADMIN_ID") != "" ==> r.admin == env["DISCORD_ROLE_ADMIN_ID"]
    ensures Var(env, "RAIDLEAD_ROLE_ID") != "" ==> r.raidlead == env["RAIDLEAD_ROLE_ID"]
  {
    var admin := FirstSet(env, ["DISCORD_ROLE_ADMIN_ID", "ADMIN_ROLE_ID"]);
    assert admin == "" <==> Var(env, "DISCORD_ROLE_ADMIN_ID") == "" && Var(env, "ADMIN_ROLE_ID") == "" by {
      var names := ["DISCORD_ROLE_ADMIN_ID", "ADMIN_ROLE_ID"];
      assert names[0] == "DISCORD_ROLE_ADMIN_ID" && names[1] == "ADMIN_ROLE_ID";
    }
    RoleIds(
      admin,
      FirstSet(env, RAIDLEAD_VARS),
      FirstSet(env, ["DISCORD_ROLE_BOOSTER_ID"]),
      FirstSet(env, ["DISCORD_ROLE_LOOTBUDDYS_ID"]))
  }

  /** The member record Discord returns: its role ids, its user's id and the owner flag. */
  datatype MemberJson = MemberJson(roles: Option<seq<Js>>, userId: Js, guildOwner: Js)

  /** The ranks of `highestRole`, lowest first. */
  datatype Rank = Member | Lootbuddy | Booster | Raidlead | Admin | Owner

  function RankName(r: Rank): string
  {
    match r
    case Member => "user"
    case Lootbuddy => "lootbuddy"
    case Booster => "booster"
    case Raidlead => "raidlead"
    case Admin => "admin"
    case Owner => "owner"
  }

  function Level(r: Rank): nat
  {
    match r
    case Member => 0
    case Lootbuddy => 1
    case Booster => 2
    case Raidlead => 3
    case Admin => 4
    case Owner => 5
  }

  datatype Flags = Flags(
    roles: seq<Js>, isOwner: Js, isAdmin: bool, raidlead: bool, booster: bool, lootbuddy: bool,
    inGuild: bool, highestRole: Rank)

  /** An empty role id is held by nobody. */
  predicate Holds(roles: seq<Js>, id: string)
  {
    id != "" && Str(id) in roles
  }

  /** Whether the flags grant a rank; everybody has the plain user rank. */
  predicate HasRank(f: Flags, r: Rank)
  {
    match r
    case Member => true
    case Lootbuddy => f.lootbuddy
    case Booster => f.booster
    case Raidlead => f.raidlead
    case Admin => f.isAdmin
    case Owner => Truthy(f.isOwner)
  }

  /** `flagsFromMember` */
  function FlagsFromMember(ids: RoleIds, m: Option<MemberJson>): (f: Flags)
    ensures f.roles == (if m.Some? && m.value.roles.Some? then m.value.roles.value else [])
    ensures f.inGuild <==> m.Some?
    ensures f.isAdmin <==> Holds(f.roles, ids.admin)
    ensures f.raidlead <==> Holds(f.roles, ids.raidlead)
    ensures f.booster <==> Holds(f.roles, ids.booster)
    ensures f.lootbuddy <==> Holds(f.roles, ids.lootbuddy)
    ensures m.None? || !Truthy(m.value.userId) ==> f.isOwner == Bool(false)
    ensures m.Some? && Truthy(m.value.userId) && !IsNullish(m.value.guildOwner) ==> f.isOwner == m.value.guildOwner
    ensures m.Some? && Truthy(m.value.userId) && IsNullish(m.value.guildOwner) ==> f.isOwner == Bool(false)
    ensures HasRank(f, f.highestRole)
    ensures forall r :: HasRank(f, r) ==> Level(r) <= Level(f.highestRole)
  {
    var roles := if m.Some? && m.value.roles.Some? then m.value.roles.value else [];
    var isOwner := if m.Some? && Truthy(m.value.userId) then Coalesce(m.value.guildOwner, Bool(false)) else Bool(false);
    var isAdmin := Holds(roles, ids.admin);
    var raidlead := Holds(roles, ids.raidlead);
    var booster := Holds(roles, ids.booster);
    var lootbuddy := Holds(roles, ids.lootbuddy);
    var highest :=
      if Truthy(isOwner) then Owner
      else if isAdmin then Admin
      else if raidlead then Raidlead
      else if booster then Booster
      else if lootbuddy then Lootbuddy
      else Member;
    Flags(roles, isOwner, isAdmin, raidlead, booster, lootbuddy, m.Some?, highest)
  }

  /** The flags of somebody outside the guild, or when the guild cannot be asked. */
  const NoFlags := Flags([], Bool(false), false, false, false, false, false, Member)

  /**
   * `getLiveRoleFlags` after the HTTP call: no guild configured, a 403 or
   * 404, or any other non-2xx status give the empty flags; otherwise the
   * returned member record's flags.
   */
  function LiveRoleFlags(ids: RoleIds, guildSet: bool, status: nat, member: Option<MemberJson>): (f: Flags)
    ensures !guildSet || !(200 <= status < 300) ==> f == NoFlags
    ensures guildSet && 200 <= status < 300 ==> f == FlagsFromMember(ids, member)
  {
    if !guildSet then NoFlags
    else if status == 404 || status == 403 then NoFlags
    else if !(200 <= status < 300) then NoFlags
    else FlagsFromMember(ids, member)
  }

  /** The keys the policies read from a flags object (any of which may be missing). */
  datatype PolicyFlags = PolicyFlags(isOwner: Js, isAdmin: Js, raidlead: Js)

  function View(f: Flags): PolicyFlags
  {
    PolicyFlags(f.isOwner, Bool(f.isAdmin), Bool(f.raidlead))
  }

  predicate CanCreateRaid(f: Option<PolicyFlags>)
  {
    f.Some? && (Truthy(f.value.isOwner) || Truthy(f.value.isAdmin) || Truthy(f.value.raidlead))
  }

  /** Only admins and the owner may choose a raid's lead freely. */
  predicate CanSetRaidLead(f: Option<PolicyFlags>)
  {
    f.Some? && (Truthy(f.value.isOwner) || Truthy(f.value.isAdmin))
  }

  predicate IsAdminLevel(f: Option<PolicyFlags>)
  {
    f.Some? && (Truthy(f.value.isOwner) || Truthy(f.value.isAdmin))
  }

  /** Setting the lead implies creating, and admin level is exactly the right to set the lead. */
  lemma PoliciesNest(f: Option<PolicyFlags>)
    ensures CanSetRaidLead(f) ==> CanCreateRaid(f)
    ensures IsAdminLevel(f) <==> CanSetRaidLead(f)
    ensures f.None? ==> !CanCreateRaid(f)
  {
  }

  /** On a member's flags the policies follow the highest rank. */
  lemma {:induction false} PoliciesFollowRank(ids: RoleIds, m: Option<MemberJson>)
    ensures var f := FlagsFromMember(ids, m);
      && (CanCreateRaid(Some(View(f))) <==> Level(f.highestRole) >= Level(Raidlead))
      && (IsAdminLevel(Some(View(f))) <==> Level(f.highestRole) >= Level(Admin))
  {
    var f := FlagsFromMember(ids, m);
    assert HasRank(f, Owner) ==> Level(Owner) <= Level(f.highestRole);
    assert HasRank(f, Admin) ==> Level(Admin) <= Level(f.highestRole);
    assert HasRank(f, Raidlead) ==> Level(Raidlead) <= Level(f.highestRole);
  }

  /** The empty flags grant nothing. */
  lemma NoFlagsGrantNothing()
    ensures !CanCreateRaid(Some(View(NoFlags))) && !IsAdminLevel(Some(View(NoFlags)))
    ensures NoFlags.highestRole == Member && RankName(NoFlags.highestRole) == "user"
  {
  }
}
