/**
 * The user administration router (routes/users.js): the admin guard, the
 * parsing of a stored comma-separated role list, and its own copy of the
 * member-to-flags mapping for discord.js member objects.
 */
module UsersRoute {
  import opened Common
  import Session
  import Roles

  datatype Guard = Unauthorized | Next | Forbidden

  function GuardStatus(g: Guard): nat
  {
    match g
    case Unauthorized => 401
    case Next => 200
    case Forbidden => 403
  }

  /** The flags the cookie payload itself carries. */
  function PayloadFlags(u: Session.User): Roles.PolicyFlags
  {
    Roles.PolicyFlags(Bool(Truthy(u.isOwner)), Bool(Truthy(u.isAdmin)), Undefined)
  }

  /**
   * `requireAdmin` as written: the live check destructures `ok` and
   * `flags` from what `getLiveRoleFlags` returns, but that is the flags
   * object itself, which has neither key, so `ok` is undefined and the
   * live check never admits anybody. `live` is the live result, None when
   * the call threw.
   */
  function RequireAdminAsWritten(u: Option<Session.User>, live: Option<Roles.Flags>): (g: Guard)
    ensures u.None? <==> g == Unauthorized
    ensures g == Next <==> u.Some? && Roles.IsAdminLevel(Some(PayloadFlags(u.value)))
  {
    if u.None? then Unauthorized
    else if Roles.IsAdminLevel(Some(PayloadFlags(u.value))) then Next
    else
      // `const { ok, flags } = <flags object>`: both keys are missing
      var ok: Js := Undefined;
      var flags: Option<Roles.PolicyFlags> := None;
      if Truthy(ok) && Roles.IsAdminLevel(flags) then Next else Forbidden
  }

  /** `requireAdmin` as intended: the payload's flags first, then the live flags. */
  function RequireAdmin(u: Option<Session.User>, live: Option<Roles.Flags>): (g: Guard)
    ensures u.None? <==> g == Unauthorized
    ensures u.Some? && Roles.IsAdminLevel(Some(PayloadFlags(u.value))) ==> g == Next
    ensures u.Some? && live.Some? && Roles.IsAdminLevel(Some(Roles.View(live.value))) ==> g == Next
    ensures g == Next ==>
      Roles.IsAdminLevel(Some(PayloadFlags(u.value))) || (live.Some? && Roles.IsAdminLevel(Some(Roles.View(live.value))))
  {
    if u.None? then Unauthorized
    else if Roles.IsAdminLevel(Some(PayloadFlags(u.value))) then Next
    else if live.Some? && Roles.IsAdminLevel(Some(Roles.View(live.value))) then Next
    else Forbidden
  }

  /**
   * A guild admin whose cookie does not say so is turned away by the guard
   * as written, whatever the live check finds, and admitted by the intended one.
   */
  lemma LiveCheckNeverAdmits(u: Session.User, live: Roles.Flags)
    requires !Truthy(u.isOwner) && !Truthy(u.isAdmin) && live.isAdmin
    ensures RequireAdminAsWritten(Some(u), Some(live)) == Forbidden
    ensures RequireAdmin(Some(u), Some(live)) == Next
  {
  }

  /**
   * What Discord's `/users/@me/guilds/{guild}/member` answers for a bearer
   * credential: success for an OAuth access token it issued, 401 for
   * anything else.
   */
  function MemberFetchStatus(credential: string, accessTokens: set<string>): (status: nat)
    ensures 200 <= status < 300 <==> credential in accessTokens
  {
    if credential in accessTokens then 200 else 401
  }

  /** `u.discordId || u.id`, the argument the guard hands to `getLiveRoleFlags`. */
  function CredentialOf(u: Session.User): Js
  {
    Or(u.discordId, u.id)
  }

  /**
   * The live flags as users.js asks for them: `getLiveRoleFlags` with the
   * user's id where it expects the user's access token.
   */
  function LiveFlagsAsCalled(ids: Roles.RoleIds, guildSet: bool, u: Session.User, accessTokens: set<string>,
                             member: Option<Roles.MemberJson>): Roles.Flags
  {
    Roles.LiveRoleFlags(ids, guildSet, MemberFetchStatus(JsString(CredentialOf(u)), accessTokens), member)
  }

  /**
   * A user id is not an access token, so the live lookup is refused and
   * yields the empty flags, which are not admin-level: even with the
   * destructuring repaired the live check would admit nobody.
   */
  lemma LiveLookupByIdFindsNothing(ids: Roles.RoleIds, guildSet: bool, u: Session.User, accessTokens: set<string>,
                                   member: Option<Roles.MemberJson>)
    requires JsString(CredentialOf(u)) !in accessTokens
    ensures LiveFlagsAsCalled(ids, guildSet, u, accessTokens, member) == Roles.NoFlags
    ensures RequireAdmin(Some(u), Some(LiveFlagsAsCalled(ids, guildSet, u, accessTokens, member))) ==
      RequireAdminAsWritten(Some(u), Some(LiveFlagsAsCalled(ids, guildSet, u, accessTokens, member)))
  {
    Roles.NoFlagsGrantNothing();
  }

  /** Both guards agree whenever the live check finds no admin. */
  lemma GuardsAgreeWithoutLiveAdmin(u: Option<Session.User>, live: Option<Roles.Flags>)
    requires live.None? || !Roles.IsAdminLevel(Some(Roles.View(live.value)))
    ensures RequireAdminAsWritten(u, live) == RequireAdmin(u, live)
  {
  }

  // ---------------------------------------------------------------------
  // The stored role list

  /** `(rolesCsv || '').split(',').map(trim).filter(Boolean)` */
  function RolesFromCsv(csv: Option<string>): (r: seq<string>)
    ensures forall i :: 0 <= i < |r| ==> r[i] != "" && ',' !in r[i] && Trim(r[i]) == r[i]
    ensures csv.None? || csv == Some("") ==> r == []
  {
    CsvItems(if csv.Some? then csv.value else "")
  }

  /** The parsed list of a stored list written as "a,b,c" is that list again. */
  lemma RolesFromCsvOfJoin(roles: seq<string>)
    requires |roles| >= 1
    requires forall i :: 0 <= i < |roles| ==> roles[i] != "" && ',' !in roles[i]
    requires forall i :: 0 <= i < |roles| ==> !IsWs(roles[i][0]) && !IsWs(roles[i][|roles[i]| - 1])
    ensures RolesFromCsv(Some(Join(roles, ","))) == roles
  {
    CsvItemsOfJoin(roles);
  }

  /**
   * The flags the user list derives from the stored roles; an unset role id
   * is replaced by a placeholder nobody holds in practice.
   */
  datatype CsvFlags = CsvFlags(isOwner: bool, isAdmin: bool, isRaidlead: bool, isBooster: bool)

  function FlagsFromCsv(ids: Roles.RoleIds, csv: Option<string>): (f: CsvFlags)
    ensures !f.isOwner
    ensures ids.admin != "" ==> (f.isAdmin <==> ids.admin in RolesFromCsv(csv))
    ensures ids.raidlead != "" ==> (f.isRaidlead <==> ids.raidlead in RolesFromCsv(csv))
    ensures ids.booster != "" ==> (f.isBooster <==> ids.booster in RolesFromCsv(csv))
  {
    var roles := RolesFromCsv(csv);
    CsvFlags(
      false,
      (if ids.admin != "" then ids.admin else "___admin___") in roles,
      (if ids.raidlead != "" then ids.raidlead else "___lead___") in roles,
      (if ids.booster != "" then ids.booster else "___booster___") in roles)
  }

  // ---------------------------------------------------------------------
  // The member-to-flags copy for discord.js members

  /** A discord.js guild member: the role ids in its cache, its guild's owner id and its user's id. */
  datatype GuildMember = GuildMember(roleIds: seq<string>, ownerId: Option<string>, userId: Option<string>)

  /** The role flags are the configured id's emptiness (a falsy "") or a membership test. */
  datatype MemberFlags = MemberFlags(isOwner: bool, isAdmin: Js, isRaidlead: Js, isBooster: Js, roles: seq<string>)

  /** `cfg && roles.includes(cfg)` */
  function RoleTest(roles: seq<string>, id: string): (r: Js)
    ensures Truthy(r) <==> id != "" && id in roles
    ensures id == "" ==> r == Str("")
  {
    if id == "" then Str("") else Bool(id in roles)
  }

  /** `flagsFromMember` of users.js. */
  function FlagsFromMember(ids: Roles.RoleIds, m: Option<GuildMember>): (f: MemberFlags)
    ensures f.roles == (if m.Some? then m.value.roleIds else [])
    ensures f.isOwner <==> m.Some? && m.value.ownerId.Some? && m.value.ownerId.value != "" && m.value.userId == m.value.ownerId
    ensures Truthy(f.isAdmin) <==> ids.admin != "" && ids.admin in f.roles
    ensures Truthy(f.isRaidlead) <==> ids.raidlead != "" && ids.raidlead in f.roles
    ensures Truthy(f.isBooster) <==> ids.booster != "" && ids.booster in f.roles
  {
    var roles := if m.Some? then m.value.roleIds else [];
    var isOwner := m.Some? && m.value.ownerId.Some? && m.value.ownerId.value != "" && m.value.userId == m.value.ownerId;
    MemberFlags(isOwner, RoleTest(roles, ids.admin), RoleTest(roles, ids.raidlead), RoleTest(roles, ids.booster), roles)
  }

  function AsJs(ids: seq<string>): (r: seq<Js>)
    ensures |r| == |ids|
    ensures forall i :: 0 <= i < |ids| ==> r[i] == Str(ids[i])
  {
    if ids == [] then [] else [Str(ids[0])] + AsJs(ids[1..])
  }

  /** The copy agrees with utils/roles.js on the admin, raidlead and booster roles of the same member. */
  lemma FlagCopiesAgree(ids: Roles.RoleIds, m: GuildMember, owner: Js)
    ensures var mine := FlagsFromMember(ids, Some(m));
      var theirs := Roles.FlagsFromMember(ids, Some(Roles.MemberJson(Some(AsJs(m.roleIds)), Undefined, owner)));
      && (Truthy(mine.isAdmin) <==> theirs.isAdmin)
      && (Truthy(mine.isRaidlead) <==> theirs.raidlead)
      && (Truthy(mine.isBooster) <==> theirs.booster)
  {
    var js := AsJs(m.roleIds);
    forall id: string
      ensures Str(id) in js <==> id in m.roleIds
    {
      if Str(id) in js {
        var k :| 0 <= k < |js| && js[k] == Str(id);
        assert m.roleIds[k] == id;
      }
      if id in m.roleIds {
        var k :| 0 <= k < |m.roleIds| && m.roleIds[k] == id;
        assert js[k] == Str(id);
      }
    }
  }

  // ---------------------------------------------------------------------
  // Where the role ids come from

  /** The variables users.js reads the raidlead role id from, in order. */
  const RAIDLEAD_VARS: seq<string> := ["RAIDLEAD_ROLE_ID", "DISCORD_ROLE_RAIDLEAD_ID"]

  /**
   * The role ids users.js reads from the environment: the same variables as
   * roles.js for the admin and booster roles, but only the first two of its
   * three raidlead variables. It reads no lootbuddy role.
   */
  function RoleIdsFromEnv(env: map<string, string>): (r: Roles.RoleIds)
    ensures r.raidlead == "" <==> forall i :: 0 <= i < 2 ==> Roles.Var(env, RAIDLEAD_VARS[i]) == ""
    ensures r.lootbuddy == ""
  {
    Roles.RoleIds(
      Roles.FirstSet(env, ["DISCORD_ROLE_ADMIN_ID", "ADMIN_ROLE_ID"]),
      Roles.FirstSet(env, RAIDLEAD_VARS),
      Roles.FirstSet(env, ["DISCORD_ROLE_BOOSTER_ID"]),
      "")
  }

  /**
   * The two files read the same admin and booster ids, and the same raidlead
   * id exactly when DISCORD_ROLE_RAIDLEAD is unset or one of the two
   * variables before it is set.
   */
  lemma EnvIdsAgree(env: map<string, string>)
    ensures RoleIdsFromEnv(env).admin == Roles.RoleIdsFromEnv(env).admin
    ensures RoleIdsFromEnv(env).booster == Roles.RoleIdsFromEnv(env).booster
    ensures RoleIdsFromEnv(env).raidlead == Roles.RoleIdsFromEnv(env).raidlead <==>
      Roles.Var(env, "DISCORD_ROLE_RAIDLEAD") == ""
      || Roles.Var(env, "RAIDLEAD_ROLE_ID") != "" || Roles.Var(env, "DISCORD_ROLE_RAIDLEAD_ID") != ""
  {
    var theirs := Roles.RAIDLEAD_VARS;
    var a := Roles.Var(env, "RAIDLEAD_ROLE_ID");
    var b := Roles.Var(env, "DISCORD_ROLE_RAIDLEAD_ID");
    var c := Roles.Var(env, "DISCORD_ROLE_RAIDLEAD");
    assert theirs[1..] == [theirs[1], theirs[2]] && theirs[2..] == [theirs[2]];
    assert RAIDLEAD_VARS[1..] == [RAIDLEAD_VARS[1]];
    assert Roles.FirstSet(env, theirs) == if a != "" then a else if b != "" then b else c;
    assert Roles.FirstSet(env, RAIDLEAD_VARS) == if a != "" then a else b;
  }

  /**
   * With DISCORD_ROLE_RAIDLEAD unset or shadowed, the flags users.js derives
   * from a member agree with those roles.js derives, each with its own ids.
   */
  lemma EnvFlagCopiesAgree(env: map<string, string>, m: GuildMember, owner: Js)
    requires Roles.Var(env, "DISCORD_ROLE_RAIDLEAD") == ""
      || Roles.Var(env, "RAIDLEAD_ROLE_ID") != "" || Roles.Var(env, "DISCORD_ROLE_RAIDLEAD_ID") != ""
    ensures var mine := FlagsFromMember(RoleIdsFromEnv(env), Some(m));
      var theirs := Roles.FlagsFromMember(Roles.RoleIdsFromEnv(env), Some(Roles.MemberJson(Some(AsJs(m.roleIds)), Undefined, owner)));
      && (Truthy(mine.isAdmin) <==> theirs.isAdmin)
      && (Truthy(mine.isRaidlead) <==> theirs.raidlead)
      && (Truthy(mine.isBooster) <==> theirs.booster)
  {
    EnvIdsAgree(env);
    var ids := Roles.RoleIdsFromEnv(env);
    FlagCopiesAgree(ids, m, owner);
    assert FlagsFromMember(RoleIdsFromEnv(env), Some(m)) == FlagsFromMember(ids, Some(m));
  }

  /**
   * Set only DISCORD_ROLE_RAIDLEAD: a member holding that role is a raidlead
   * for roles.js but not for the users.js copy.
   */
  lemma LegacyRaidleadVarIgnored(env: map<string, string>)
    requires Roles.Var(env, "RAIDLEAD_ROLE_ID") == "" && Roles.Var(env, "DISCORD_ROLE_RAIDLEAD_ID") == ""
    requires Roles.Var(env, "DISCORD_ROLE_RAIDLEAD") != ""
    ensures var id := Roles.Var(env, "DISCORD_ROLE_RAIDLEAD");
      && !Truthy(FlagsFromMember(RoleIdsFromEnv(env), Some(GuildMember([id], None, None))).isRaidlead)
      && Roles.FlagsFromMember(Roles.RoleIdsFromEnv(env), Some(Roles.MemberJson(Some([Str(id)]), Undefined, Undefined))).raidlead
  {
    var theirs := Roles.RAIDLEAD_VARS;
    assert theirs[1..] == [theirs[1], theirs[2]] && theirs[2..] == [theirs[2]];
    assert Roles.RoleIdsFromEnv(env).raidlead == Roles.Var(env, "DISCORD_ROLE_RAIDLEAD");
    assert RoleIdsFromEnv(env).raidlead == "";
  }
}
