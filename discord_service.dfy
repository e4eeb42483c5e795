/**
 * The Discord service of services/discord.js: raid-lead detection and
 * listing over a cached member list, and raid channels named
 * `Wed-1800-nhc-vip-syntax`. The clock is a parameter; the guild is the
 * channel registry of module Guild.
 */
module DiscordService {
  import opened Common
  import opened Text
  import Calendar
  import NameFormat
  import opened Guild
  import Channels
  import Order

  datatype Role = Role(id: string, name: Option<string>)

  /** A guild member: the user's id, name and bot flag, the member's display name, avatar and roles. */
  datatype Member = Member(
    userId: string, username: string, bot: bool, displayName: string,
    avatar: Option<string>, roles: seq<Role>)

  datatype Lead = Lead(id: string, username: string, displayName: string, avatar: Option<string>)

  const CACHE_WINDOW_MS: int := 60000

  /** The member list of the guild and when it was last fetched (`cachedMembersAt`). */
  class MemberCache {
    var cachedAt: int
    var members: seq<Member>

    constructor ()
      ensures cachedAt == 0 && members == []
    {
      cachedAt := 0;
      members := [];
    }

    /**
     * `fetchMembers`: the cached list when it is not empty and less than 60
     * seconds old; otherwise `fetched`, the list the guild returns now,
     * which becomes the cache.
     */
    method FetchMembers(now: int, fetched: seq<Member>) returns (r: seq<Member>)
      modifies this
      ensures old(now - cachedAt < CACHE_WINDOW_MS && |members| > 0) ==>
        r == old(members) && members == old(members) && cachedAt == old(cachedAt)
      ensures !old(now - cachedAt < CACHE_WINDOW_MS && |members| > 0) ==>
        r == fetched && members == fetched && cachedAt == now
    {
      if now - cachedAt < CACHE_WINDOW_MS && |members| > 0 {
        return members;
      }
      members := fetched;
      cachedAt := now;
      return fetched;
    }
  }

  /** The configured raid-lead role id, trimmed; "" when none is set. */
  function WantedRoleId(configured: Option<string>): string
  {
    if configured.Some? then Trim(configured.value) else ""
  }

  predicate HoldsRoleId(m: Member, id: string)
  {
    exists i :: 0 <= i < |m.roles| && m.roles[i].id == id
  }

  predicate HoldsRaidleadName(m: Member)
  {
    exists i :: 0 <= i < |m.roles| && Lower(if m.roles[i].name.Some? then m.roles[i].name.value else "") == "raidlead"
  }

  /** `hasRaidleadRole`: the configured role id if one is set, else a role named "raidlead" in any case. */
  predicate HasRaidleadRole(m: Member, configured: Option<string>)
  {
    if WantedRoleId(configured) != "" then HoldsRoleId(m, WantedRoleId(configured))
    else HoldsRaidleadName(m)
  }

  /** With a role id configured, a role merely named "raidlead" makes no one a lead. */
  lemma ConfiguredIdIgnoresNames(m: Member, configured: Option<string>, other: string, name: string)
    requires WantedRoleId(configured) != "" && other != WantedRoleId(configured)
    ensures HasRaidleadRole(m.(roles := m.roles + [Role(other, Some(name))]), configured) == HasRaidleadRole(m, configured)
  {
    var m2 := m.(roles := m.roles + [Role(other, Some(name))]);
    var w := WantedRoleId(configured);
    assert HasRaidleadRole(m, configured) == HoldsRoleId(m, w);
    assert HasRaidleadRole(m2, configured) == HoldsRoleId(m2, w);
    if HoldsRoleId(m, w) {
      var i :| 0 <= i < |m.roles| && m.roles[i].id == w;
      assert m2.roles[i] == m.roles[i];
    }
    if HoldsRoleId(m2, w) {
      var j :| 0 <= j < |m2.roles| && m2.roles[j].id == w;
      assert j < |m.roles| && m.roles[j] == m2.roles[j];
    }
  }

  /** Without a configured id, the role name decides regardless of case. */
  lemma RoleNameAnyCase(m: Member, configured: Option<string>, i: nat)
    requires WantedRoleId(configured) == "" && i < |m.roles|
    requires m.roles[i].name.Some? && Lower(m.roles[i].name.value) == "raidlead"
    ensures HasRaidleadRole(m, configured)
  {
  }

  predicate IsListedLead(m: Member, configured: Option<string>)
  {
    !m.bot && HasRaidleadRole(m, configured)
  }

  /** The entry `listRaidleads` pushes for a member. */
  function LeadOf(m: Member): Lead
  {
    Lead(m.userId, m.username, if m.displayName != "" then m.displayName else m.username, m.avatar)
  }

  /** The leads in member order, before sorting. */
  function Collected(ms: seq<Member>, configured: Option<string>): (r: seq<Lead>)
    ensures |r| <= |ms|
  {
    if ms == [] then []
    else
      Collected(ms[..|ms| - 1], configured) + (if IsListedLead(ms[|ms| - 1], configured) then [LeadOf(ms[|ms| - 1])] else [])
  }

  /** A lead is collected exactly when some listed member produces it. */
  lemma {:induction false} CollectedMembers(ms: seq<Member>, configured: Option<string>)
    ensures forall l :: l in Collected(ms, configured) <==> exists m :: m in ms && IsListedLead(m, configured) && l == LeadOf(m)
  {
    if ms != [] {
      var init := ms[..|ms| - 1];
      var last := ms[|ms| - 1];
      assert ms == init + [last];
      CollectedMembers(init, configured);
    }
  }

  predicate ByName(a: Lead, b: Lead)
  {
    StrLe(a.displayName, b.displayName)
  }

  lemma ByNameTotal()
    ensures Order.Total(ByName)
  {
    forall a: Lead, b: Lead ensures ByName(a, b) || ByName(b, a) {
      StrLeTotal(a.displayName, b.displayName);
    }
  }

  lemma ByNameTransitive()
    ensures Order.Transitive(ByName)
  {
    forall a: Lead, b: Lead, c: Lead ensures Order.Chains(ByName, a, b, c) {
      StrLeTransitive(a.displayName, b.displayName, c.displayName);
    }
  }

  /**
   * `listRaidleads`: every non-bot member with the raid-lead role, once
   * per member, sorted by display name; leads with the same display name
   * keep member order, as `Array.prototype.sort` is stable.
   */
  method ListRaidleads(members: seq<Member>, configured: Option<string>) returns (leads: seq<Lead>)
    ensures Order.Sorted(leads, ByName)
    ensures multiset(leads) == multiset(Collected(members, configured))
    ensures forall l :: l in leads <==> exists m :: m in members && IsListedLead(m, configured) && l == LeadOf(m)
    ensures forall x :: Order.Peers(leads, ByName, x) == Order.Peers(Collected(members, configured), ByName, x)
  {
    var acc := CollectLeads(members, configured);
    ByNameTotal();
    ByNameTransitive();
    leads := Order.SortBy(acc, ByName);
    forall x ensures Order.Peers(leads, ByName, x) == Order.Peers(acc, ByName, x) {
      Order.SortByStable(acc, ByName, x);
    }
    Order.SameElements(leads, acc);
    CollectedMembers(members, configured);
  }

  /** The loop of `listRaidleads`: the leads in member order. */
  method CollectLeads(members: seq<Member>, configured: Option<string>) returns (acc: seq<Lead>)
    ensures acc == Collected(members, configured)
  {
    acc := [];
    var i := 0;
    while i < |members|
      invariant 0 <= i <= |members|
      invariant acc == Collected(members[..i], configured)
    {
      assert members[..i + 1][..i] == members[..i];
      if IsListedLead(members[i], configured) {
        acc := acc + [LeadOf(members[i])];
      }
      i := i + 1;
    }
    assert members[..i] == members;
  }

  /** `weekdayAbbr`: capitalised, "undefined" for an invalid date. */
  function WeekdayAbbr(w: Channels.When, tz: int): (r: string)
    ensures w.At? ==> |r| == 3 && 'A' <= r[0] <= 'Z'
    ensures w.InvalidDate? ==> r == "undefined"
  {
    if w.InvalidDate? then "undefined"
    else
      var abbr := ["Sun", "Mon", "Tue", "Wed", "Thu", "Fri", "Sat"];
      var d := Calendar.Weekday(w.t, tz);
      assert forall k :: 0 <= k < 7 ==> |abbr[k]| == 3 && 'A' <= abbr[k][0] <= 'Z';
      abbr[d]
  }

  /** The service's abbreviations are nameFormat's with a capital first letter. */
  lemma WeekdayAbbrLowered(t: int, tz: int)
    ensures Lower(WeekdayAbbr(Channels.At(t), tz)) == NameFormat.DayName(Calendar.Weekday(t, tz))
  {
    var d := Calendar.Weekday(t, tz);
    var a := WeekdayAbbr(Channels.At(t), tz);
    var n := NameFormat.DayName(d);
    assert |Lower(a)| == 3;
    if d == 0 { assert a == "Sun" && n == "sun"; }
    else if d == 1 { assert a == "Mon" && n == "mon"; }
    else if d == 2 { assert a == "Tue" && n == "tue"; }
    else if d == 3 { assert a == "Wed" && n == "wed"; }
    else if d == 4 { assert a == "Thu" && n == "thu"; }
    else if d == 5 { assert a == "Fri" && n == "fri"; }
    else { assert a == "Sat" && n == "sat"; }
  }

  /** `${pad2(hours)}${pad2(minutes)}`: "NaNNaN" for an invalid date. */
  function Clock(w: Channels.When, tz: int): (r: string)
    ensures w.At? ==> |r| == 4 && AllDigits(r)
    ensures w.At? ==> DigitsValue(r[..2]) == Calendar.Hours(w.t, tz) && DigitsValue(r[2..]) == Calendar.Minutes(w.t, tz)
    ensures w.InvalidDate? ==> r == "NaNNaN"
  {
    if w.InvalidDate? then "NaNNaN" else NameFormat.Hhmm(None, w.t, tz)
  }

  /** `diffSlug`: normal, heroic and mythic give nhc, hc and m; anything else is kept lowered; empty is nhc. */
  function DiffSlug(difficulty: Option<string>): (r: string)
    ensures r != ""
    ensures !NonEmpty(difficulty) ==> r == "nhc"
    ensures NonEmpty(difficulty) && Lower(difficulty.value) == "normal" ==> r == "nhc"
    ensures NonEmpty(difficulty) && Lower(difficulty.value) == "heroic" ==> r == "hc"
    ensures NonEmpty(difficulty) && Lower(difficulty.value) == "mythic" ==> r == "m"
    ensures NonEmpty(difficulty) && Lower(difficulty.value) !in {"normal", "heroic", "mythic"} ==>
      r == Lower(difficulty.value)
  {
    var d := if NonEmpty(difficulty) then Lower(difficulty.value) else "";
    if d == "normal" then "nhc"
    else if d == "heroic" then "hc"
    else if d == "mythic" then "m"
    else if d != "" then d
    else "nhc"
  }

  /** `lootSlug`: saved, unsaved or vip, whatever the input. */
  function LootSlug(lootType: Option<string>): (r: string)
    ensures r in {"saved", "unsaved", "vip"}
    ensures NonEmpty(lootType) && Lower(lootType.value) in {"saved", "unsaved", "vip"} ==> r == Lower(lootType.value)
    ensures !(NonEmpty(lootType) && Lower(lootType.value) in {"saved", "unsaved"}) ==> r == "vip"
  {
    var l := if NonEmpty(lootType) then Lower(lootType.value) else "";
    if l == "saved" then "saved"
    else if l == "unsaved" then "unsaved"
    else "vip"
  }

  /**
   * `slugifyName`: trimmed, lowered, whitespace runs to `-`, characters
   * outside `a-z0-9-` removed, dash runs collapsed, cut to 30; "lead" when
   * nothing is left.
   */
  function SlugifyName(name: Option<string>): (r: string)
    ensures r != [] && |r| <= 30 && DashWords(r)
    ensures !NonEmpty(name) ==> r == "lead"
  {
    var e := NameChars(if NonEmpty(name) then name.value else "");
    NameCharsAreDashWords(if NonEmpty(name) then name.value else "");
    var f := Take(e, 30);
    InfixKeepsDashWords(e, 0, |f|);
    assert e[0..] == e;
    if f == "" then LeadWord() else f
  }

  /** The slug of `slugifyName` before the cut. */
  function NameChars(s: string): string
  {
    var c := ReplaceRuns(Lower(Trim(s)), Whitespace, '-');
    ReplaceRuns(RemoveClass(c, NotLowerAlnumOrDash), Dash, '-')
  }

  /** The slug before the cut is dash-separated lower-case words. */
  lemma NameCharsAreDashWords(s: string)
    ensures DashWords(NameChars(s))
  {
    var d := RemoveClass(ReplaceRuns(Lower(Trim(s)), Whitespace, '-'), NotLowerAlnumOrDash);
    CollapseDashesKeepsChars(d);
  }

  function LeadWord(): (r: string)
    ensures r == "lead" && DashWords(r)
  {
    var w := "lead";
    assert forall i :: 0 <= i < |w| ==> IsLowerAlnum(w[i]);
    w
  }

  /** A name of up to 30 letters and digits slugs to its lower case. */
  lemma SlugifyNameOfWord(s: string)
    requires 1 <= |s| <= 30 && forall i :: 0 <= i < |s| ==> IsAsciiAlnum(s[i])
    ensures SlugifyName(Some(s)) == Lower(s)
  {
    NameCharsOfWord(s);
  }

  lemma NameCharsOfWord(s: string)
    requires 1 <= |s| && forall i :: 0 <= i < |s| ==> IsAsciiAlnum(s[i])
    ensures NameChars(s) == Lower(s)
  {
    NameCharsSkipsTrim(s);
    NameStagesKeepWord(s);
  }

  /** Each stage of the slug leaves a lowered word of letters and digits alone. */
  lemma NameStagesKeepWord(s: string)
    requires forall i :: 0 <= i < |s| ==> IsAsciiAlnum(s[i])
    ensures ReplaceRuns(RemoveClass(ReplaceRuns(Lower(s), Whitespace, '-'), NotLowerAlnumOrDash), Dash, '-') == Lower(s)
  {
    LowerOfWord(s);
    var l := Lower(s);
    forall i | 0 <= i < |l| ensures !In(Whitespace, l[i]) && !In(NotLowerAlnumOrDash, l[i]) && !In(Dash, l[i]) {
      AlnumNotWs(l[i]);
    }
    ReplaceRunsNoHit(l, Whitespace, '-');
    RemoveClassNoHit(l, NotLowerAlnumOrDash);
    ReplaceRunsNoHit(l, Dash, '-');
  }

  /** A word has no surrounding whitespace to trim. */
  lemma NameCharsSkipsTrim(s: string)
    requires 1 <= |s| && forall i :: 0 <= i < |s| ==> IsAsciiAlnum(s[i])
    ensures NameChars(s) == ReplaceRuns(RemoveClass(ReplaceRuns(Lower(s), Whitespace, '-'), NotLowerAlnumOrDash), Dash, '-')
  {
    TrimOfWord(s);
  }

  lemma TrimOfWord(s: string)
    requires 1 <= |s| && forall i :: 0 <= i < |s| ==> IsAsciiAlnum(s[i])
    ensures Trim(s) == s
  {
    assert IsAsciiAlnum(s[0]) && IsAsciiAlnum(s[|s| - 1]);
    TrimNoOp(s);
  }

  /** The options of `createRaidTextChannel`. */
  datatype Opts = Opts(
    date: Channels.When, difficulty: Option<string>, lootType: Option<string>,
    leadUserId: Option<string>, leadDisplayName: Option<string>)

  /** `${day}-${hh}${mm}-${diff}-${loot}-${leadSlug}`, not cut. */
  function ChannelName(opts: Opts, tz: int): (r: string)
    ensures StartsWith(r, WeekdayAbbr(opts.date, tz) + "-" + Clock(opts.date, tz) + "-")
    ensures EndsWith(r, "-" + SlugifyName(opts.leadDisplayName))
    ensures r == WeekdayAbbr(opts.date, tz) + "-" + Clock(opts.date, tz) + "-" + DiffSlug(opts.difficulty) + "-"
                 + LootSlug(opts.lootType) + "-" + SlugifyName(opts.leadDisplayName)
  {
    JoinDashedIs(WeekdayAbbr(opts.date, tz), Clock(opts.date, tz), DiffSlug(opts.difficulty),
      LootSlug(opts.lootType), SlugifyName(opts.leadDisplayName));
    JoinDashed(WeekdayAbbr(opts.date, tz), Clock(opts.date, tz), DiffSlug(opts.difficulty),
      LootSlug(opts.lootType), SlugifyName(opts.leadDisplayName))
  }

  /** The documented format: Wednesday 18:00, Normal, VIP, lead "Syntax". */
  lemma DocumentedName(opts: Opts, tz: int)
    requires opts.date.At? && Calendar.Weekday(opts.date.t, tz) == 3
    requires Calendar.Hours(opts.date.t, tz) == 18 && Calendar.Minutes(opts.date.t, tz) == 0
    requires opts.difficulty == Some("Normal") && opts.lootType == Some("VIP") && opts.leadDisplayName == Some("Syntax")
    ensures ChannelName(opts, tz) == "Wed-1800-nhc-vip-syntax"
  {
    ExampleFields(opts, tz);
    ExampleJoined(WeekdayAbbr(opts.date, tz), Clock(opts.date, tz), DiffSlug(opts.difficulty),
      LootSlug(opts.lootType), SlugifyName(opts.leadDisplayName));
  }

  lemma ExampleFields(opts: Opts, tz: int)
    requires opts.date.At? && Calendar.Weekday(opts.date.t, tz) == 3
    requires Calendar.Hours(opts.date.t, tz) == 18 && Calendar.Minutes(opts.date.t, tz) == 0
    requires opts.difficulty == Some("Normal") && opts.lootType == Some("VIP") && opts.leadDisplayName == Some("Syntax")
    ensures WeekdayAbbr(opts.date, tz) == "Wed"
    ensures Clock(opts.date, tz) == "1800"
    ensures DiffSlug(opts.difficulty) == "nhc"
    ensures LootSlug(opts.lootType) == "vip"
    ensures SlugifyName(opts.leadDisplayName) == "syntax"
  {
    ExampleDay(opts.date, tz);
    ExampleClock(Clock(opts.date, tz));
    ExampleDiff(opts.difficulty.value);
    ExampleLoot(opts.lootType.value);
    ExampleLead(opts.leadDisplayName.value);
  }

  lemma ExampleDay(w: Channels.When, tz: int)
    requires w.At? && Calendar.Weekday(w.t, tz) == 3
    ensures WeekdayAbbr(w, tz) == "Wed"
  {
  }

  lemma ExampleDiff(w: string)
    requires w == "Normal"
    ensures DiffSlug(Some(w)) == "nhc"
  {
    ExampleLower(w, "normal");
  }

  lemma ExampleLoot(w: string)
    requires w == "VIP"
    ensures LootSlug(Some(w)) == "vip"
  {
    ExampleLower(w, "vip");
  }

  lemma ExampleClock(r: string)
    requires |r| == 4 && AllDigits(r) && DigitsValue(r[..2]) == 18 && DigitsValue(r[2..]) == 0
    ensures r == "1800"
  {
    var h := r[..2];
    var m := r[2..];
    assert DigitsValue(h) == DigitsValue(h[..1]) * 10 + DigitValue(h[1]);
    assert h[..1][..0] == [];
    assert m[..1][..0] == [];
    assert r == h + m;
  }

  lemma ExampleLower(w: string, l: string)
    requires (w == "Normal" && l == "normal") || (w == "VIP" && l == "vip") || (w == "Syntax" && l == "syntax")
    ensures Lower(w) == l
  {
  }

  lemma ExampleLead(w: string)
    requires w == "Syntax"
    ensures SlugifyName(Some(w)) == "syntax"
  {
    SlugifyNameOfWord(w);
    ExampleLower(w, "syntax");
  }

  lemma ExampleJoined(a: string, b: string, c: string, d: string, e: string)
    requires a == "Wed" && b == "1800" && c == "nhc" && d == "vip" && e == "syntax"
    ensures JoinDashed(a, b, c, d, e) == "Wed-1800-nhc-vip-syntax"
  {
  }

  /**
   * `createRaidTextChannel`: creates a text channel with the composed name,
   * passing the configured category id as its parent whenever one is set.
   * Discord refuses a parent that is not a category of the guild, and the
   * rejected call throws; `ready` says whether the client and guild could be
   * reached, and `createOk` whether Discord accepts the create for every
   * other reason it may refuse one (the bot's permissions, the overwrite
   * ids). A thrown call is `None` and creates nothing.
   */
  method CreateRaidTextChannel(g: Registry, opts: Opts, tz: int, categoryId: string, ready: bool, createOk: bool)
    returns (r: Option<(string, string)>)
    requires g.Valid()
    modifies g
    ensures g.Valid() && g.messages == old(g.messages)
    ensures r.None? <==> !ready || (categoryId != "" && CategoryById(old(g.channels), categoryId).None?) || !createOk
    ensures r.None? ==> g.channels == old(g.channels)
    ensures r.Some? ==>
      && |g.channels| == |old(g.channels)| + 1 && g.channels[..|old(g.channels)|] == old(g.channels)
      && var c := g.channels[|old(g.channels)|];
      && c.name == ChannelName(opts, tz) && c.kind == TextChannel && c.id == old(g.nextId)
      && (categoryId == "" ==> c.parent.None?)
      && (categoryId != "" ==> c.parent == CategoryById(old(g.channels), categoryId))
      && r == Some((SnowflakeText(c.id), c.name))
  {
    if !ready {
      return None;
    }
    var parent: Option<nat> := None;
    if categoryId != "" {
      parent := CategoryById(g.channels, categoryId);
      if parent.None? {
        return None;
      }
    }
    if !createOk {
      return None;
    }
    var c := g.Create(ChannelName(opts, tz), TextChannel, parent);
    return Some((SnowflakeText(c.id), c.name));
  }
}
