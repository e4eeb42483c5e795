/**
 * Raid channels as discord/channels.js names, creates, announces and
 * deletes them. The guild is the channel registry of module Guild; whether
 * the bot is ready, whether the guild id is configured and whether the bot
 * may manage channels are parameters.
 */
module Channels {
  import opened Common
  import opened Text
  import Calendar
  import NameFormat
  import opened Guild

  /** `new Date(raid.date)`: a valid instant or an invalid date (a null date is the instant 0). */
  datatype When = At(t: int) | InvalidDate

  /** The raid fields these functions read; a falsy `channelId` is "". */
  datatype Raid = Raid(
    title: string, date: When, difficulty: string, lootType: string,
    bosses: Option<int>, lead: Option<string>, channelId: string)

  /** The member display names and user names the lead slug can look up, by user id. */
  datatype Directory = Directory(displayNames: map<string, string>, usernames: map<string, string>)

  /** The configuration and reachability the channel operations depend on. */
  datatype Env = Env(ready: bool, guildSet: bool, canManage: bool, categoryId: string, tz: int)

  /** Why getting the channel failed: a missing bot, guild id or permission, or a rejected Discord call. */
  datatype Failure = BotUnavailable | NoGuildId | MissingManageChannels | CreateRejected | SendRejected

  /** A call that returned a value, or one whose promise was rejected. */
  datatype Outcome = Returned(ok: bool) | Threw

  /** `slug(s, max)`: the dash slug cut to `max` characters. */
  function Slug(s: string, max: nat): (r: string)
    ensures |r| <= max
    ensures DashWords(r) && (r == [] || r[0] != '-')
    ensures IsPrefix(r, DashSlug(s))
    ensures |DashSlug(s)| <= max ==> r == DashSlug(s)
  {
    var t := DashSlug(s);
    TakeOfSlug(t, max);
    Take(t, max)
  }

  predicate IsPrefix(p: string, s: string)
  {
    |p| <= |s| && s[..|p|] == p
  }

  /** `diffSlug`: prefixes myth, hero and norm in any case give my, hc and nm. */
  function DiffSlug(x: string): (r: string)
    ensures StartsWith(Lower(x), "myth") ==> r == "my"
    ensures StartsWith(Lower(x), "hero") ==> r == "hc"
    ensures StartsWith(Lower(x), "norm") ==> r == "nm"
    ensures !StartsWith(Lower(x), "myth") && !StartsWith(Lower(x), "hero") && !StartsWith(Lower(x), "norm")
      ==> r == Slug(Lower(x), 100)
    ensures |r| <= 100 && DashWords(r)
  {
    var s := Lower(x);
    if StartsWith(s, "myth") then NameFormat.Code("my")
    else if StartsWith(s, "hero") then NameFormat.Code("hc")
    else if StartsWith(s, "norm") then NameFormat.Code("nm")
    else Slug(s, 100)
  }

  /** `lootSlug`: lower case, every whitespace run one `-`. */
  function LootSlug(x: string): (r: string)
    ensures forall i :: 0 <= i < |r| ==> !IsWs(r[i])
    ensures r == [] <==> x == []
  {
    ReplaceRuns(Lower(x), Whitespace, '-')
  }

  /** A loot type without whitespace is only lowered. */
  lemma LootSlugOfWord(x: string)
    requires forall i :: 0 <= i < |x| ==> !IsWs(x[i])
    ensures LootSlug(x) == Lower(x)
  {
    var l := Lower(x);
    forall i | 0 <= i < |l| ensures !In(Whitespace, l[i]) {
      assert l[i] == LowerChar(x[i]);
    }
    ReplaceRunsNoHit(l, Whitespace, '-');
  }

  /**
   * A word, a whitespace run and the rest: the word lowered, one `-`, then
   * the rest's loot slug. Applied run by run, this is the whole of `lootSlug`.
   */
  lemma LootSlugSplit(a: string, ws: string, b: string)
    requires forall i :: 0 <= i < |a| ==> !IsWs(a[i])
    requires ws != [] && forall i :: 0 <= i < |ws| ==> IsWs(ws[i])
    requires b == [] || !IsWs(b[0])
    ensures LootSlug(a + ws + b) == Lower(a) + "-" + LootSlug(b)
  {
    var la, lw, lb := Lower(a), Lower(ws), Lower(b);
    LowerAppend(a, ws);
    LowerAppend(a + ws, b);
    forall i | 0 <= i < |la| ensures !In(Whitespace, la[i]) {
      LowerKeepsWs(a[i]);
    }
    forall i | 0 <= i < |lw| ensures In(Whitespace, lw[i]) {
      LowerKeepsWs(ws[i]);
    }
    if b != [] {
      LowerKeepsWs(b[0]);
    }
    ReplaceRunsSplit(la, lw, lb, Whitespace, '-');
  }

  lemma LowerAppend(x: string, y: string)
    ensures Lower(x + y) == Lower(x) + Lower(y)
  {
    assert forall i :: 0 <= i < |x + y| ==> Lower(x + y)[i] == (Lower(x) + Lower(y))[i];
  }

  lemma LowerKeepsWs(c: char)
    ensures IsWs(LowerChar(c)) <==> IsWs(c)
  {
  }

  /** `String(userId)` for a stored lead: a null lead prints "null". */
  function IdString(id: Option<string>): string
  {
    if id.Some? then id.value else "null"
  }

  /** `resolveLeadDisplaySlug`: the member's display name, else the user name, else the id, each slugged. */
  function ResolveLeadDisplaySlug(dir: Directory, userId: Option<string>): (r: string)
    ensures |r| <= 100 && DashWords(r)
    ensures userId.Some? && userId.value in dir.displayNames && dir.displayNames[userId.value] != ""
      ==> r == Slug(dir.displayNames[userId.value], 100)
    ensures userId.Some? && !(userId.value in dir.displayNames && dir.displayNames[userId.value] != "")
      && userId.value in dir.usernames && dir.usernames[userId.value] != ""
      ==> r == Slug(dir.usernames[userId.value], 100)
    ensures !(userId.Some? && userId.value in dir.displayNames && dir.displayNames[userId.value] != "")
      && !(userId.Some? && userId.value in dir.usernames && dir.usernames[userId.value] != "")
      ==> r == Slug(IdString(userId), 100)
  {
    if userId.Some? && userId.value in dir.displayNames && dir.displayNames[userId.value] != "" then
      Slug(dir.displayNames[userId.value], 100)
    else if userId.Some? && userId.value in dir.usernames && dir.usernames[userId.value] != "" then
      Slug(dir.usernames[userId.value], 100)
    else Slug(IdString(userId), 100)
  }

  /** A lead id nobody resolves names the channel itself. */
  lemma LeadSlugFallsBackToId(dir: Directory, id: string)
    requires id !in dir.displayNames && id !in dir.usernames
    requires 1 <= |id| <= 100 && AllDigits(id)
    ensures ResolveLeadDisplaySlug(dir, Some(id)) == id
  {
    assert ResolveLeadDisplaySlug(dir, Some(id)) == Slug(id, 100);
    assert forall i :: 0 <= i < |id| ==> IsAsciiAlnum(id[i]);
    DashSlugOfWord(id);
    LowerOfDigits(id);
  }

  /** A raid without a lead id names the channel after the text "null". */
  lemma NullLeadSlug(dir: Directory)
    ensures ResolveLeadDisplaySlug(dir, None) == "null"
  {
    assert IdString(None) == "null";
    NullSlug();
  }

  lemma NullSlug()
    ensures Slug("null", 100) == "null"
  {
    var n := "null";
    assert forall i :: 0 <= i < |n| ==> 'a' <= n[i] <= 'z';
    DashSlugOfWord(n);
    LowerOfLowerCase(n);
  }

  lemma LowerOfLowerCase(s: string)
    requires forall i :: 0 <= i < |s| ==> 'a' <= s[i] <= 'z'
    ensures Lower(s) == s
  {
  }

  lemma LowerOfDigits(s: string)
    requires AllDigits(s)
    ensures Lower(s) == s
  {
  }

  /** `day`: the weekday's abbreviation, "day" for an invalid date. */
  function DayPart(w: When, tz: int): (r: string)
    ensures |r| == 3
    ensures w.InvalidDate? ==> r == "day"
  {
    if w.InvalidDate? then "day" else NameFormat.DayName(Calendar.Weekday(w.t, tz))
  }

  /** `${hh}${mm}`: the local clock time, "0000" for an invalid date. */
  function TimePart(w: When, tz: int): (r: string)
    ensures |r| == 4 && AllDigits(r)
    ensures w.InvalidDate? ==> r == "0000"
    ensures w.At? ==> DigitsValue(r[..2]) == Calendar.Hours(w.t, tz) && DigitsValue(r[2..]) == Calendar.Minutes(w.t, tz)
  {
    if w.InvalidDate? then "0000" else NameFormat.Hhmm(None, w.t, tz)
  }

  /** The name before the cut to 95 characters, for a given difficulty code. */
  function Untruncated(raid: Raid, diff: string, leadSlug: string, tz: int): string
  {
    JoinDashed(DayPart(raid.date, tz), TimePart(raid.date, tz), diff, LootSlug(raid.lootType), leadSlug)
  }

  /** The cut every builder applies: `.slice(0, 95)`. */
  function Cut95(full: string): (r: string)
    ensures |r| <= 95 && |r| <= |full| && r == full[..|r|]
    ensures |full| <= 95 ==> r == full
    ensures |full| >= 95 ==> |r| == 95
  {
    Take(full, 95)
  }

  /** The cut keeps any prefix of at most 95 characters. */
  lemma CutKeepsPrefix(full: string, p: string)
    requires StartsWith(full, p) && |p| <= 95
    ensures StartsWith(Cut95(full), p)
  {
    var r := Cut95(full);
    assert r[..|p|] == full[..|r|][..|p|] == full[..|p|];
  }

  /** `buildChannelName`: `day-HHmm-diff-loot-lead`, at most 95 characters. */
  function BuildChannelName(raid: Raid, leadSlug: string, tz: int): (r: string)
    ensures |r| <= 95
    ensures StartsWith(r, DayPart(raid.date, tz) + "-" + TimePart(raid.date, tz) + "-")
    ensures |Untruncated(raid, DiffSlug(raid.difficulty), leadSlug, tz)| <= 95 ==> EndsWith(r, "-" + leadSlug)
    ensures var full := DayPart(raid.date, tz) + "-" + TimePart(raid.date, tz) + "-" + DiffSlug(raid.difficulty) + "-"
                        + LootSlug(raid.lootType) + "-" + leadSlug;
      && (|full| <= 95 ==> r == full)
      && (|full| > 95 ==> r == full[..95])
  {
    var full := Untruncated(raid, DiffSlug(raid.difficulty), leadSlug, tz);
    JoinDashedIs(DayPart(raid.date, tz), TimePart(raid.date, tz), DiffSlug(raid.difficulty), LootSlug(raid.lootType), leadSlug);
    CutKeepsPrefix(full, DayPart(raid.date, tz) + "-" + TimePart(raid.date, tz) + "-");
    Cut95(full)
  }

  /** An invalid date gives the prefix "day-0000-". */
  lemma InvalidDatePrefix(raid: Raid, leadSlug: string, tz: int)
    requires raid.date.InvalidDate?
    ensures StartsWith(BuildChannelName(raid, leadSlug, tz), "day-0000-")
  {
    var d, t := DayPart(raid.date, tz), TimePart(raid.date, tz);
    assert d == "day" && t == "0000";
    assert d + "-" + t + "-" == "day-0000-";
  }

  /** The name `getOrCreateRaidChannel` and the name fallback of `deleteRaidChannel` look for. */
  function ChannelNameFor(raid: Raid, dir: Directory, tz: int): string
  {
    BuildChannelName(raid, ResolveLeadDisplaySlug(dir, raid.lead), tz)
  }

  /** The bot, the guild id and the Manage Channels permission are all there. */
  predicate Reachable(env: Env)
  {
    env.ready && env.guildSet && env.canManage
  }

  /**
   * A channel named `name` can be had: the guild is reachable, and either a
   * text channel has the name or Discord accepts creating one (`createOk`).
   */
  predicate Obtainable(chs: seq<Channel>, name: string, env: Env, createOk: bool)
  {
    Reachable(env) && (FindText(chs, name).Some? || createOk)
  }

  /**
   * The body of `getOrCreateRaidChannel` once the name is known: fail
   * without a bot, a guild id or the Manage Channels permission, else the
   * existing text channel of that name or a new one under the configured
   * category. `createOk` says whether `guild.channels.create` resolves; a
   * rejected create is passed on to the caller.
   */
  method GetOrCreateNamed(g: Registry, name: string, env: Env, createOk: bool) returns (r: Result<Channel, Failure>)
    requires g.Valid()
    modifies g
    ensures g.Valid() && g.messages == old(g.messages)
    ensures !env.ready ==> r == Err(BotUnavailable)
    ensures env.ready && !env.guildSet ==> r == Err(NoGuildId)
    ensures env.ready && env.guildSet && !env.canManage ==> r == Err(MissingManageChannels)
    ensures Reachable(env) && old(FindText(g.channels, name)).None? && !createOk ==> r == Err(CreateRejected)
    ensures r.Ok? <==> old(Obtainable(g.channels, name, env, createOk))
    ensures r.Err? ==> g.channels == old(g.channels) && g.nextId == old(g.nextId)
    ensures r.Ok? ==> FindText(g.channels, name) == Some(r.value)
    ensures r.Ok? && old(FindText(g.channels, name)).Some? ==>
      r.value == old(FindText(g.channels, name)).value && g.channels == old(g.channels)
    ensures r.Ok? && old(FindText(g.channels, name)).None? ==>
      && r.value == Channel(old(g.nextId), name, TextChannel, CategoryById(old(g.channels), env.categoryId))
      && g.channels == old(g.channels) + [r.value]
  {
    if !env.ready {
      return Err(BotUnavailable);
    }
    if !env.guildSet {
      return Err(NoGuildId);
    }
    if !env.canManage {
      return Err(MissingManageChannels);
    }
    if FindText(g.channels, name).None? && !createOk {
      return Err(CreateRejected);
    }
    var c := g.FindOrCreateText(name, CategoryById(g.channels, env.categoryId));
    return Ok(c);
  }

  /** `getOrCreateRaidChannel`: idempotent by exact name. */
  method GetOrCreateRaidChannel(g: Registry, raid: Raid, dir: Directory, env: Env, createOk: bool) returns (r: Result<Channel, Failure>)
    requires g.Valid()
    modifies g
    ensures g.Valid() && g.messages == old(g.messages)
    ensures r.Ok? <==> old(Obtainable(g.channels, ChannelNameFor(raid, dir, env.tz), env, createOk))
    ensures r.Err? ==> g.channels == old(g.channels)
    ensures r.Ok? ==> FindText(g.channels, ChannelNameFor(raid, dir, env.tz)) == Some(r.value)
    ensures r.Ok? && old(FindText(g.channels, ChannelNameFor(raid, dir, env.tz))).Some? ==>
      r.value == old(FindText(g.channels, ChannelNameFor(raid, dir, env.tz))).value && g.channels == old(g.channels)
    ensures r.Ok? && old(FindText(g.channels, ChannelNameFor(raid, dir, env.tz))).None? ==>
      && r.value == Channel(old(g.nextId), ChannelNameFor(raid, dir, env.tz), TextChannel, CategoryById(old(g.channels), env.categoryId))
      && g.channels == old(g.channels) + [r.value]
  {
    var name := ChannelNameFor(raid, dir, env.tz);
    r := GetOrCreateNamed(g, name, env, createOk);
  }

  /** Mythic with a truthy boss count: the only case that shows `(n/8)`. */
  predicate ShowsBosses(raid: Raid)
  {
    raid.difficulty == "Mythic" && raid.bosses.Some? && raid.bosses.value != 0
  }

  /** The five lines of the announcement; `localWhen` is the locale rendering of a valid date. */
  function AnnouncementLines(raid: Raid, localWhen: string): (lines: seq<string>)
    ensures |lines| == 5
    ensures lines[1] == "\U{2022} Difficulty: " + raid.difficulty <==> !ShowsBosses(raid)
    ensures lines[4] == "" <==> !NonEmpty(raid.lead)
  {
    var boss := if ShowsBosses(raid) then " (" + IntToString(raid.bosses.value) + "/8)" else "";
    var dt := if raid.date.InvalidDate? then "-" else localWhen;
    var lead := if NonEmpty(raid.lead) then "\U{2022} Lead: <@" + raid.lead.value + ">" else "";
    var diffLine := "\U{2022} Difficulty: " + raid.difficulty + boss;
    assert |diffLine| == |"\U{2022} Difficulty: " + raid.difficulty| + |boss|;
    [ "**" + raid.title + "**",
      diffLine,
      "\U{2022} Loot: " + raid.lootType,
      "\U{2022} Datum: " + dt,
      lead ]
  }

  /** The content `postRaidAnnouncement` sends: the lines, each but the last ended by a line break. */
  function AnnouncementContent(raid: Raid, localWhen: string): string
  {
    Join(AnnouncementLines(raid, localWhen), "\n")
  }

  /** When no field holds a line break, the content splits back into its five lines. */
  lemma AnnouncementSplits(raid: Raid, localWhen: string)
    requires forall i :: 0 <= i < 5 ==> '\n' !in AnnouncementLines(raid, localWhen)[i]
    ensures Split(AnnouncementContent(raid, localWhen), '\n') == AnnouncementLines(raid, localWhen)
  {
    SplitJoin(AnnouncementLines(raid, localWhen), '\n');
  }

  /**
   * Get or create the channel `name`, then send `content` to it.
   * `sendOk` says whether `ch.send` resolves; when it rejects, a channel
   * created on the way stays.
   */
  method PostNamed(g: Registry, name: string, env: Env, content: string, createOk: bool, sendOk: bool)
    returns (r: Result<string, Failure>)
    requires g.Valid()
    modifies g
    ensures g.Valid()
    ensures r.Ok? <==> old(Obtainable(g.channels, name, env, createOk)) && sendOk
    ensures !old(Obtainable(g.channels, name, env, createOk)) ==> g.channels == old(g.channels)
    ensures old(Obtainable(g.channels, name, env, createOk)) ==>
      && (old(FindText(g.channels, name)).Some? ==> g.channels == old(g.channels))
      && (old(FindText(g.channels, name)).None? ==>
            g.channels == old(g.channels) + [Channel(old(g.nextId), name, TextChannel, CategoryById(old(g.channels), env.categoryId))])
    ensures r.Err? ==> g.messages == old(g.messages)
    ensures Reachable(env) && r.Err? ==> r.error == CreateRejected || r.error == SendRejected
    ensures r.Ok? ==>
      && FindText(g.channels, name).Some?
      && r.value == SnowflakeText(FindText(g.channels, name).value.id)
      && g.messages == old(g.messages) + [Message(g.nextId - 1, FindText(g.channels, name).value.id, Content(content))]
  {
    var ch := GetOrCreateNamed(g, name, env, createOk);
    if ch.Err? {
      return Err(ch.error);
    }
    if !sendOk {
      return Err(SendRejected);
    }
    var m := g.Send(ch.value.id, Content(content));
    return Ok(SnowflakeText(ch.value.id));
  }

  /** `postRaidAnnouncement`: get or create the raid's channel, send the announcement, return the channel id. */
  method PostRaidAnnouncement(g: Registry, raid: Raid, dir: Directory, env: Env, localWhen: string, createOk: bool, sendOk: bool)
    returns (r: Result<string, Failure>)
    requires g.Valid()
    modifies g
    ensures g.Valid()
    ensures r.Ok? <==> old(Obtainable(g.channels, ChannelNameFor(raid, dir, env.tz), env, createOk)) && sendOk
    ensures !old(Obtainable(g.channels, ChannelNameFor(raid, dir, env.tz), env, createOk)) ==> g.channels == old(g.channels)
    ensures old(Obtainable(g.channels, ChannelNameFor(raid, dir, env.tz), env, createOk)) ==>
      && (old(FindText(g.channels, ChannelNameFor(raid, dir, env.tz))).Some? ==> g.channels == old(g.channels))
      && (old(FindText(g.channels, ChannelNameFor(raid, dir, env.tz))).None? ==>
            g.channels == old(g.channels) + [Channel(old(g.nextId), ChannelNameFor(raid, dir, env.tz), TextChannel, CategoryById(old(g.channels), env.categoryId))])
    ensures r.Err? ==> g.messages == old(g.messages)
    ensures Reachable(env) && r.Err? ==> r.error == CreateRejected || r.error == SendRejected
    ensures r.Ok? ==>
      && FindText(g.channels, ChannelNameFor(raid, dir, env.tz)).Some?
      && var c := FindText(g.channels, ChannelNameFor(raid, dir, env.tz)).value;
      && r.value == SnowflakeText(c.id)
      && g.messages == old(g.messages) + [Message(g.nextId - 1, c.id, Content(AnnouncementContent(raid, localWhen)))]
  {
    var name := ChannelNameFor(raid, dir, env.tz);
    r := PostNamed(g, name, env, AnnouncementContent(raid, localWhen), createOk, sendOk);
  }

  /**
   * `deleteChannelById`: a rejected promise without the bot, false for an
   * empty or unknown id, and false when `ch.delete` rejects (`deleteOk`).
   */
  method DeleteChannelById(g: Registry, channelId: string, ready: bool, deleteOk: bool) returns (r: Outcome)
    requires g.Valid()
    modifies g
    ensures g.Valid() && g.nextId == old(g.nextId)
    ensures r == Threw <==> !ready
    ensures r == Returned(true) <==> ready && channelId != "" && ChannelById(old(g.channels), channelId).Some? && deleteOk
    ensures r == Returned(true) ==>
      && g.channels == Without(old(g.channels), ChannelById(old(g.channels), channelId).value.id)
      && g.messages == MessagesOutside(old(g.messages), ChannelById(old(g.channels), channelId).value.id)
    ensures r != Returned(true) ==> g.channels == old(g.channels) && g.messages == old(g.messages)
  {
    if !ready {
      return Threw;
    }
    if channelId == "" {
      return Returned(false);
    }
    var ch := ChannelById(g.channels, channelId);
    if ch.None? || !deleteOk {
      return Returned(false);
    }
    g.Delete(ch.value);
    return Returned(true);
  }

  /** The name fallback: delete the first text channel with exactly this name; false when `match.delete` rejects. */
  method DeleteTextNamed(g: Registry, name: string, deleteOk: bool) returns (ok: bool)
    requires g.Valid()
    modifies g
    ensures g.Valid() && g.nextId == old(g.nextId)
    ensures ok <==> old(FindText(g.channels, name)).Some? && deleteOk
    ensures ok ==> g.channels == Without(old(g.channels), old(FindText(g.channels, name)).value.id)
    ensures ok ==> var i := old(FindTextIndex(g.channels, name)).value;
      g.channels == old(g.channels)[..i] + old(g.channels)[i + 1..]
      && FindText(g.channels, name) == FindText(old(g.channels)[i + 1..], name)
    ensures ok ==> g.messages == MessagesOutside(old(g.messages), old(FindText(g.channels, name)).value.id)
    ensures !ok ==> g.channels == old(g.channels) && g.messages == old(g.messages)
  {
    var m := FindText(g.channels, name);
    if m.None? || !deleteOk {
      return false;
    }
    var i := FindTextIndex(g.channels, name).value;
    WithoutAt(g.channels, i);
    FindTextAfterDelete(g.channels, name);
    g.Delete(m.value);
    return true;
  }

  /** The stored channel id deletes its channel: the bot is there, the id names a channel and `ch.delete` resolves. */
  predicate DeletedById(chs: seq<Channel>, channelId: string, ready: bool, byIdOk: bool)
  {
    ready && channelId != "" && ChannelById(chs, channelId).Some? && byIdOk
  }

  /**
   * `deleteRaidChannel`: the stored channel id first; only when that
   * deletes nothing, the channel the raid's name finds. Failures in the
   * fallback give false. `byIdOk` and `byNameOk` say whether the two
   * `delete` calls resolve.
   */
  method DeleteRaidChannel(g: Registry, raid: Raid, dir: Directory, env: Env, byIdOk: bool, byNameOk: bool) returns (r: Outcome)
    requires g.Valid()
    modifies g
    ensures g.Valid() && g.nextId == old(g.nextId)
    ensures r == Threw <==> raid.channelId != "" && !env.ready
    ensures old(DeletedById(g.channels, raid.channelId, env.ready, byIdOk)) ==>
      && r == Returned(true)
      && g.channels == Without(old(g.channels), ChannelById(old(g.channels), raid.channelId).value.id)
      && g.messages == MessagesOutside(old(g.messages), ChannelById(old(g.channels), raid.channelId).value.id)
    ensures env.ready && env.guildSet && !old(DeletedById(g.channels, raid.channelId, env.ready, byIdOk)) ==>
      (r == Returned(true) <==> old(FindText(g.channels, ChannelNameFor(raid, dir, env.tz))).Some? && byNameOk)
    ensures (env.ready && env.guildSet && !old(DeletedById(g.channels, raid.channelId, env.ready, byIdOk))
             && r == Returned(true)) ==>
      && g.channels == Without(old(g.channels), old(FindText(g.channels, ChannelNameFor(raid, dir, env.tz))).value.id)
      && g.messages == MessagesOutside(old(g.messages), old(FindText(g.channels, ChannelNameFor(raid, dir, env.tz))).value.id)
    ensures !env.guildSet && !old(DeletedById(g.channels, raid.channelId, env.ready, byIdOk)) ==>
      r != Returned(true)
    ensures r != Returned(true) ==> g.channels == old(g.channels) && g.messages == old(g.messages)
  {
    if raid.channelId != "" {
      var byId := DeleteChannelById(g, raid.channelId, env.ready, byIdOk);
      if byId == Threw {
        return Threw;
      }
      if byId.ok {
        return Returned(true);
      }
    }
    if !env.ready || !env.guildSet {
      return Returned(false);
    }
    var ok := DeleteTextNamed(g, ChannelNameFor(raid, dir, env.tz), byNameOk);
    return Returned(ok);
  }
}
