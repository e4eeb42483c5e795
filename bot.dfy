/**
 * The raid-channel helpers of discord/bot.js. They repeat those of
 * discord/channels.js with one difference in the slug: an empty name
 * slugs to "unknown". The operations that are written identically in both
 * files are those of module Channels.
 */
module Bot {
  import opened Common
  import opened Text
  import Calendar
  import NameFormat
  import opened Guild
  import Channels

  /** `slugifyForChannel(name, max)`: "unknown" for an empty name, else the dash slug cut to `max`. */
  function SlugifyForChannel(name: string, max: nat): (r: string)
    ensures name == "" ==> r == "unknown"
    ensures name != "" ==> |r| <= max && DashWords(r) && (r == [] || r[0] != '-')
    ensures name != "" ==> r == Channels.Slug(name, max)
  {
    if name == "" then "unknown" else Channels.Slug(name, max)
  }

  /** `resolveLeadDisplaySlug`: the member's display name, else the user name, else the id. */
  function ResolveLeadDisplaySlug(dir: Channels.Directory, userId: Option<string>): (r: string)
    ensures userId.Some? && userId.value in dir.displayNames && dir.displayNames[userId.value] != ""
      ==> r == SlugifyForChannel(dir.displayNames[userId.value], 100)
    ensures userId.Some? && !(userId.value in dir.displayNames && dir.displayNames[userId.value] != "")
      && userId.value in dir.usernames && dir.usernames[userId.value] != ""
      ==> r == SlugifyForChannel(dir.usernames[userId.value], 100)
    ensures !(userId.Some? && userId.value in dir.displayNames && dir.displayNames[userId.value] != "")
      && !(userId.Some? && userId.value in dir.usernames && dir.usernames[userId.value] != "")
      ==> r == SlugifyForChannel(Channels.IdString(userId), 100)
  {
    if userId.Some? && userId.value in dir.displayNames && dir.displayNames[userId.value] != "" then
      SlugifyForChannel(dir.displayNames[userId.value], 100)
    else if userId.Some? && userId.value in dir.usernames && dir.usernames[userId.value] != "" then
      SlugifyForChannel(dir.usernames[userId.value], 100)
    else SlugifyForChannel(Channels.IdString(userId), 100)
  }

  /** The two files give the same lead slug, except for an empty lead id. */
  lemma LeadSlugsAgree(dir: Channels.Directory, userId: Option<string>)
    ensures userId != Some("") ==> ResolveLeadDisplaySlug(dir, userId) == Channels.ResolveLeadDisplaySlug(dir, userId)
    ensures userId == Some("") && "" !in dir.displayNames && "" !in dir.usernames ==>
      ResolveLeadDisplaySlug(dir, userId) == "unknown" && Channels.ResolveLeadDisplaySlug(dir, userId) == ""
  {
    if userId == Some("") && "" !in dir.displayNames && "" !in dir.usernames {
      assert Channels.ResolveLeadDisplaySlug(dir, userId) == Channels.Slug("", 100);
      EmptySlug();
    }
  }

  lemma EmptySlug()
    ensures Channels.Slug("", 100) == ""
  {
    assert Lower("") == "";
    assert DashSlug("") == "";
  }

  /** `difficultySlug`: prefixes myth, hero and norm in any case give my, hc and nm. */
  function DifficultySlug(diff: string): (r: string)
    ensures StartsWith(Lower(diff), "myth") ==> r == "my"
    ensures StartsWith(Lower(diff), "hero") ==> r == "hc"
    ensures StartsWith(Lower(diff), "norm") ==> r == "nm"
    ensures diff == "" ==> r == "unknown"
  {
    var s := Lower(diff);
    if StartsWith(s, "myth") then "my"
    else if StartsWith(s, "hero") then "hc"
    else if StartsWith(s, "norm") then "nm"
    else SlugifyForChannel(s, 100)
  }

  /** bot.js and channels.js agree on every difficulty except the empty one. */
  lemma DifficultySlugsAgree(diff: string)
    ensures diff != "" ==> DifficultySlug(diff) == Channels.DiffSlug(diff)
    ensures diff == "" ==> DifficultySlug(diff) == "unknown" && Channels.DiffSlug(diff) == ""
  {
    if diff == "" {
      assert Lower(diff) == "";
      EmptySlug();
    } else {
      assert |Lower(diff)| == |diff|;
    }
  }

  /** `buildChannelName`: `day-HHmm-diff-loot-lead`, at most 95 characters. */
  function BuildChannelName(raid: Channels.Raid, leadSlug: string, tz: int): (r: string)
    ensures |r| <= 95
    ensures StartsWith(r, Channels.DayPart(raid.date, tz) + "-" + Channels.TimePart(raid.date, tz) + "-")
    ensures |Channels.Untruncated(raid, DifficultySlug(raid.difficulty), leadSlug, tz)| <= 95 ==> EndsWith(r, "-" + leadSlug)
    ensures var full := Channels.DayPart(raid.date, tz) + "-" + Channels.TimePart(raid.date, tz) + "-"
                        + DifficultySlug(raid.difficulty) + "-" + Channels.LootSlug(raid.lootType) + "-" + leadSlug;
      && (|full| <= 95 ==> r == full)
      && (|full| > 95 ==> r == full[..95])
  {
    var full := Channels.Untruncated(raid, DifficultySlug(raid.difficulty), leadSlug, tz);
    JoinDashedIs(Channels.DayPart(raid.date, tz), Channels.TimePart(raid.date, tz), DifficultySlug(raid.difficulty),
      Channels.LootSlug(raid.lootType), leadSlug);
    Channels.CutKeepsPrefix(full, Channels.DayPart(raid.date, tz) + "-" + Channels.TimePart(raid.date, tz) + "-");
    Channels.Cut95(full)
  }

  /** The example in the code: Wednesday 20:00, Heroic, VIP, lead "rikuger". */
  lemma CommentExample(raid: Channels.Raid, leadSlug: string, tz: int)
    requires raid.date.At? && Calendar.Weekday(raid.date.t, tz) == 3
    requires Calendar.Hours(raid.date.t, tz) == 20 && Calendar.Minutes(raid.date.t, tz) == 0
    requires raid.difficulty == "Heroic" && raid.lootType == "VIP" && leadSlug == "rikuger"
    ensures BuildChannelName(raid, leadSlug, tz) == "wed-2000-hc-vip-rikuger"
  {
    ExampleFields(raid, tz);
    ExampleJoined(Channels.DayPart(raid.date, tz), Channels.TimePart(raid.date, tz),
      DifficultySlug(raid.difficulty), Channels.LootSlug(raid.lootType), leadSlug);
  }

  lemma ExampleFields(raid: Channels.Raid, tz: int)
    requires raid.date.At? && Calendar.Weekday(raid.date.t, tz) == 3
    requires Calendar.Hours(raid.date.t, tz) == 20 && Calendar.Minutes(raid.date.t, tz) == 0
    requires raid.difficulty == "Heroic" && raid.lootType == "VIP"
    ensures Channels.DayPart(raid.date, tz) == "wed"
    ensures Channels.TimePart(raid.date, tz) == "2000"
    ensures DifficultySlug(raid.difficulty) == "hc"
    ensures Channels.LootSlug(raid.lootType) == "vip"
  {
    ExampleClock(Channels.TimePart(raid.date, tz));
    ExampleSlugs(raid.difficulty, raid.lootType);
  }

  lemma ExampleSlugs(difficulty: string, lootType: string)
    requires difficulty == "Heroic" && lootType == "VIP"
    ensures DifficultySlug(difficulty) == "hc"
    ensures Channels.LootSlug(lootType) == "vip"
  {
    ExampleDifficulty(difficulty);
    ExampleLoot(lootType);
  }

  lemma ExampleDifficulty(d: string)
    requires d == "Heroic"
    ensures DifficultySlug(d) == "hc"
  {
    ExampleLower(d, "heroic");
    HeroicIsHero(Lower(d));
  }

  lemma HeroicIsHero(s: string)
    requires s == "heroic"
    ensures StartsWith(s, "hero") && !StartsWith(s, "myth")
  {
    assert s[..4] == "hero";
  }

  lemma ExampleLoot(x: string)
    requires x == "VIP"
    ensures Channels.LootSlug(x) == "vip"
  {
    ExampleLower(x, "vip");
    Channels.LootSlugOfWord(x);
  }

  /** Four digits whose halves read 20 and 0 are "2000". */
  lemma ExampleClock(r: string)
    requires |r| == 4 && AllDigits(r) && DigitsValue(r[..2]) == 20 && DigitsValue(r[2..]) == 0
    ensures r == "2000"
  {
    var h := r[..2];
    var m := r[2..];
    assert DigitsValue(h) == DigitsValue(h[..1]) * 10 + DigitValue(h[1]);
    assert h[..1][..0] == [];
    assert m[..1][..0] == [];
    assert r == h + m;
  }

  lemma ExampleLower(w: string, l: string)
    requires (w == "Heroic" && l == "heroic") || (w == "VIP" && l == "vip")
    ensures Lower(w) == l
  {
  }

  lemma ExampleJoined(a: string, b: string, c: string, d: string, e: string)
    requires a == "wed" && b == "2000" && c == "hc" && d == "vip" && e == "rikuger"
    ensures Channels.Cut95(JoinDashed(a, b, c, d, e)) == "wed-2000-hc-vip-rikuger"
  {
  }

  /** The name `getOrCreateRaidChannel` and the name fallback of `deleteRaidChannel` look for. */
  function ChannelNameFor(raid: Channels.Raid, dir: Channels.Directory, tz: int): string
  {
    BuildChannelName(raid, ResolveLeadDisplaySlug(dir, raid.lead), tz)
  }

  /**
   * `getOrCreateRaidChannel`: idempotent by exact name. A rejected
   * `guild.channels.create` (`createOk` false) is logged and rethrown.
   */
  method GetOrCreateRaidChannel(g: Registry, raid: Channels.Raid, dir: Channels.Directory, env: Channels.Env, createOk: bool)
    returns (r: Result<Channel, Channels.Failure>)
    requires g.Valid()
    modifies g
    ensures g.Valid() && g.messages == old(g.messages)
    ensures r.Ok? <==> old(Channels.Obtainable(g.channels, ChannelNameFor(raid, dir, env.tz), env, createOk))
    ensures r.Err? ==> g.channels == old(g.channels)
    ensures r.Ok? ==> FindText(g.channels, ChannelNameFor(raid, dir, env.tz)) == Some(r.value)
    ensures r.Ok? && old(FindText(g.channels, ChannelNameFor(raid, dir, env.tz))).Some? ==>
      r.value == old(FindText(g.channels, ChannelNameFor(raid, dir, env.tz))).value && g.channels == old(g.channels)
    ensures r.Ok? && old(FindText(g.channels, ChannelNameFor(raid, dir, env.tz))).None? ==>
      && r.value == Channel(old(g.nextId), ChannelNameFor(raid, dir, env.tz), TextChannel, CategoryById(old(g.channels), env.categoryId))
      && g.channels == old(g.channels) + [r.value]
  {
    var name := ChannelNameFor(raid, dir, env.tz);
    r := Channels.GetOrCreateNamed(g, name, env, createOk);
  }

  /**
   * `postRaidAnnouncement`: the same content as channels.js, in the channel
   * bot.js names; a rejected `ch.send` (`sendOk` false) rejects the call
   * and leaves a channel created on the way.
   */
  method PostRaidAnnouncement(g: Registry, raid: Channels.Raid, dir: Channels.Directory, env: Channels.Env, localWhen: string,
                              createOk: bool, sendOk: bool)
    returns (r: Result<string, Channels.Failure>)
    requires g.Valid()
    modifies g
    ensures g.Valid()
    ensures r.Ok? <==> old(Channels.Obtainable(g.channels, ChannelNameFor(raid, dir, env.tz), env, createOk)) && sendOk
    ensures !old(Channels.Obtainable(g.channels, ChannelNameFor(raid, dir, env.tz), env, createOk)) ==> g.channels == old(g.channels)
    ensures old(Channels.Obtainable(g.channels, ChannelNameFor(raid, dir, env.tz), env, createOk)) ==>
      && (old(FindText(g.channels, ChannelNameFor(raid, dir, env.tz))).Some? ==> g.channels == old(g.channels))
      && (old(FindText(g.channels, ChannelNameFor(raid, dir, env.tz))).None? ==>
            g.channels == old(g.channels) + [Channel(old(g.nextId), ChannelNameFor(raid, dir, env.tz), TextChannel, CategoryById(old(g.channels), env.categoryId))])
    ensures r.Err? ==> g.messages == old(g.messages)
    ensures r.Ok? ==>
      && FindText(g.channels, ChannelNameFor(raid, dir, env.tz)).Some?
      && var c := FindText(g.channels, ChannelNameFor(raid, dir, env.tz)).value;
      && r.value == SnowflakeText(c.id)
      && g.messages == old(g.messages) + [Message(g.nextId - 1, c.id, Content(Channels.AnnouncementContent(raid, localWhen)))]
  {
    var name := ChannelNameFor(raid, dir, env.tz);
    r := Channels.PostNamed(g, name, env, Channels.AnnouncementContent(raid, localWhen), createOk, sendOk);
  }

  /**
   * `deleteRaidChannel`: the stored channel id first; only when that
   * deletes nothing, the channel the raid's name finds. Without the bot the
   * promise is rejected; without a guild id, or when the fallback's
   * `delete` rejects, the answer is false. `byIdOk` and `byNameOk` say
   * whether the two `delete` calls resolve.
   */
  method DeleteRaidChannel(g: Registry, raid: Channels.Raid, dir: Channels.Directory, env: Channels.Env, byIdOk: bool, byNameOk: bool)
    returns (r: Channels.Outcome)
    requires g.Valid()
    modifies g
    ensures g.Valid() && g.nextId == old(g.nextId)
    ensures r == Channels.Threw <==> !env.ready
    ensures old(Channels.DeletedById(g.channels, raid.channelId, env.ready, byIdOk)) ==>
      && r == Channels.Returned(true)
      && g.channels == Without(old(g.channels), ChannelById(old(g.channels), raid.channelId).value.id)
      && g.messages == MessagesOutside(old(g.messages), ChannelById(old(g.channels), raid.channelId).value.id)
    ensures env.ready && env.guildSet && !old(Channels.DeletedById(g.channels, raid.channelId, env.ready, byIdOk)) ==>
      (r == Channels.Returned(true) <==> old(FindText(g.channels, ChannelNameFor(raid, dir, env.tz))).Some? && byNameOk)
    ensures (env.ready && env.guildSet && !old(Channels.DeletedById(g.channels, raid.channelId, env.ready, byIdOk))
             && r == Channels.Returned(true)) ==>
      && g.channels == Without(old(g.channels), old(FindText(g.channels, ChannelNameFor(raid, dir, env.tz))).value.id)
      && g.messages == MessagesOutside(old(g.messages), old(FindText(g.channels, ChannelNameFor(raid, dir, env.tz))).value.id)
    ensures !env.guildSet && !old(Channels.DeletedById(g.channels, raid.channelId, env.ready, byIdOk)) ==>
      r != Channels.Returned(true)
    ensures r != Channels.Returned(true) ==> g.channels == old(g.channels) && g.messages == old(g.messages)
  {
    if raid.channelId != "" {
      var byId := Channels.DeleteChannelById(g, raid.channelId, env.ready, byIdOk);
      if byId == Channels.Threw {
        return Channels.Threw;
      }
      if byId.ok {
        return Channels.Returned(true);
      }
    }
    if !env.ready {
      return Channels.Threw;
    }
    if !env.guildSet {
      return Channels.Returned(false);
    }
    var ok := Channels.DeleteTextNamed(g, ChannelNameFor(raid, dir, env.tz), byNameOk);
    return Channels.Returned(ok);
  }
}
