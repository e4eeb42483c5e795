/**
 * Announcing a raid in Discord and refreshing its message
 * (discord/modules/raidAnnounceAdapter.js). The guild is a channel registry;
 * the raid table keeps the channel and message ids written back after an
 * announcement.
 */
module RaidAnnounceAdapter {
  import opened Common
  import opened Text
  import Calendar
  import NameFormat
  import RaidEmbed
  import opened Guild

  /** `looksLikeId`: a string of 16 to 20 ASCII digits. */
  predicate LooksLikeId(s: string)
  {
    16 <= |s| <= 20 && AllDigits(s)
  }

  // -----------------------------------------------------------------------
  // fallbackFormatChannelName

  /** The slug of the fallback: like nameFormat's, but "" stays "". */
  function Slug(s: Option<string>): (r: string)
    ensures SlugShaped(r)
    ensures !NonEmpty(s) ==> r == ""
  {
    if NonEmpty(s) then WordSlug(s.value) else ""
  }

  /** `dows[dt.getDay()]`; an invalid date indexes with NaN and prints "undefined". */
  function FallbackDow(date: NameFormat.DateIn, now: int, tz: int): string
  {
    match date
    case NoDate => NameFormat.DayName(Calendar.Weekday(now, tz))
    case Parsed(t) => NameFormat.DayName(Calendar.Weekday(t, tz))
    case Unparseable => "undefined"
  }

  /** `hhmm`: `raid.time` without its colon, else the date's clock ("NaNNaN" for an invalid date). */
  function FallbackHhmm(raid: NameFormat.RaidInfo, now: int, tz: int): (r: string)
    ensures raid.time.Some? && NameFormat.TimeShaped(raid.time.value) ==> r == raid.time.value[..2] + raid.time.value[3..]
    ensures !(raid.time.Some? && NameFormat.TimeShaped(raid.time.value)) && raid.date.Unparseable? ==> r == "NaNNaN"
    ensures !raid.date.Unparseable? ==> |r| == 4 && AllDigits(r)
  {
    if raid.time.Some? && NameFormat.TimeShaped(raid.time.value) then raid.time.value[..2] + raid.time.value[3..]
    else if raid.date.Unparseable? then "NaNNaN"
    else NameFormat.Hhmm(None, NameFormat.Instant(raid.date, now), tz)
  }

  /** `diffMap[diffRaw] || slug(diffRaw)`, with the codes nm, hc and my. */
  function FallbackDiff(difficulty: Option<string>): (r: string)
    ensures difficulty.Some? && Lower(difficulty.value) == "normal" ==> r == "nm"
    ensures difficulty.Some? && Lower(difficulty.value) == "heroic" ==> r == "hc"
    ensures difficulty.Some? && Lower(difficulty.value) == "mythic" ==> r == "my"
    ensures SlugShaped(r)
  {
    var raw := if NonEmpty(difficulty) then Lower(difficulty.value) else "";
    if raw == "normal" then NameFormat.Code("nm")
    else if raw == "heroic" then NameFormat.Code("hc")
    else if raw == "mythic" then NameFormat.Code("my")
    else Slug(Some(raw))
  }

  /** `slug(leadName || lead || leadDisplay || leadUser || "") || "tbd"` */
  function FallbackLead(raid: NameFormat.RaidInfo): (r: string)
    ensures SlugShaped(r) && r != ""
    ensures Slug(NameFormat.LeadSource(raid)) == "" ==> r == "tbd"
    ensures Slug(NameFormat.LeadSource(raid)) != "" ==> r == Slug(NameFormat.LeadSource(raid))
  {
    var s := Slug(NameFormat.LeadSource(raid));
    if s == "" then NameFormat.Slugify(None) else s
  }

  /** `fallbackFormatChannelName` */
  function FallbackFormatChannelName(raid: NameFormat.RaidInfo, now: int, tz: int): (r: string)
    ensures StartsWith(r, FallbackDow(raid.date, now, tz) + "-" + FallbackHhmm(raid, now, tz) + "-")
    ensures EndsWith(r, "-" + FallbackLead(raid))
    ensures r == FallbackDow(raid.date, now, tz) + "-" + FallbackHhmm(raid, now, tz) + "-" + FallbackDiff(raid.difficulty) + "-"
                 + Slug(OrStr(raid.lootType, raid.loot)) + "-" + FallbackLead(raid)
  {
    JoinDashedIs(FallbackDow(raid.date, now, tz), FallbackHhmm(raid, now, tz), FallbackDiff(raid.difficulty),
      Slug(OrStr(raid.lootType, raid.loot)), FallbackLead(raid));
    JoinDashed(FallbackDow(raid.date, now, tz), FallbackHhmm(raid, now, tz), FallbackDiff(raid.difficulty),
      Slug(OrStr(raid.lootType, raid.loot)), FallbackLead(raid))
  }

  /** An unparseable date without a clock time yields a name starting `undefined-NaNNaN-`. */
  lemma FallbackInvalidDate(raid: NameFormat.RaidInfo, now: int, tz: int)
    requires raid.date.Unparseable? && raid.time.None?
    ensures StartsWith(FallbackFormatChannelName(raid, now, tz), "undefined-NaNNaN-")
  {
    assert FallbackDow(raid.date, now, tz) + "-" + FallbackHhmm(raid, now, tz) + "-" == "undefined-NaNNaN-";
  }

  // -----------------------------------------------------------------------
  // resolveLeadDisplay

  /** The raid fields the lead resolution reads; `leadId` is already `String(leadId)`. */
  datatype LeadFields = LeadFields(leadName: Option<string>, lead: Option<string>, leadId: Option<string>)

  datatype UserNames = UserNames(displayName: Option<string>, username: Option<string>)
  datatype MemberNames = MemberNames(nickname: Option<string>, globalName: Option<string>, username: Option<string>)

  /** `tryId`: an id-shaped leadId, else an id-shaped lead. */
  function TryId(f: LeadFields): (r: Option<string>)
    ensures r.Some? ==> LooksLikeId(r.value)
  {
    if NonEmpty(f.leadId) && LooksLikeId(f.leadId.value) then f.leadId
    else if NonEmpty(f.lead) && LooksLikeId(f.lead.value) then f.lead
    else None
  }

  /** `m?.nickname || m?.user?.globalName || m?.user?.username`, kept only when non-empty. */
  function MemberDisplay(m: MemberNames): (r: Option<string>)
    ensures r.Some? <==> NonEmpty(m.nickname) || NonEmpty(m.globalName) || NonEmpty(m.username)
    ensures NonEmpty(m.nickname) ==> r == m.nickname
    ensures !NonEmpty(m.nickname) && NonEmpty(m.globalName) ==> r == m.globalName
    ensures !NonEmpty(m.nickname) && !NonEmpty(m.globalName) && NonEmpty(m.username) ==> r == m.username
  {
    var disp := OrStr(OrStr(m.nickname, m.globalName), m.username);
    if NonEmpty(disp) then disp else None
  }

  /** The lead is named by the raid itself: a non-blank lead name, or a non-blank lead that is not id-shaped. */
  predicate NamedByRaid(f: LeadFields)
  {
    (NonEmpty(f.leadName) && Trim(f.leadName.value) != "")
    || (NonEmpty(f.lead) && !LooksLikeId(f.lead.value) && Trim(f.lead.value) != "")
  }

  /**
   * `resolveLeadDisplay`: a non-blank lead name, then a lead that is not
   * id-shaped, then the stored user of the id, then the guild member.
   */
  function ResolveLeadDisplay(f: LeadFields, users: map<string, UserNames>, members: map<string, MemberNames>, guildSet: bool): (r: Option<string>)
    ensures r.Some? ==> r.value != ""
    ensures NonEmpty(f.leadName) && Trim(f.leadName.value) != "" ==> r == Some(Trim(f.leadName.value))
    ensures !(NonEmpty(f.leadName) && Trim(f.leadName.value) != "")
      && NonEmpty(f.lead) && !LooksLikeId(f.lead.value) && Trim(f.lead.value) != ""
      ==> r == Some(Trim(f.lead.value))
    ensures !NamedByRaid(f) && TryId(f).None? ==> r.None?
    ensures !NamedByRaid(f) && TryId(f).Some? ==>
      var id := TryId(f).value;
      && (id in users && NonEmpty(users[id].displayName) ==> r == users[id].displayName)
      && (id in users && !NonEmpty(users[id].displayName) && NonEmpty(users[id].username) ==> r == users[id].username)
      && (!(id in users && (NonEmpty(users[id].displayName) || NonEmpty(users[id].username))) ==>
            r == (if guildSet && id in members then MemberDisplay(members[id]) else None))
  {
    if NonEmpty(f.leadName) && Trim(f.leadName.value) != "" then Some(Trim(f.leadName.value))
    else if NonEmpty(f.lead) && !LooksLikeId(f.lead.value) && Trim(f.lead.value) != "" then Some(Trim(f.lead.value))
    else
      match TryId(f)
      case None => None
      case Some(id) =>
        if id in users && (NonEmpty(users[id].displayName) || NonEmpty(users[id].username)) then
          OrStr(users[id].displayName, users[id].username)
        else if guildSet && id in members then MemberDisplay(members[id])
        else None
  }

  /** Without a name, a plain lead or an id-shaped field, nothing is looked up and nothing is found. */
  lemma NoLeadNoDisplay(f: LeadFields, users: map<string, UserNames>, members: map<string, MemberNames>, guildSet: bool)
    requires !NonEmpty(f.leadName) && !NonEmpty(f.lead) && !NonEmpty(f.leadId)
    ensures ResolveLeadDisplay(f, users, members, guildSet).None?
  {
  }

  // -----------------------------------------------------------------------
  // getOrCreateChannel

  /** A category whose name contains "raid" in any case. */
  predicate IsRaidCategory(c: Channel)
  {
    c.kind == Category && Contains(Lower(c.name), "raid")
  }

  /** `all.find(c => c.type === GuildCategory && /raid/i.test(c.name))` */
  function FirstRaidCategory(chs: seq<Channel>): (r: Option<Channel>)
    ensures r.Some? ==> r.value in chs && IsRaidCategory(r.value)
    ensures r.None? ==> forall c :: c in chs ==> !IsRaidCategory(c)
  {
    if chs == [] then None
    else if IsRaidCategory(chs[0]) then Some(chs[0])
    else FirstRaidCategory(chs[1..])
  }

  /** The parent of a new channel: the configured category if it is one, else a "raid" category. */
  function ParentFor(chs: seq<Channel>, categoryId: string): (r: Option<nat>)
    ensures categoryId != "" && r.Some? ==> exists c :: c in chs && c.kind == Category && SnowflakeText(c.id) == categoryId && c.id == r.value
    ensures categoryId == "" && r.Some? ==> exists c :: c in chs && IsRaidCategory(c) && c.id == r.value
    ensures categoryId == "" ==> (r.Some? <==> exists c :: c in chs && IsRaidCategory(c))
    ensures categoryId != "" ==>
      (r.Some? <==> ChannelById(chs, categoryId).Some? && ChannelById(chs, categoryId).value.kind == Category)
    ensures categoryId != "" && ChannelById(chs, categoryId).Some? && ChannelById(chs, categoryId).value.kind == Category ==>
      r == Some(ChannelById(chs, categoryId).value.id)
  {
    if categoryId != "" then CategoryById(chs, categoryId)
    else
      match FirstRaidCategory(chs)
      case Some(c) => Some(c.id)
      case None => None
  }

  /**
   * `getOrCreateChannel`: the first text channel with exactly this name, or a
   * new one; afterwards the name finds the returned channel, so a second
   * call returns it again and creates nothing. `createOk` says whether
   * `guild.channels.create` succeeds; when it throws there is no channel
   * and nothing changes.
   */
  method GetOrCreateChannel(g: Registry, name: string, categoryId: string, createOk: bool) returns (c: Option<Channel>)
    requires g.Valid()
    modifies g
    ensures g.Valid()
    ensures c.Some? <==> old(FindText(g.channels, name)).Some? || createOk
    ensures c.Some? ==> FindText(g.channels, name) == c
    ensures old(FindText(g.channels, name)).Some? ==>
      c == old(FindText(g.channels, name))
      && g.channels == old(g.channels) && g.nextId == old(g.nextId)
    ensures old(FindText(g.channels, name)).None? && createOk ==>
      c == Some(Channel(old(g.nextId), name, TextChannel, ParentFor(old(g.channels), categoryId)))
      && g.channels == old(g.channels) + [c.value]
    ensures c.None? ==> g.channels == old(g.channels) && g.nextId == old(g.nextId)
    ensures g.messages == old(g.messages)
  {
    if FindText(g.channels, name).None? && !createOk {
      return None;
    }
    var ch := g.FindOrCreateText(name, ParentFor(g.channels, categoryId));
    c := Some(ch);
  }

  // -----------------------------------------------------------------------
  // basicTextForRaid

  /** The raid as the adapter receives it. */
  datatype Raid = Raid(
    id: Option<int>, title: Option<string>, info: NameFormat.RaidInfo,
    leadId: Option<string>, signups: Option<seq<RaidEmbed.Row>>)

  function Lead(raid: Raid): LeadFields
  {
    LeadFields(raid.info.leadName, raid.info.lead, raid.leadId)
  }

  /** The raid as the embed builder reads it. */
  function EmbedView(raid: Raid): RaidEmbed.Raid
  {
    RaidEmbed.Raid(raid.id, raid.title, raid.info.difficulty, raid.info.lootType, raid.info.lead, raid.signups)
  }

  function OrElse(s: Option<string>, d: string): string
  {
    if NonEmpty(s) then s.value else d
  }

  /** The five lines of `basicTextForRaid`; `localWhen` is the locale rendering of a valid date. */
  function BasicLines(raid: Raid, localWhen: string): (lines: seq<string>)
    ensures |lines| == 5
  {
    var title := if NonEmpty(raid.title) then "**" + raid.title.value + "**" else "Neuer Raid";
    var when :=
      if raid.info.date.Parsed? then localWhen
      else if NonEmpty(raid.info.time) then "um " + raid.info.time.value
      else "Zeit folgt";
    [ title,
      "**Lead:** " + OrElse(OrStr(raid.info.leadName, raid.info.lead), "-"),
      "**Datum:** " + when,
      "**Diff:** " + OrElse(raid.info.difficulty, "-"),
      "**Loot:** " + OrElse(OrStr(raid.info.lootType, raid.info.loot), "-") ]
  }

  /** `basicTextForRaid` */
  function BasicTextForRaid(raid: Raid, localWhen: string): string
  {
    Join(BasicLines(raid, localWhen), "\n")
  }

  /** When no field holds a line break, the text splits back into its five lines. */
  lemma BasicTextLines(raid: Raid, localWhen: string)
    requires forall i :: 0 <= i < 5 ==> '\n' !in BasicLines(raid, localWhen)[i]
    ensures Split(BasicTextForRaid(raid, localWhen), '\n') == BasicLines(raid, localWhen)
  {
    SplitJoin(BasicLines(raid, localWhen), '\n');
  }

  // -----------------------------------------------------------------------
  // announceRaid

  datatype StoredIds = StoredIds(channelId: Option<string>, messageId: Option<string>)

  /** The raid rows' channel and message ids. */
  class RaidTable {
    var ids: map<int, StoredIds>

    constructor (initial: map<int, StoredIds>)
      ensures ids == initial
    {
      ids := initial;
    }

    /** Writes the ids to the row of `raidId`; an absent row is left absent. */
    method Store(raidId: Option<int>, stored: StoredIds)
      modifies this
      ensures raidId.Some? && raidId.value in old(ids) ==> ids == old(ids)[raidId.value := stored]
      ensures !(raidId.Some? && raidId.value in old(ids)) ==> ids == old(ids)
    {
      if raidId.Some? && raidId.value in ids {
        ids := ids[raidId.value := stored];
      }
    }
  }

  datatype Posted = Posted(channelId: Option<string>, messageId: Option<string>, channelName: Option<string>)

  /** The raid with the resolved lead name put in for naming. */
  function ForName(raid: Raid, ensured: Option<string>): NameFormat.RaidInfo
  {
    if ensured.Some? then raid.info.(leadName := ensured) else raid.info
  }

  /**
   * `announceRaid`: find or create the channel named after the raid, post
   * the embeds, and write the ids back. `reachable` says whether the bot
   * and guild could be reached, `createOk` whether creating a missing
   * channel succeeds and `sendOk` whether posting succeeds. A failure
   * before the post ends in the catch: three nulls and nothing changed.
   */
  method AnnounceRaid(
    g: Registry, table: RaidTable, raid: Raid,
    users: map<string, UserNames>, members: map<string, MemberNames>, guildSet: bool,
    categoryId: string, now: int, tz: int, fDate: string, reachable: bool, createOk: bool, sendOk: bool)
    returns (posted: Posted)
    requires g.Valid()
    modifies g, table
    ensures g.Valid()
    ensures !(reachable && old(ChannelAvailable(g.channels, ChannelName(raid, users, members, guildSet, now, tz), createOk))) ==>
      posted == Posted(None, None, None)
      && g.channels == old(g.channels) && g.messages == old(g.messages) && table.ids == old(table.ids)
    ensures reachable ==> Announced(g, table, posted, raid.id, ChannelName(raid, users, members, guildSet, now, tz),
                                    categoryId, Announcement(raid, fDate), createOk, sendOk)
  {
    if reachable {
      var name := ChannelName(raid, users, members, guildSet, now, tz);
      var body := Announcement(raid, fDate);
      posted := PostAndStore(g, table, raid.id, name, categoryId, body, createOk, sendOk);
    } else {
      posted := Posted(None, None, None);
    }
  }

  /** The message `announceRaid` posts: the raid's three embeds. */
  function Announcement(raid: Raid, fDate: string): Body
  {
    Embeds(RaidEmbed.BuildRaidEmbeds(EmbedView(raid), fDate))
  }

  /** The channel name `announceRaid` uses: the raid's, with the lead's display name resolved first. */
  function ChannelName(raid: Raid, users: map<string, UserNames>, members: map<string, MemberNames>,
                       guildSet: bool, now: int, tz: int): string
  {
    NameFormat.FormatRaidChannelName(ForName(raid, ResolveLeadDisplay(Lead(raid), users, members, guildSet)), now, tz)
  }

  /** Whether the channel named `name` is there or can be created. */
  predicate ChannelAvailable(chs: seq<Channel>, name: string, createOk: bool)
  {
    FindText(chs, name).Some? || createOk
  }

  /**
   * What posting `body` in the channel `name` does to the guild and the raid
   * table, from the state before to the state after:
   * - when no text channel of that name exists and creating one fails,
   *   nothing changes and the result is three nulls;
   * - otherwise the channel list is unchanged when the channel existed and
   *   gains exactly the new channel when it did not; the channel id is that
   *   of the channel the name now finds; one message with `body` is appended
   *   to it iff sending succeeds, and the message id answered is that
   *   message's; and the raid's row, when it has one, gets
   *   the channel and message ids, with no other row touched.
   */
  twostate predicate Announced(
    g: Registry, table: RaidTable, posted: Posted, raidId: Option<int>, name: string, categoryId: string,
    body: Body, createOk: bool, sendOk: bool)
    reads g, table
  {
    && (!old(ChannelAvailable(g.channels, name, createOk)) ==>
          posted == Posted(None, None, None)
          && g.channels == old(g.channels) && g.messages == old(g.messages) && table.ids == old(table.ids))
    && (old(ChannelAvailable(g.channels, name, createOk)) ==>
          && posted.channelName == Some(name)
          && (old(FindText(g.channels, name)).Some? ==> g.channels == old(g.channels))
          && (old(FindText(g.channels, name)).None? ==>
                g.channels == old(g.channels) + [Channel(old(g.nextId), name, TextChannel, ParentFor(old(g.channels), categoryId))])
          && FindText(g.channels, name).Some?
          && posted.channelId == Some(SnowflakeText(FindText(g.channels, name).value.id))
          && (sendOk <==> posted.messageId.Some?)
          && (sendOk ==> g.nextId >= 1 && g.messages == old(g.messages) + [Message(g.nextId - 1, FindText(g.channels, name).value.id, body)])
          && (sendOk ==> posted.messageId == Some(SnowflakeText(g.nextId - 1)))
          && (!sendOk ==> g.messages == old(g.messages)))
    && (old(ChannelAvailable(g.channels, name, createOk)) && raidId.Some? && raidId.value in old(table.ids) ==>
          table.ids == old(table.ids)[raidId.value := StoredIds(posted.channelId, posted.messageId)])
    && (!(old(ChannelAvailable(g.channels, name, createOk)) && raidId.Some? && raidId.value in old(table.ids)) ==>
          table.ids == old(table.ids))
  }

  /**
   * The second half of `announceRaid`: get or create the channel `name`,
   * post `body` there when sending succeeds, and write the ids back to
   * the raid's row when there is one. When the channel can be neither
   * found nor created, `announceRaid` ends in its catch: three nulls and
   * nothing written.
   */
  method PostAndStore(
    g: Registry, table: RaidTable, raidId: Option<int>, name: string, categoryId: string,
    body: Body, createOk: bool, sendOk: bool)
    returns (posted: Posted)
    requires g.Valid()
    modifies g, table
    ensures g.Valid()
    ensures Announced(g, table, posted, raidId, name, categoryId, body, createOk, sendOk)
  {
    var channel := GetOrCreateChannel(g, name, categoryId, createOk);
    if channel.None? {
      return Posted(None, None, None);
    }
    posted := PostIn(g, channel.value, name, body, sendOk);
    table.Store(raidId, StoredIds(posted.channelId, posted.messageId));
  }

  /** `channel.send`, when it succeeds, and the ids `postInitialMessage` answers with. */
  method PostIn(g: Registry, c: Channel, name: string, body: Body, sendOk: bool) returns (posted: Posted)
    requires g.Valid()
    modifies g
    ensures g.Valid()
    ensures posted.channelName == Some(name) && posted.channelId == Some(SnowflakeText(c.id))
    ensures sendOk <==> posted.messageId.Some?
    ensures sendOk ==> g.nextId >= 1 && g.messages == old(g.messages) + [Message(g.nextId - 1, c.id, body)]
    ensures sendOk ==> posted.messageId == Some(SnowflakeText(g.nextId - 1))
    ensures !sendOk ==> g.messages == old(g.messages)
    ensures g.channels == old(g.channels)
  {
    var messageId: Option<string> := None;
    if sendOk {
      var m := g.Send(c.id, body);
      messageId := Some(SnowflakeText(m.id));
    }
    posted := Posted(Some(SnowflakeText(c.id)), messageId, Some(name));
  }

  // -----------------------------------------------------------------------
  // refreshRaidMessage

  /**
   * A raid object as JavaScript sees it; `Undefined` stands for a missing
   * key, and `signups` is `Obj` when it is an array.
   */
  datatype RaidObj = RaidObj(id: Js, channelId: Js, messageId: Js, signups: Js)

  /** What `refreshRaidMessage` is called with. */
  datatype RaidOrId = ByNumber(n: int) | ByText(s: string) | ByObject(o: RaidObj) | Nothing

  /** `String(v)` */
  function StringOf(v: Js): string
  {
    match v
    case Undefined => "undefined"
    case Null => "null"
    case Bool(b) => if b then "true" else "false"
    case Num(n) => IntToString(n)
    case NaN => "NaN"
    case Str(s) => s
    case Obj => "[object Object]"
  }

  /** `Number(v)` for the values an id can hold. */
  function NumberOfJs(v: Js): NumVal
  {
    match v
    case Num(n) => Finite(n)
    case Str(s) => NumberOf(s)
    case Null => Finite(0)
    case Bool(b) => Finite(if b then 1 else 0)
    case _ => NotANumber
  }

  /** `fetchRaidFull`: nothing unless `Number(id)` is finite and names a stored raid. */
  function FetchRaidFull(raids: map<int, RaidObj>, id: Js): (r: Option<RaidObj>)
    ensures r.Some? ==> NumberOfJs(id).Finite? && NumberOfJs(id).v in raids && r.value == raids[NumberOfJs(id).v]
    ensures NumberOfJs(id).NotANumber? ==> r.None?
  {
    match NumberOfJs(id)
    case NotANumber => None
    case Finite(n) => if n in raids then Some(raids[n]) else None
  }

  /** `{ ...db, ...r }`: the keys `r` has win. */
  function Merge(db: RaidObj, r: RaidObj): (m: RaidObj)
    ensures !r.channelId.Undefined? ==> m.channelId == r.channelId
    ensures !r.messageId.Undefined? ==> m.messageId == r.messageId
    ensures r.channelId.Undefined? ==> m.channelId == db.channelId
    ensures r.messageId.Undefined? ==> m.messageId == db.messageId
  {
    RaidObj(
      if r.id.Undefined? then db.id else r.id,
      if r.channelId.Undefined? then db.channelId else r.channelId,
      if r.messageId.Undefined? then db.messageId else r.messageId,
      if r.signups.Undefined? then db.signups else r.signups)
  }

  /** The raid before the target checks: loaded by id, or the object completed from the table. */
  function Loaded(raids: map<int, RaidObj>, input: RaidOrId): Option<RaidObj>
  {
    match input
    case ByNumber(n) => FetchRaidFull(raids, Num(n))
    case ByText(s) => FetchRaidFull(raids, Str(s))
    case ByObject(o) =>
      if !IsNullish(o.id) && !o.signups.Obj? then
        match FetchRaidFull(raids, o.id)
        case Some(db) => Some(Merge(db, o))
        case None => Some(o)
      else Some(o)
    case Nothing => None
  }

  /** Missing target ids are taken from the stored raid. */
  function WithIds(raids: map<int, RaidObj>, r: RaidObj): (out: RaidObj)
    ensures Truthy(r.channelId) && Truthy(r.messageId) ==> out == r
  {
    if !Truthy(r.channelId) || !Truthy(r.messageId) then
      match FetchRaidFull(raids, r.id)
      case Some(db) => Merge(db, r)
      case None => r
    else r
  }

  /** What the edit writes: the embeds when there are any, else the plain text. */
  function RefreshBody(embeds: seq<RaidEmbed.Embed>, text: string): (b: Body)
    ensures b.Embeds? <==> embeds != []
    ensures b.Embeds? ==> b.embeds == embeds
    ensures b.Content? ==> b.text == text
  {
    if |embeds| > 0 then Embeds(embeds) else Content(text)
  }

  /**
   * `refreshRaidMessage`: edits the raid's existing message in place and
   * never creates a channel or a message. `render` stands for `buildEmbeds`
   * and `basicText` for `basicTextForRaid` of the raid it is given;
   * `reachable` says whether the bot and guild could be reached, and
   * `editOk` whether `msg.edit` succeeds (a failing edit ends in the catch
   * with false and changes nothing).
   */
  method RefreshRaidMessage(
    g: Registry, raids: map<int, RaidObj>, input: RaidOrId,
    render: RaidObj -> seq<RaidEmbed.Embed>, basicText: RaidObj -> string, reachable: bool, editOk: bool)
    returns (ok: bool)
    requires g.Valid()
    modifies g
    ensures g.Valid()
    ensures g.channels == old(g.channels) && g.nextId == old(g.nextId) && |g.messages| == |old(g.messages)|
    ensures !ok ==> g.messages == old(g.messages)
    ensures Loaded(raids, input).None? || IsNullish(Loaded(raids, input).value.id) ==> !ok
    ensures ok ==>
      Loaded(raids, input).Some? && !IsNullish(Loaded(raids, input).value.id) && reachable
      && var r := WithIds(raids, Loaded(raids, input).value);
      && Truthy(r.channelId) && Truthy(r.messageId)
      && (exists i, c ::
            && 0 <= i < |old(g.messages)| && c in g.channels
            && c.kind == TextChannel && SnowflakeText(c.id) == StringOf(r.channelId)
            && old(g.messages)[i].channelId == c.id && SnowflakeText(old(g.messages)[i].id) == StringOf(r.messageId)
            && g.messages == old(g.messages)[i := old(g.messages)[i].(body := RefreshBody(render(r), basicText(r)))])
    ensures
      (&& Loaded(raids, input).Some? && !IsNullish(Loaded(raids, input).value.id) && reachable
       && var r := WithIds(raids, Loaded(raids, input).value);
       && Truthy(r.channelId) && Truthy(r.messageId)
       && var ch := ChannelById(old(g.channels), StringOf(r.channelId));
       && ch.Some? && ch.value.kind == TextChannel
       && MessageIndex(old(g.messages), ch.value.id, StringOf(r.messageId)).Some?
       && editOk)
      <==> ok
  {
    var loaded := Loaded(raids, input);
    if loaded.None? || IsNullish(loaded.value.id) {
      return false;
    }
    var r := loaded.value;
    r := WithIds(raids, r);
    if !Truthy(r.channelId) || !Truthy(r.messageId) {
      return false;
    }
    if !reachable {
      return false;
    }
    var channel := ChannelById(g.channels, StringOf(r.channelId));
    if channel.None? || channel.value.kind != TextChannel {
      return false;
    }
    var i := MessageIndex(g.messages, channel.value.id, StringOf(r.messageId));
    if i.None? || !editOk {
      return false;
    }
    g.Edit(i.value, RefreshBody(render(r), basicText(r)));
    return true;
  }
}
