/**
 * The Discord guild as the raid code sees it: a registry of channels (text
 * channels and categories) and the messages posted in them. Snowflake ids
 * are drawn from one counter and written as decimal text when they leave
 * the guild.
 */
module Guild {
  import opened Common
  import RaidEmbed

  datatype Kind = TextChannel | Category | OtherKind

  datatype Channel = Channel(id: nat, name: string, kind: Kind, parent: Option<nat>)

  /** What a message shows: embeds, or plain content. */
  datatype Body = Embeds(embeds: seq<RaidEmbed.Embed>) | Content(text: string)

  datatype Message = Message(id: nat, channelId: nat, body: Body)

  /** A snowflake as the text the rest of the system stores. */
  function SnowflakeText(id: nat): string
  {
    NatToString(id)
  }

  predicate IsTextNamed(c: Channel, name: string)
  {
    c.kind == TextChannel && c.name == name
  }

  /** `channels.find(c => c.type === GuildText && c.name === name)`: the first match. */
  function FindTextIndex(chs: seq<Channel>, name: string): (r: Option<nat>)
    ensures r.Some? ==>
      r.value < |chs| && IsTextNamed(chs[r.value], name)
      && forall j :: 0 <= j < r.value ==> !IsTextNamed(chs[j], name)
    ensures r.None? ==> forall j :: 0 <= j < |chs| ==> !IsTextNamed(chs[j], name)
  {
    if chs == [] then None
    else if IsTextNamed(chs[0], name) then Some(0)
    else
      match FindTextIndex(chs[1..], name)
      case None => None
      case Some(i) => Some(i + 1)
  }

  function FindText(chs: seq<Channel>, name: string): (r: Option<Channel>)
    ensures r.Some? ==> r.value in chs && IsTextNamed(r.value, name)
    ensures r.None? <==> forall c :: c in chs ==> !IsTextNamed(c, name)
  {
    match FindTextIndex(chs, name)
    case None => None
    case Some(i) => Some(chs[i])
  }

  /** Appending a channel does not change which existing channel a name finds. */
  lemma {:induction false} FindTextAppend(chs: seq<Channel>, c: Channel, name: string)
    requires FindText(chs, name).Some?
    ensures FindText(chs + [c], name) == FindText(chs, name)
    decreases |chs|
  {
    if !IsTextNamed(chs[0], name) {
      assert (chs + [c])[1..] == chs[1..] + [c];
      FindTextAppend(chs[1..], c, name);
    }
  }

  /** A text channel appended under a name nothing else had is what the name finds next time. */
  lemma {:induction false} CreatedIsFound(chs: seq<Channel>, c: Channel)
    requires FindText(chs, c.name).None? && c.kind == TextChannel
    ensures FindText(chs + [c], c.name) == Some(c)
    decreases |chs|
  {
    if chs == [] {
      assert chs + [c] == [c];
    } else {
      assert (chs + [c])[1..] == chs[1..] + [c];
      assert chs[0] in chs;
      assert forall x :: x in chs[1..] ==> x in chs;
      CreatedIsFound(chs[1..], c);
    }
  }

  /** `channels.fetch(id)` by the id's text. */
  function ChannelById(chs: seq<Channel>, id: string): (r: Option<Channel>)
    ensures r.Some? ==> r.value in chs && SnowflakeText(r.value.id) == id
    ensures r.None? ==> forall c :: c in chs ==> SnowflakeText(c.id) != id
  {
    if chs == [] then None
    else if SnowflakeText(chs[0].id) == id then Some(chs[0])
    else ChannelById(chs[1..], id)
  }

  /** The id of the channel fetched by `id`, kept only when it is a category. */
  function CategoryById(chs: seq<Channel>, id: string): (r: Option<nat>)
    ensures r.Some? ==> exists c :: c in chs && c.kind == Category && SnowflakeText(c.id) == id && c.id == r.value
    ensures r.Some? <==> ChannelById(chs, id).Some? && ChannelById(chs, id).value.kind == Category
    ensures r.Some? ==> r.value == ChannelById(chs, id).value.id
    ensures (forall c :: c in chs ==> SnowflakeText(c.id) != id) ==> r.None?
  {
    match ChannelById(chs, id)
    case Some(c) => if c.kind == Category then Some(c.id) else None
    case None => None
  }

  /** `channel.messages.fetch(id)`: a message of that channel with that id. */
  function MessageIndex(msgs: seq<Message>, channelId: nat, id: string): (r: Option<nat>)
    ensures r.Some? ==> r.value < |msgs| && msgs[r.value].channelId == channelId && SnowflakeText(msgs[r.value].id) == id
    ensures r.None? ==> forall j :: 0 <= j < |msgs| ==> !(msgs[j].channelId == channelId && SnowflakeText(msgs[j].id) == id)
  {
    if msgs == [] then None
    else if msgs[0].channelId == channelId && SnowflakeText(msgs[0].id) == id then Some(0)
    else
      match MessageIndex(msgs[1..], channelId, id)
      case None => None
      case Some(i) => Some(i + 1)
  }

  /** The messages that survive deleting channel `id`. */
  function MessagesOutside(msgs: seq<Message>, id: nat): (r: seq<Message>)
    ensures forall m :: m in r <==> m in msgs && m.channelId != id
  {
    if msgs == [] then []
    else (if msgs[0].channelId != id then [msgs[0]] else []) + MessagesOutside(msgs[1..], id)
  }

  /** The channels and messages of one guild. */
  class Registry {
    var channels: seq<Channel>
    var messages: seq<Message>
    var nextId: nat

    /** Every id in use was drawn from the counter. */
    ghost predicate Valid()
      reads this
    {
      (forall c :: c in channels ==> c.id < nextId)
      && (forall m :: m in messages ==> m.id < nextId)
      && UniqueIds(channels)
    }

    constructor (initial: seq<Channel>, next: nat)
      requires forall c :: c in initial ==> c.id < next
      requires UniqueIds(initial)
      ensures Valid() && channels == initial && messages == [] && nextId == next
    {
      channels := initial;
      messages := [];
      nextId := next;
    }

    /** `guild.channels.create(...)`: a fresh id, appended. */
    method Create(name: string, kind: Kind, parent: Option<nat>) returns (c: Channel)
      requires Valid()
      modifies this
      ensures Valid()
      ensures c == Channel(old(nextId), name, kind, parent)
      ensures forall x :: x in old(channels) ==> x.id != c.id
      ensures channels == old(channels) + [c] && messages == old(messages)
      ensures nextId == old(nextId) + 1
    {
      c := Channel(nextId, name, kind, parent);
      forall i | 0 <= i < |channels| ensures channels[i].id < c.id {
        assert channels[i] in channels;
      }
      channels := channels + [c];
      nextId := nextId + 1;
    }

    /**
     * `channels.find(c => c.type === GuildText && c.name === name)`, else
     * `channels.create(...)`: afterwards the name finds the returned
     * channel, so a second call returns it again and creates nothing.
     */
    method FindOrCreateText(name: string, parent: Option<nat>) returns (c: Channel)
      requires Valid()
      modifies this
      ensures Valid()
      ensures FindText(channels, name) == Some(c)
      ensures old(FindText(channels, name)).Some? ==>
        c == old(FindText(channels, name)).value && channels == old(channels) && nextId == old(nextId)
      ensures old(FindText(channels, name)).None? ==>
        c == Channel(old(nextId), name, TextChannel, parent) && channels == old(channels) + [c]
      ensures messages == old(messages)
    {
      var existing := FindText(channels, name);
      if existing.Some? {
        return existing.value;
      }
      CreatedIsFound(channels, Channel(nextId, name, TextChannel, parent));
      c := Create(name, TextChannel, parent);
    }

    /** `channel.send(...)` */
    method Send(channelId: nat, body: Body) returns (m: Message)
      requires Valid()
      modifies this
      ensures Valid()
      ensures m == Message(old(nextId), channelId, body)
      ensures messages == old(messages) + [m] && channels == old(channels)
      ensures nextId == old(nextId) + 1
    {
      m := Message(nextId, channelId, body);
      messages := messages + [m];
      nextId := nextId + 1;
    }

    /** `message.edit(...)`: the message keeps its id and channel; only its body changes. */
    method Edit(i: nat, body: Body)
      requires Valid() && i < |messages|
      modifies this
      ensures Valid()
      ensures messages == old(messages)[i := old(messages)[i].(body := body)]
      ensures channels == old(channels) && nextId == old(nextId)
    {
      messages := messages[i := messages[i].(body := body)];
    }

    /**
     * `channel.delete()`: the channel and its messages go. Ids are unique,
     * so exactly that channel leaves and the others keep their order.
     */
    method Delete(c: Channel)
      requires Valid() && c in channels
      modifies this
      ensures Valid()
      ensures channels == Without(old(channels), c.id)
      ensures forall x :: x in channels <==> x in old(channels) && x.id != c.id
      ensures exists k :: 0 <= k < |old(channels)| && old(channels)[k] == c && channels == old(channels)[..k] + old(channels)[k + 1..]
      ensures |channels| == |old(channels)| - 1
      ensures messages == MessagesOutside(old(messages), c.id)
      ensures nextId == old(nextId)
    {
      var k :| 0 <= k < |channels| && channels[k] == c;
      WithoutAt(channels, k);
      RemoveAtKeepsUnique(channels, k);
      channels := Without(channels, c.id);
      messages := MessagesOutside(messages, c.id);
    }
  }

  /** No two channels share an id. */
  predicate UniqueIds(chs: seq<Channel>)
  {
    forall i, j :: 0 <= i < j < |chs| ==> chs[i].id != chs[j].id
  }

  function Without(chs: seq<Channel>, id: nat): (r: seq<Channel>)
    ensures forall x :: x in r <==> x in chs && x.id != id
  {
    if chs == [] then []
    else (if chs[0].id != id then [chs[0]] else []) + Without(chs[1..], id)
  }

  /** Dropping an id no channel has changes nothing. */
  lemma {:induction false} WithoutAbsent(chs: seq<Channel>, id: nat)
    requires forall i :: 0 <= i < |chs| ==> chs[i].id != id
    ensures Without(chs, id) == chs
    decreases |chs|
  {
    if chs != [] {
      WithoutAbsent(chs[1..], id);
      assert chs == [chs[0]] + chs[1..];
    }
  }

  /** With unique ids, dropping the id at position `k` removes exactly that position. */
  lemma {:induction false} WithoutAt(chs: seq<Channel>, k: nat)
    requires UniqueIds(chs) && k < |chs|
    ensures Without(chs, chs[k].id) == chs[..k] + chs[k + 1..]
    decreases k
  {
    if k == 0 {
      WithoutAbsent(chs[1..], chs[0].id);
      assert chs[..0] + chs[1..] == chs[1..];
    } else {
      assert chs[1..][k - 1] == chs[k];
      WithoutAt(chs[1..], k - 1);
      assert chs[..k] + chs[k + 1..] == [chs[0]] + (chs[1..][..k - 1] + chs[1..][k..]);
    }
  }

  /** Removing one position keeps the ids unique. */
  lemma RemoveAtKeepsUnique(chs: seq<Channel>, k: nat)
    requires UniqueIds(chs) && k < |chs|
    ensures UniqueIds(chs[..k] + chs[k + 1..])
  {
    var r := chs[..k] + chs[k + 1..];
    forall i, j | 0 <= i < j < |r| ensures r[i].id != r[j].id {
      var i' := if i < k then i else i + 1;
      var j' := if j < k then j else j + 1;
      assert r[i] == chs[i'] && r[j] == chs[j'];
    }
  }

  /** A leading channel the name does not match is skipped by the lookup. */
  lemma FindTextCons(c: Channel, chs: seq<Channel>, name: string)
    requires !IsTextNamed(c, name)
    ensures FindText([c] + chs, name) == FindText(chs, name)
  {
    var s := [c] + chs;
    assert s[1..] == chs;
    match FindTextIndex(chs, name)
    case None =>
      assert FindTextIndex(s, name) == None;
    case Some(i) =>
      assert FindTextIndex(s, name) == Some(i + 1);
      assert s[i + 1] == chs[i];
  }

  /** A prefix without a match is skipped by the lookup. */
  lemma {:induction false} FindTextSkip(p: seq<Channel>, chs: seq<Channel>, name: string)
    requires forall j :: 0 <= j < |p| ==> !IsTextNamed(p[j], name)
    ensures FindText(p + chs, name) == FindText(chs, name)
    decreases |p|
  {
    if p == [] {
      assert p + chs == chs;
    } else {
      assert p + chs == [p[0]] + (p[1..] + chs);
      FindTextSkip(p[1..], chs, name);
      FindTextCons(p[0], p[1..] + chs, name);
    }
  }

  /** Deleting any channel but the one a name finds leaves that lookup as it was. */
  lemma {:induction false} FindTextWithout(chs: seq<Channel>, id: nat, name: string)
    requires FindText(chs, name).Some? && FindText(chs, name).value.id != id
    ensures FindText(Without(chs, id), name) == FindText(chs, name)
    decreases |chs|
  {
    var rest := Without(chs[1..], id);
    if IsTextNamed(chs[0], name) {
      assert FindTextIndex(chs, name) == Some(0);
      assert Without(chs, id) == [chs[0]] + rest;
      assert FindTextIndex([chs[0]] + rest, name) == Some(0);
    } else {
      assert chs == [chs[0]] + chs[1..];
      FindTextCons(chs[0], chs[1..], name);
      FindTextWithout(chs[1..], id, name);
      if chs[0].id != id {
        assert Without(chs, id) == [chs[0]] + rest;
        FindTextCons(chs[0], rest, name);
      } else {
        assert Without(chs, id) == [] + rest == rest;
      }
    }
  }

  /**
   * Deleting the channel a name finds makes the name find the next text
   * channel of that name, if there is one.
   */
  lemma FindTextAfterDelete(chs: seq<Channel>, name: string)
    requires UniqueIds(chs) && FindTextIndex(chs, name).Some?
    ensures var k := FindTextIndex(chs, name).value;
      FindText(Without(chs, chs[k].id), name) == FindText(chs[k + 1..], name)
  {
    var k := FindTextIndex(chs, name).value;
    WithoutAt(chs, k);
    FindTextSkip(chs[..k], chs[k + 1..], name);
  }
}
