/**
 * The raid message (discord/modules/raidEmbed.js): a header, the roster of
 * picked signups and the queue of open signups, each roster split by role.
 * An embed is a plain record of strings.
 */
module RaidEmbed {
  import opened Common

  const PICKED: string := "PICKED"
  const SIGNUPED: string := "SIGNUPED"

  const EM_DASH: string := "\U{2014}"
  const BULLET: string := "\U{2022} "

  datatype EmbedUser = EmbedUser(displayName: Option<string>, username: Option<string>, discordId: Option<string>)
  datatype EmbedChar = EmbedChar(name: Option<string>, realm: Option<string>)

  /** A signup as the message reads it: type, status, class snapshot, saved flag, note and its joins. */
  datatype Row = Row(
    typ: string, status: string, cls: Option<string>, saved: bool, note: Option<string>,
    user: Option<EmbedUser>, character: Option<EmbedChar>)

  datatype Raid = Raid(
    id: Option<int>, title: Option<string>, difficulty: Option<string>, lootType: Option<string>,
    lead: Option<string>, signups: Option<seq<Row>>)

  datatype Field = Field(name: string, value: string, inline: bool)
  datatype Embed = Embed(color: int, title: string, fields: seq<Field>, footer: string)

  // -----------------------------------------------------------------------
  // Grouping

  /** `rows.filter(s => s.status === st)` */
  function WithStatus(rows: seq<Row>, st: string): (r: seq<Row>)
    ensures |r| <= |rows|
  {
    if rows == [] then []
    else (if rows[0].status == st then [rows[0]] else []) + WithStatus(rows[1..], st)
  }

  /** The filter keeps exactly the rows of that status. */
  lemma {:induction false} WithStatusMembers(rows: seq<Row>, st: string)
    ensures forall x :: x in WithStatus(rows, st) <==> x in rows && x.status == st
    decreases |rows|
  {
    if rows != [] {
      WithStatusMembers(rows[1..], st);
      assert forall x :: x in rows <==> x == rows[0] || x in rows[1..];
    }
  }

  /** `rows.filter(s => s.type === t)` */
  function WithType(rows: seq<Row>, t: string): (r: seq<Row>)
    ensures |r| <= |rows|
  {
    if rows == [] then []
    else (if rows[0].typ == t then [rows[0]] else []) + WithType(rows[1..], t)
  }

  /** The filter keeps exactly the rows of that type. */
  lemma {:induction false} WithTypeMembers(rows: seq<Row>, t: string)
    ensures forall x :: x in WithType(rows, t) <==> x in rows && x.typ == t
    decreases |rows|
  {
    if rows != [] {
      WithTypeMembers(rows[1..], t);
      assert forall x :: x in rows <==> x == rows[0] || x in rows[1..];
    }
  }

  /** Filtering keeps input order: it distributes over concatenation. */
  lemma {:induction false} WithTypeAppend(a: seq<Row>, b: seq<Row>, t: string)
    ensures WithType(a + b, t) == WithType(a, t) + WithType(b, t)
    decreases |a|
  {
    if a != [] {
      var h: seq<Row> := if a[0].typ == t then [a[0]] else [];
      assert (a + b)[0] == a[0] && (a + b)[1..] == a[1..] + b;
      WithTypeAppend(a[1..], b, t);
      assert WithType(a + b, t) == h + (WithType(a[1..], t) + WithType(b, t));
      assert WithType(a, t) == h + WithType(a[1..], t);
    } else {
      assert a + b == b;
    }
  }

  lemma {:induction false} WithStatusAppend(a: seq<Row>, b: seq<Row>, st: string)
    ensures WithStatus(a + b, st) == WithStatus(a, st) + WithStatus(b, st)
    decreases |a|
  {
    if a != [] {
      var h: seq<Row> := if a[0].status == st then [a[0]] else [];
      assert (a + b)[0] == a[0] && (a + b)[1..] == a[1..] + b;
      WithStatusAppend(a[1..], b, st);
      assert WithStatus(a + b, st) == h + (WithStatus(a[1..], st) + WithStatus(b, st));
      assert WithStatus(a, st) == h + WithStatus(a[1..], st);
    } else {
      assert a + b == b;
    }
  }

  /** The four groups of `byRole`, in the order TANK, HEAL, DPS, LOOTBUDDY. */
  const ROLE_KEYS: seq<string> := ["TANK", "HEAL", "DPS", "LOOTBUDDY"]

  function ByRole(rows: seq<Row>): (g: seq<seq<Row>>)
    ensures |g| == 4
    ensures forall k :: 0 <= k < 4 ==> g[k] == WithType(rows, ROLE_KEYS[k])
  {
    [WithType(rows, "TANK"), WithType(rows, "HEAL"), WithType(rows, "DPS"), WithType(rows, "LOOTBUDDY")]
  }

  function TypeCount(rows: seq<Row>): nat
  {
    |WithType(rows, "TANK")| + |WithType(rows, "HEAL")| + |WithType(rows, "DPS")| + |WithType(rows, "LOOTBUDDY")|
  }

  /** Rows of one of the four types fall into exactly one group; other types are dropped. */
  lemma {:induction false} ByRolePartition(rows: seq<Row>)
    ensures TypeCount(rows) <= |rows|
    ensures (forall x :: x in rows ==> x.typ in ROLE_KEYS) ==> TypeCount(rows) == |rows|
    decreases |rows|
  {
    if rows != [] {
      var t := rows[1..];
      ByRolePartition(t);
      assert forall x :: x in t ==> x in rows;
      TypeCountStep(rows);
    }
  }

  lemma TypeCountStep(rows: seq<Row>)
    requires rows != []
    ensures TypeCount(rows) == TypeCount(rows[1..]) + (if rows[0].typ in ROLE_KEYS then 1 else 0)
  {
    WithTypeHead(rows, "TANK");
    WithTypeHead(rows, "HEAL");
    WithTypeHead(rows, "DPS");
    WithTypeHead(rows, "LOOTBUDDY");
  }

  /** The first row counts towards its own type only. */
  lemma WithTypeHead(rows: seq<Row>, t: string)
    requires rows != []
    ensures |WithType(rows, t)| == |WithType(rows[1..], t)| + (if rows[0].typ == t then 1 else 0)
  {
  }

  /** `raid.signups || []` */
  function SignupsOf(raid: Raid): seq<Row>
  {
    if raid.signups.Some? then raid.signups.value else []
  }

  /** A signup is on the roster iff PICKED and in the queue iff SIGNUPED; no row is in both. */
  lemma RosterAndQueue(raid: Raid, x: Row)
    ensures x in WithStatus(SignupsOf(raid), PICKED) <==> x in SignupsOf(raid) && x.status == PICKED
    ensures x in WithStatus(SignupsOf(raid), SIGNUPED) <==> x in SignupsOf(raid) && x.status == SIGNUPED
    ensures !(x in WithStatus(SignupsOf(raid), PICKED) && x in WithStatus(SignupsOf(raid), SIGNUPED))
  {
    WithStatusMembers(SignupsOf(raid), PICKED);
    WithStatusMembers(SignupsOf(raid), SIGNUPED);
  }

  // -----------------------------------------------------------------------
  // Lines

  /** The character has both a name and a realm. */
  predicate HasNameRealm(s: Row)
  {
    s.character.Some? && NonEmpty(s.character.value.name) && NonEmpty(s.character.value.realm)
  }

  /** `who`: "name-realm", else display name, user name, discord id, else an em dash. */
  function Who(s: Row): (r: string)
    ensures r != ""
    ensures HasNameRealm(s) ==> r == s.character.value.name.value + "-" + s.character.value.realm.value
    ensures !HasNameRealm(s) && s.user.Some? ==>
      var u := s.user.value;
      && (NonEmpty(u.displayName) ==> r == u.displayName.value)
      && (!NonEmpty(u.displayName) && NonEmpty(u.username) ==> r == u.username.value)
      && (!NonEmpty(u.displayName) && !NonEmpty(u.username) && NonEmpty(u.discordId) ==> r == u.discordId.value)
      && (!NonEmpty(u.displayName) && !NonEmpty(u.username) && !NonEmpty(u.discordId) ==> r == EM_DASH)
    ensures !HasNameRealm(s) && s.user.None? ==> r == EM_DASH
  {
    if HasNameRealm(s) then
      s.character.value.name.value + "-" + s.character.value.realm.value
    else if s.user.Some? && NonEmpty(s.user.value.displayName) then s.user.value.displayName.value
    else if s.user.Some? && NonEmpty(s.user.value.username) then s.user.value.username.value
    else if s.user.Some? && NonEmpty(s.user.value.discordId) then s.user.value.discordId.value
    else EM_DASH
  }

  /** `cls`: the class in parentheses, or nothing without a class. */
  function ClassPart(s: Row): (r: string)
    ensures r != "" <==> NonEmpty(s.cls)
    ensures r != "" ==> r == " (" + s.cls.value + ")"
  {
    if NonEmpty(s.cls) then " (" + s.cls.value + ")" else ""
  }

  /** `sv`: the saved marker, or nothing for a signup that is not saved. */
  function SavedPart(s: Row): (r: string)
    ensures r != "" <==> s.saved
    ensures r != "" ==> r == " [S]"
  {
    if s.saved then " [S]" else ""
  }

  /** The note behind an em dash, or nothing without a note. */
  function NotePart(s: Row): (r: string)
    ensures r != "" <==> NonEmpty(s.note)
    ensures r != "" ==> r == " " + EM_DASH + " " + s.note.value
  {
    if NonEmpty(s.note) then " " + EM_DASH + " " + s.note.value else ""
  }

  /** `fmt`: "• who (class) [S] — note", each optional part present iff its field is set. */
  function Fmt(s: Row): (r: string)
    ensures r == BULLET + Who(s) + ClassPart(s) + SavedPart(s) + NotePart(s)
    ensures |r| >= |BULLET| + |Who(s)| && r[..|BULLET|] == BULLET
    ensures r[|BULLET|..|BULLET| + |Who(s)|] == Who(s)
    ensures NonEmpty(s.note) ==> EndsWith(r, " " + EM_DASH + " " + s.note.value)
    ensures !NonEmpty(s.note) && s.saved ==> EndsWith(r, " [S]")
    ensures !NonEmpty(s.note) && !s.saved && NonEmpty(s.cls) ==> EndsWith(r, " (" + s.cls.value + ")")
    ensures !NonEmpty(s.note) && !s.saved && !NonEmpty(s.cls) ==> r == BULLET + Who(s)
  {
    var w, c, v, n := Who(s), ClassPart(s), SavedPart(s), NotePart(s);
    var head := BULLET + w;
    var r := head + c + v + n;
    assert r[..|head|] == head;
    assert head[..|BULLET|] == BULLET && head[|BULLET|..] == w;
    assert r[..|BULLET|] == BULLET;
    assert r[|BULLET|..|head|] == w;
    assert n != "" ==> r[|r| - |n|..] == n;
    assert n == "" && v != "" ==> r[|r| - |v|..] == v;
    assert n == "" && v == "" && c != "" ==> r[|r| - |c|..] == c;
    r
  }

  /** `arr.map(fmt).join("\n")` */
  function Lines(arr: seq<Row>): (r: string)
    requires arr != []
    ensures |r| >= |BULLET| && r[..|BULLET|] == BULLET
  {
    if |arr| == 1 then Fmt(arr[0])
    else
      var f := Fmt(arr[0]);
      var r := f + ("\n" + Lines(arr[1..]));
      PrefixOfConcat(f, "\n" + Lines(arr[1..]), |BULLET|);
      r
  }

  /** `arr.map(fmt)` */
  function FmtAll(arr: seq<Row>): (r: seq<string>)
    ensures |r| == |arr|
    ensures forall i :: 0 <= i < |arr| ==> r[i] == Fmt(arr[i])
  {
    if arr == [] then [] else [Fmt(arr[0])] + FmtAll(arr[1..])
  }

  /** The text of a group is each signup's line, in order, joined by line breaks. */
  lemma {:induction false} LinesJoin(arr: seq<Row>)
    requires arr != []
    ensures Lines(arr) == Join(FmtAll(arr), "\n")
    decreases |arr|
  {
    if |arr| > 1 {
      LinesJoin(arr[1..]);
      assert FmtAll(arr)[1..] == FmtAll(arr[1..]);
    }
  }

  /** When no line holds a line break, the group's text splits back into its lines. */
  lemma LinesSplitBack(arr: seq<Row>)
    requires arr != []
    requires forall i :: 0 <= i < |arr| ==> '\n' !in Fmt(arr[i])
    ensures Split(Lines(arr), '\n') == FmtAll(arr)
  {
    var parts := FmtAll(arr);
    NoBreakInFmtAll(arr);
    LinesJoin(arr);
    SplitOfJoin(Lines(arr), parts);
  }

  lemma NoBreakInFmtAll(arr: seq<Row>)
    requires forall i :: 0 <= i < |arr| ==> '\n' !in Fmt(arr[i])
    ensures forall i :: 0 <= i < |FmtAll(arr)| ==> '\n' !in FmtAll(arr)[i]
  {
  }

  lemma SplitOfJoin(text: string, parts: seq<string>)
    requires |parts| >= 1
    requires forall i :: 0 <= i < |parts| ==> '\n' !in parts[i]
    requires text == Join(parts, "\n")
    ensures Split(text, '\n') == parts
  {
    SplitJoin(parts, '\n');
  }

  lemma PrefixOfConcat(a: string, b: string, n: nat)
    requires n <= |a|
    ensures (a + b)[..n] == a[..n]
  {
  }

  /** `block`: an empty group shows an em dash; a group is never omitted. */
  function Block(arr: seq<Row>): (r: string)
    ensures r != ""
    ensures r == EM_DASH <==> arr == []
  {
    if arr == [] then EM_DASH
    else
      var r := Lines(arr);
      assert r[0] == BULLET[0] != EM_DASH[0];
      r
  }

  // -----------------------------------------------------------------------
  // Lead and the three embeds

  /** `/^[0-9]{16,20}$/` */
  predicate IdShaped(s: string)
  {
    16 <= |s| <= 20 && AllDigits(s)
  }

  /** The lead: a mention for an id-shaped lead, else the lead itself, else "-". */
  function LeadText(lead: Option<string>): (r: string)
    ensures NonEmpty(lead) && IdShaped(lead.value) ==> r == "<@" + lead.value + ">"
    ensures !(NonEmpty(lead) && IdShaped(lead.value)) ==> r == (if NonEmpty(lead) then lead.value else "-")
    ensures r != ""
  {
    var shown := if NonEmpty(lead) then lead.value else "";
    if IdShaped(shown) then "<@" + lead.value + ">"
    else if NonEmpty(lead) then lead.value
    else "-"
  }

  /** The lead text is a mention exactly when the lead is id-shaped. */
  lemma LeadMentionIff(lead: Option<string>)
    ensures StartsWith(LeadText(lead), "<@") <==> NonEmpty(lead) && (IdShaped(lead.value) || StartsWith(lead.value, "<@"))
  {
  }

  /** `${raid.id}`: the id's decimal text, or "undefined" for a raid without one. */
  function FooterId(id: Option<int>): (r: string)
    ensures id.None? ==> r == "undefined"
    ensures id.Some? ==> NumberOf(r) == Finite(id.value)
  {
    if id.Some? then NumberOfIntToString(id.value); IntToString(id.value) else "undefined"
  }

  function Color(raid: Raid): int
  {
    if raid.difficulty.Some? && Lower(raid.difficulty.value) == "mythic" then 0x8b5cf6 else 0x0ea5e9
  }

  function OrEmpty(s: Option<string>): string
  {
    if NonEmpty(s) then s.value else ""
  }

  /** The titles of the four role fields; only the last one is not inline. */
  const ROLE_TITLES: seq<string> := [
    "\U{1F6E1}\U{FE0F} Tanks", "\U{2728} Heals", "\U{2694}\U{FE0F} DPS", "\U{1F4B0} Lootbuddies"]

  function RoleFields(groups: seq<seq<Row>>): (fs: seq<Field>)
    requires |groups| == 4
    ensures |fs| == 4
    ensures forall k :: 0 <= k < 4 ==> fs[k] == Field(ROLE_TITLES[k], Block(groups[k]), k < 3)
  {
    seq(4, k requires 0 <= k < 4 => Field(ROLE_TITLES[k], Block(groups[k]), k < 3))
  }

  /**
   * `buildRaidEmbeds`; the formatted date is a parameter (locale formatting
   * is not part of this model).
   */
  function BuildRaidEmbeds(raid: Raid, fDate: string): (r: seq<Embed>)
    ensures |r| == 3
    ensures r[0].title == (if NonEmpty(raid.title) then raid.title.value else "Raid")
      + " " + EM_DASH + " " + OrEmpty(raid.difficulty) + " (" + OrEmpty(raid.lootType) + ")"
    ensures r[1].title == "Roster" && r[2].title == "Signups"
    ensures forall k :: 0 <= k < 3 ==> r[k].color == r[0].color
    ensures raid.difficulty.Some? && Lower(raid.difficulty.value) == "mythic" ==> r[0].color == 0x8b5cf6
    ensures !(raid.difficulty.Some? && Lower(raid.difficulty.value) == "mythic") ==> r[0].color == 0x0ea5e9
    ensures r[0].footer == "Raid #" + FooterId(raid.id)
    ensures r[1].footer == "RID:" + FooterId(raid.id) && r[2].footer == "RID:" + FooterId(raid.id)
    ensures r[0].fields == [Field("Lead", LeadText(raid.lead), false), Field("Datum", fDate, false)]
    ensures |r[1].fields| == 4 && |r[2].fields| == 4
    ensures forall k :: 0 <= k < 4 ==>
      r[1].fields[k] == Field(ROLE_TITLES[k], Block(WithType(WithStatus(SignupsOf(raid), PICKED), ROLE_KEYS[k])), k < 3)
    ensures forall k :: 0 <= k < 4 ==>
      r[2].fields[k] == Field(ROLE_TITLES[k], Block(WithType(WithStatus(SignupsOf(raid), SIGNUPED), ROLE_KEYS[k])), k < 3)
  {
    var color := Color(raid);
    var picked := ByRole(WithStatus(SignupsOf(raid), PICKED));
    var queued := ByRole(WithStatus(SignupsOf(raid), SIGNUPED));
    var title := (if NonEmpty(raid.title) then raid.title.value else "Raid")
      + " " + EM_DASH + " " + OrEmpty(raid.difficulty) + " (" + OrEmpty(raid.lootType) + ")";
    var head := Embed(color, title, [Field("Lead", LeadText(raid.lead), false), Field("Datum", fDate, false)],
      "Raid #" + FooterId(raid.id));
    var roster := Embed(color, "Roster", RoleFields(picked), "RID:" + FooterId(raid.id));
    var signups := Embed(color, "Signups", RoleFields(queued), "RID:" + FooterId(raid.id));
    [head, roster, signups]
  }

  /** A signup shows in some roster group only if it is PICKED and has one of the four types. */
  lemma ShownOnRoster(raid: Raid, k: nat, x: Row)
    requires k < 4
    requires x in ByRole(WithStatus(SignupsOf(raid), PICKED))[k]
    ensures x in SignupsOf(raid) && x.status == PICKED && x.typ == ROLE_KEYS[k]
  {
    var picked := WithStatus(SignupsOf(raid), PICKED);
    WithStatusMembers(SignupsOf(raid), PICKED);
    WithTypeMembers(picked, ROLE_KEYS[k]);
  }
}
