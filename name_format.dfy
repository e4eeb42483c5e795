/**
 * Raid channel names as discord/modules/nameFormat.js builds them:
 * `dow-hhmm-diff-loot-lead`, e.g. `sat-2315-hc-vip-syntax`.
 */
module NameFormat {
  import opened Common
  import opened Text
  import Calendar

  const DOWS: seq<string> := ["sun", "mon", "tue", "wed", "thu", "fri", "sat"]

  /** `raid.date` as `new Date(...)` sees it: absent, a valid instant, or not a date. */
  datatype DateIn = NoDate | Parsed(t: int) | Unparseable

  /** The raid fields the name reads. */
  datatype RaidInfo = RaidInfo(
    date: DateIn, time: Option<string>, difficulty: Option<string>,
    lootType: Option<string>, loot: Option<string>,
    leadName: Option<string>, lead: Option<string>, leadDisplay: Option<string>, leadUser: Option<string>)

  /** `slugify`: "tbd" for a falsy input, else the word slug. */
  function Slugify(s: Option<string>): (r: string)
    ensures SlugShaped(r)
    ensures !NonEmpty(s) ==> r == "tbd"
  {
    if !NonEmpty(s) then
      var t := "tbd";
      assert forall i :: 0 <= i < |t| ==> IsLowerAlnum(t[i]);
      t
    else WordSlug(s.value)
  }

  /** `/^\d{2}:\d{2}$/` */
  predicate TimeShaped(t: string)
  {
    |t| == 5 && IsDigit(t[0]) && IsDigit(t[1]) && t[2] == ':' && IsDigit(t[3]) && IsDigit(t[4])
  }

  /** The instant the name describes: a valid date, else now. */
  function Instant(d: DateIn, now: int): int
  {
    if d.Parsed? then d.t else now
  }

  /** `hhmm`: a well-formed `raid.time` wins over the date's clock time. */
  function Hhmm(time: Option<string>, dt: int, tz: int): (r: string)
    ensures |r| == 4 && AllDigits(r)
    ensures time.Some? && TimeShaped(time.value) ==> r == time.value[..2] + time.value[3..]
    ensures !(time.Some? && TimeShaped(time.value)) ==>
      DigitsValue(r[..2]) == Calendar.Hours(dt, tz) && DigitsValue(r[2..]) == Calendar.Minutes(dt, tz)
  {
    if time.Some? && TimeShaped(time.value) then
      var t := time.value;
      t[..2] + t[3..]
    else
      var h := Pad2(Calendar.Hours(dt, tz));
      var m := Pad2(Calendar.Minutes(dt, tz));
      Pad2Value(Calendar.Hours(dt, tz));
      Pad2Value(Calendar.Minutes(dt, tz));
      var r := h + m;
      assert r[..2] == h && r[2..] == m;
      r
  }

  lemma Pad2Value(n: nat)
    requires n < 100
    ensures DigitsValue(Pad2(n)) == n
  {
    DigitsValueOfNatToString(n);
    var s := NatToString(n);
    if |s| < 2 {
      assert ("0" + s)[..1] == "0";
      assert DigitsValue("0") == 0;
      assert ("0" + s)[..|"0" + s| - 1] == "0";
    }
  }

  /** The difficulty code: normal, heroic and mythic in any case give nm, hc and my. */
  function DiffCode(difficulty: Option<string>): (r: string)
    ensures SlugShaped(r)
    ensures difficulty.Some? && Lower(difficulty.value) == "normal" ==> r == "nm"
    ensures difficulty.Some? && Lower(difficulty.value) == "heroic" ==> r == "hc"
    ensures difficulty.Some? && Lower(difficulty.value) == "mythic" ==> r == "my"
    ensures !NonEmpty(difficulty) ==> r == "tbd"
  {
    var raw := if NonEmpty(difficulty) then Lower(difficulty.value) else "";
    if raw == "normal" then Code("nm")
    else if raw == "heroic" then Code("hc")
    else if raw == "mythic" then Code("my")
    else Slugify(if raw == "" then None else Some(raw))
  }

  /** A two-letter code is a slug. */
  function Code(c: string): (r: string)
    requires |c| == 2 && 'a' <= c[0] <= 'z' && 'a' <= c[1] <= 'z'
    ensures r == c && SlugShaped(r)
  {
    c
  }

  /** `raid.leadName || raid.lead || raid.leadDisplay || raid.leadUser || ""` */
  function LeadSource(raid: RaidInfo): Option<string>
  {
    OrStr(OrStr(OrStr(raid.leadName, raid.lead), raid.leadDisplay), raid.leadUser)
  }

  /** `slugify(leadSrc) || "tbd"` */
  function LeadSlug(raid: RaidInfo): (r: string)
    ensures SlugShaped(r) && r != ""
    ensures !NonEmpty(LeadSource(raid)) ==> r == "tbd"
  {
    var s := Slugify(LeadSource(raid));
    if s == "" then Slugify(None) else s
  }

  /** `slugify(raid.lootType || raid.loot || "tbd")` */
  function LootCode(raid: RaidInfo): (r: string)
    ensures SlugShaped(r)
    ensures !NonEmpty(raid.lootType) && !NonEmpty(raid.loot) ==> r == "tbd"
  {
    Slugify(OrStr(raid.lootType, raid.loot))
  }

  /** `dows[dt.getDay()]` */
  function DayName(w: int): (r: string)
    requires 0 <= w < 7
    ensures |r| == 3
  {
    assert forall k :: 0 <= k < 7 ==> |DOWS[k]| == 3;
    DOWS[w]
  }

  /** Five fields joined by `-`, the first two of fixed width. */
  function Dashed(dow: string, hhmm: string, diff: string, loot: string, lead: string): (r: string)
    requires |dow| == 3 && |hhmm| == 4
    ensures |r| >= 9 && r[..3] == dow && r[3] == '-' && r[4..8] == hhmm && r[8] == '-'
    ensures r[9..] == diff + "-" + loot + "-" + lead
    ensures EndsWith(r, "-" + lead)
  {
    var r := dow + "-" + hhmm + "-" + (diff + "-" + loot + "-" + lead);
    assert r[..3] == dow && r[4..8] == hhmm;
    assert r[|r| - |"-" + lead|..] == "-" + lead;
    r
  }

  /** `formatRaidChannelName`; `now` and the local offset stand for the clock and time zone. */
  function FormatRaidChannelName(raid: RaidInfo, now: int, tz: int): (r: string)
    ensures |r| >= 9 && r[3] == '-' && AllDigits(r[4..8]) && r[8] == '-'
    ensures r[..3] == DayName(Calendar.Weekday(Instant(raid.date, now), tz))
    ensures r[4..8] == Hhmm(raid.time, Instant(raid.date, now), tz)
    ensures r[9..] == DiffCode(raid.difficulty) + "-" + LootCode(raid) + "-" + LeadSlug(raid)
    ensures EndsWith(r, "-" + LeadSlug(raid))
  {
    var dt := Instant(raid.date, now);
    Dashed(DayName(Calendar.Weekday(dt, tz)), Hhmm(raid.time, dt, tz),
      DiffCode(raid.difficulty), LootCode(raid), LeadSlug(raid))
  }

  /** Without any lead field the name ends in `-tbd`. */
  lemma NoLeadGivesTbd(raid: RaidInfo, now: int, tz: int)
    requires !NonEmpty(raid.leadName) && !NonEmpty(raid.lead) && !NonEmpty(raid.leadDisplay) && !NonEmpty(raid.leadUser)
    ensures EndsWith(FormatRaidChannelName(raid, now, tz), "-tbd")
  {
    assert !NonEmpty(LeadSource(raid));
  }

  /** The documented example: Saturday, "23:15", Heroic, VIP, lead Syntax. */
  lemma DocumentedExample(raid: RaidInfo, now: int, tz: int)
    requires raid.date.Parsed? && Calendar.Weekday(raid.date.t, tz) == 6
    requires raid.time == Some("23:15") && raid.difficulty == Some("Heroic") && raid.lootType == Some("VIP")
    requires raid.leadName == Some("Syntax")
    ensures FormatRaidChannelName(raid, now, tz) == "sat-2315-hc-vip-syntax"
  {
    ExampleFields(raid, tz);
    var dt := Instant(raid.date, now);
    assert FormatRaidChannelName(raid, now, tz) == Dashed(DayName(Calendar.Weekday(dt, tz)), Hhmm(raid.time, dt, tz),
      DiffCode(raid.difficulty), LootCode(raid), LeadSlug(raid));
    ExampleJoined("sat", "2315", "hc", "vip", "syntax");
  }

  lemma ExampleJoined(a: string, b: string, c: string, d: string, e: string)
    requires a == "sat" && b == "2315" && c == "hc" && d == "vip" && e == "syntax"
    ensures Dashed(a, b, c, d, e) == "sat-2315-hc-vip-syntax"
  {
  }

  lemma ExampleFields(raid: RaidInfo, tz: int)
    requires raid.date.Parsed? && Calendar.Weekday(raid.date.t, tz) == 6
    requires raid.time == Some("23:15") && raid.difficulty == Some("Heroic") && raid.lootType == Some("VIP")
    requires raid.leadName == Some("Syntax")
    ensures DayName(Calendar.Weekday(raid.date.t, tz)) == "sat"
    ensures Hhmm(raid.time, raid.date.t, tz) == "2315"
    ensures DiffCode(raid.difficulty) == "hc"
    ensures LootCode(raid) == "vip"
    ensures LeadSlug(raid) == "syntax"
  {
    ExampleTime(raid.time.value);
    ExampleDiff(raid.difficulty.value);
    ExampleWord(raid.lootType.value, "vip");
    ExampleWord(raid.leadName.value, "syntax");
  }

  lemma ExampleTime(t: string)
    requires t == "23:15"
    ensures TimeShaped(t) && t[..2] + t[3..] == "2315"
  {
  }

  lemma ExampleDiff(d: string)
    requires d == "Heroic"
    ensures Lower(d) == "heroic"
  {
  }

  lemma ExampleWord(w: string, l: string)
    requires (w == "VIP" && l == "vip") || (w == "Syntax" && l == "syntax")
    ensures WordSlug(w) == l
  {
    WordSlugOfWord(w);
  }
}
