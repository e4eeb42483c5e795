/**
 * `buildTitle` (utils/title.js): a raid's default title is "Manaforge",
 * the difficulty, the boss count for a Mythic raid that has one, and the
 * loot type, pushed onto a list and joined with single spaces.
 */
module Title {
  import opened Common

  /** How `Array.prototype.join` prints an element: null and undefined print as nothing. */
  function JoinText(v: Js): (r: string)
    ensures IsNullish(v) ==> r == ""
    ensures !IsNullish(v) ==> r == JsString(v)
  {
    if IsNullish(v) then "" else JsString(v)
  }

  /** The boss count joins the title only for a Mythic raid with a truthy count. */
  predicate WithBosses(difficulty: Js, bosses: Js)
  {
    difficulty == Str("Mythic") && Truthy(bosses)
  }

  /** The printed parts of the title, in the order the code pushes them. */
  function TitleParts(difficulty: Js, bosses: Js, lootType: Js): (parts: seq<string>)
    ensures |parts| == 3 || |parts| == 4
    ensures |parts| == 4 <==> WithBosses(difficulty, bosses)
    ensures parts[0] == "Manaforge" && parts[1] == JoinText(difficulty)
    ensures parts[|parts| - 1] == JoinText(lootType)
    ensures |parts| == 4 ==> parts[2] == JoinText(bosses)
  {
    if WithBosses(difficulty, bosses) then ["Manaforge", JoinText(difficulty), JoinText(bosses), JoinText(lootType)]
    else ["Manaforge", JoinText(difficulty), JoinText(lootType)]
  }

  /** `buildTitle({ difficulty, bosses, lootType })` */
  method BuildTitle(difficulty: Js, bosses: Js, lootType: Js) returns (title: string)
    ensures title == Join(TitleParts(difficulty, bosses, lootType), " ")
  {
    var parts := ["Manaforge", JoinText(difficulty)];
    if difficulty == Str("Mythic") && Truthy(bosses) {
      parts := parts + [JoinText(bosses)];
    }
    parts := parts + [JoinText(lootType)];
    assert parts == TitleParts(difficulty, bosses, lootType);
    title := Join(parts, " ");
  }

  /** The title starts with "Manaforge <difficulty> " and ends with " <lootType>". */
  lemma TitleFrame(difficulty: Js, bosses: Js, lootType: Js)
    ensures var t := Join(TitleParts(difficulty, bosses, lootType), " ");
      && StartsWith(t, "Manaforge " + JoinText(difficulty) + " ")
      && EndsWith(t, " " + JoinText(lootType))
  {
    var d, b, l := JoinText(difficulty), JoinText(bosses), JoinText(lootType);
    var parts := TitleParts(difficulty, bosses, lootType);
    assert "Manaforge" + " " == "Manaforge ";
    if WithBosses(difficulty, bosses) {
      JoinFour(parts, " ");
      FrameFour("Manaforge", d, b, l);
    } else {
      JoinThree(parts, " ");
      FrameThree("Manaforge", d, l);
    }
  }

  lemma JoinThree(parts: seq<string>, sep: string)
    requires |parts| == 3
    ensures Join(parts, sep) == parts[0] + sep + parts[1] + sep + parts[2]
  {
    var tail := parts[1..];
    assert tail[1..] == [parts[2]];
    assert Join(tail[1..], sep) == parts[2];
    assert Join(tail, sep) == parts[1] + sep + parts[2];
    assert Join(parts, sep) == parts[0] + sep + (parts[1] + sep + parts[2]);
  }

  lemma JoinFour(parts: seq<string>, sep: string)
    requires |parts| == 4
    ensures Join(parts, sep) == parts[0] + sep + parts[1] + sep + parts[2] + sep + parts[3]
  {
    JoinThree(parts[1..], sep);
    assert Join(parts, sep) == parts[0] + sep + (parts[1] + sep + parts[2] + sep + parts[3]);
  }

  /** Four parts joined by spaces: the first two lead, the last one ends it. */
  lemma FrameFour(m: string, d: string, b: string, l: string)
    ensures var t := m + " " + d + " " + b + " " + l;
      StartsWith(t, m + " " + d + " ") && EndsWith(t, " " + l)
  {
    var t := m + " " + d + " " + b + " " + l;
    var h := m + " " + d + " ";
    assert t == h + (b + " " + l);
    assert t[..|h|] == h;
    assert t == (m + " " + d + " " + b) + (" " + l);
  }

  /** Three parts joined by spaces: the first two lead, the last one ends it. */
  lemma FrameThree(m: string, d: string, l: string)
    ensures var t := m + " " + d + " " + l;
      StartsWith(t, m + " " + d + " ") && EndsWith(t, " " + l)
  {
    var t := m + " " + d + " " + l;
    var h := m + " " + d + " ";
    assert t == h + l;
    assert t[..|h|] == h;
    assert t == (m + " " + d) + (" " + l);
  }

  /** When no part contains a space, splitting the title on spaces gives back its 3 or 4 parts. */
  lemma TitleReadsBack(difficulty: Js, bosses: Js, lootType: Js)
    requires ' ' !in JoinText(difficulty) && ' ' !in JoinText(bosses) && ' ' !in JoinText(lootType)
    ensures Split(Join(TitleParts(difficulty, bosses, lootType), " "), ' ') == TitleParts(difficulty, bosses, lootType)
  {
    var parts := TitleParts(difficulty, bosses, lootType);
    assert ' ' !in parts[0];
    SplitJoin(parts, ' ');
  }
}
