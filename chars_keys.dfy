/**
 * The character router's text helpers and its choice of the raid whose
 * progress a character shows (routes/chars.js): value cleaning, the raid
 * slug, the alias table, the ordered list of wanted raid keys and the
 * progress summary taken from a Raider.IO `raid_progression` object.
 */
module CharsKeys {
  import opened Common
  import opened Text

  /** `cleanStr`: null stays null, blank text becomes null, anything else is trimmed. */
  function CleanStr(v: Js): (r: Option<string>)
    ensures IsNullish(v) ==> r.None?
    ensures r.Some? ==> r.value != "" && Trim(r.value) == r.value
    ensures !IsNullish(v) && Trim(JsString(v)) == "" ==> r.None?
    ensures !IsNullish(v) && Trim(JsString(v)) != "" ==> r == Some(Trim(JsString(v)))
  {
    if IsNullish(v) then None
    else
      var s := Trim(JsString(v));
      TrimIdempotent(JsString(v));
      if |s| > 0 then Some(s) else None
  }

  /** Cleaning a cleaned value changes nothing. */
  lemma CleanStrIdempotent(v: Js)
    requires CleanStr(v).Some?
    ensures CleanStr(Str(CleanStr(v).value)) == CleanStr(v)
  {
    var t := CleanStr(v).value;
    assert JsString(Str(t)) == t && !IsNullish(Str(t));
    assert Trim(t) == t != "";
  }

  /** `toIntOrNull`: null, undefined and "" give null, otherwise `parseInt(v, 10)` unless NaN. */
  function ToIntOrNull(v: Js): (r: Option<int>)
    ensures IsNullish(v) || v == Str("") ==> r.None?
    ensures v.Num? ==> r == Some(v.n)
    ensures v.Str? && v.s != "" && AllDigits(v.s) ==> r == Some(DigitsValue(v.s))
  {
    if IsNullish(v) || v == Str("") then None
    else
      ParseIntFacts(v);
      ParseIntPrefix(JsString(v))
  }

  lemma ParseIntFacts(v: Js)
    ensures v.Num? ==> ParseIntPrefix(JsString(v)) == Some(v.n)
    ensures v.Str? && v.s != "" && AllDigits(v.s) ==> ParseIntPrefix(JsString(v)) == Some(DigitsValue(v.s))
  {
    if v.Num? {
      ParseIntOfInt(v.n);
    } else if v.Str? && v.s != "" && AllDigits(v.s) {
      ParseIntOfDigits(v.s);
    }
  }

  lemma {:induction false} TakeAllDigits(s: string)
    requires AllDigits(s)
    ensures TakeDigits(s) == s
  {
    if s != [] {
      TakeAllDigits(s[1..]);
    }
  }

  /** `parseInt` of a run of digits is its value. */
  lemma ParseIntOfDigits(s: string)
    requires s != "" && AllDigits(s)
    ensures ParseIntPrefix(s) == Some(DigitsValue(s))
  {
    assert IsDigit(s[0]);
    assert TrimStart(s) == s;
    TakeAllDigits(s);
  }

  lemma ParseIntOfNegative(k: nat)
    requires k > 0
    ensures ParseIntPrefix("-" + NatToString(k)) == Some(-(k as int))
  {
    DigitsValueOfNatToString(k);
    ParseIntOfMinus("-" + NatToString(k), NatToString(k), k);
  }

  /** `parseInt` of a minus sign before a run of digits is the negated value. */
  lemma ParseIntOfMinus(t: string, d: string, v: nat)
    requires d != [] && AllDigits(d) && t == "-" + d && DigitsValue(d) == v
    ensures ParseIntPrefix(t) == Some(-(v as int))
  {
    assert t[0] == '-' && !IsWs('-');
    assert TrimStart(t) == t;
    assert SkipSign(t) == d;
    TakeAllDigits(d);
  }

  lemma ParseIntOfNat(k: nat)
    ensures ParseIntPrefix(NatToString(k)) == Some(k as int)
  {
    var d := NatToString(k);
    ParseIntOfDigits(d);
    DigitsValueOfNatToString(k);
  }

  /** `parseInt(String(n), 10)` is `n` again. */
  lemma ParseIntOfInt(n: int)
    ensures ParseIntPrefix(IntToString(n)) == Some(n)
  {
    var t := IntToString(n);
    if n >= 0 {
      assert t == NatToString(n);
      ParseIntOfNat(n);
    } else {
      var k: nat := -n;
      assert t == "-" + NatToString(k);
      ParseIntOfNegative(k);
    }
  }

  // ---------------------------------------------------------------------
  // Raid slugs

  /** The characters a raid slug is made of. */
  predicate IsSlugChar(c: char)
  {
    IsLowerAlnum(c) || c == '_' || c == '-'
  }

  /** Lower-case letters, digits, `_` and `-`, with no doubled `-`. */
  predicate IsSlug(s: string)
  {
    && (forall i :: 0 <= i < |s| ==> IsSlugChar(s[i]))
    && (forall i :: 0 <= i < |s| - 1 ==> !(s[i] == '-' && s[i + 1] == '-'))
  }

  /**
   * `slugify`: lower-case, drop everything but word characters,
   * whitespace and `-`, turn whitespace runs into `-`, collapse `-` runs,
   * trim.
   */
  function Slugify(s: string): (r: string)
    ensures IsSlug(r)
  {
    var a := RemoveClass(Lower(s), NotWordWsOrDash);
    var b := ReplaceRuns(a, Whitespace, '-');
    var c := ReplaceRuns(b, Dash, '-');
    SlugSteps(s, a, b, c);
    Trim(c)
  }

  lemma SlugSteps(s: string, a: string, b: string, c: string)
    requires a == RemoveClass(Lower(s), NotWordWsOrDash)
    requires b == ReplaceRuns(a, Whitespace, '-')
    requires c == ReplaceRuns(b, Dash, '-')
    ensures IsSlug(c) && Trim(c) == c
  {
    assert forall i :: 0 <= i < |a| ==> IsSlugChar(a[i]) || IsWs(a[i]) by {
      RemoveClassFrom(Lower(s), NotWordWsOrDash);
    }
    assert forall i :: 0 <= i < |b| ==> IsSlugChar(b[i]) by {
      ReplaceRunsFrom(a, Whitespace, '-');
    }
    assert IsSlug(c) by {
      ReplaceRunsFrom(b, Dash, '-');
      assert forall i :: 0 <= i < |c| ==> IsSlugChar(c[i]);
    }
    assert Trim(c) == c by {
      if c != [] {
        SlugCharNotWs(c[0]);
        SlugCharNotWs(c[|c| - 1]);
      }
      TrimNoOp(c);
    }
  }

  lemma SlugCharNotWs(c: char)
    requires IsSlugChar(c)
    ensures !IsWs(c)
  {
  }

  /** What `RemoveClass` keeps comes from its input. */
  lemma {:induction false} RemoveClassFrom(s: string, k: CharClass)
    ensures forall i :: 0 <= i < |RemoveClass(s, k)| ==> RemoveClass(s, k)[i] in s
  {
    if s != [] {
      RemoveClassFrom(s[1..], k);
    }
  }

  /** What `ReplaceRuns` outputs is the replacement or comes from its input. */
  lemma {:induction false} ReplaceRunsFrom(s: string, k: CharClass, r: char)
    ensures forall i :: 0 <= i < |ReplaceRuns(s, k, r)| ==> ReplaceRuns(s, k, r)[i] == r || ReplaceRuns(s, k, r)[i] in s
    decreases |s|
  {
    if s != [] {
      if In(k, s[0]) {
        var t := DropRun(s[1..], k);
        ReplaceRunsFrom(t, k, r);
        assert forall c :: c in t ==> c in s;
      } else {
        ReplaceRunsFrom(s[1..], k, r);
      }
    }
  }

  /** Collapsing `-` runs in text without doubled `-` changes nothing. */
  lemma {:induction false} CollapseSingleDashes(s: string)
    requires forall i :: 0 <= i < |s| - 1 ==> !(s[i] == '-' && s[i + 1] == '-')
    ensures ReplaceRuns(s, Dash, '-') == s
    decreases |s|
  {
    if s != [] {
      var t := s[1..];
      forall i | 0 <= i < |t| - 1
        ensures !(t[i] == '-' && t[i + 1] == '-')
      {
        assert t[i] == s[i + 1] && t[i + 1] == s[i + 2];
      }
      CollapseSingleDashes(t);
      if s[0] == '-' {
        assert t == [] || !In(Dash, t[0]);
        assert DropRun(t, Dash) == t;
        assert ReplaceRuns(s, Dash, '-') == ['-'] + ReplaceRuns(t, Dash, '-');
      } else {
        assert ReplaceRuns(s, Dash, '-') == [s[0]] + ReplaceRuns(t, Dash, '-');
      }
      assert s == [s[0]] + t;
    }
  }

  /** A slug is its own slug. */
  lemma SlugifyOfSlug(t: string)
    requires IsSlug(t)
    ensures Slugify(t) == t
  {
    assert Lower(t) == t;
    RemoveClassNoHit(t, NotWordWsOrDash);
    forall i | 0 <= i < |t|
      ensures !In(Whitespace, t[i])
    {
      SlugCharNotWs(t[i]);
    }
    ReplaceRunsNoHit(t, Whitespace, '-');
    CollapseSingleDashes(t);
    if t != [] {
      SlugCharNotWs(t[0]);
      SlugCharNotWs(t[|t| - 1]);
    }
    TrimNoOp(t);
  }

  /** Slugifying twice is slugifying once. */
  lemma SlugifyIdempotent(s: string)
    ensures Slugify(Slugify(s)) == Slugify(s)
  {
    SlugifyOfSlug(Slugify(s));
  }

  /** The realm part of a Warcraft Logs address: lower-case, whitespace runs as `-`. */
  function RealmSlug(realm: string): (r: string)
    ensures forall i :: 0 <= i < |r| ==> !IsWs(r[i]) && !('A' <= r[i] <= 'Z')
    ensures (forall i :: 0 <= i < |realm| ==> !IsWs(realm[i])) ==> r == Lower(realm)
  {
    var l := Lower(realm);
    ReplaceRunsFrom(l, Whitespace, '-');
    if forall i :: 0 <= i < |realm| ==> !IsWs(realm[i]) then
      LowerKeepsNonWs(realm);
      ReplaceRunsNoHit(l, Whitespace, '-');
      ReplaceRuns(l, Whitespace, '-')
    else
      ReplaceRuns(l, Whitespace, '-')
  }

  lemma LowerKeepsNonWs(s: string)
    requires forall i :: 0 <= i < |s| ==> !IsWs(s[i])
    ensures forall i :: 0 <= i < |Lower(s)| ==> !In(Whitespace, Lower(s)[i])
  {
    forall i | 0 <= i < |s|
      ensures !IsWs(Lower(s)[i])
    {
      assert Lower(s)[i] == LowerChar(s[i]);
    }
  }

  /** Where every Warcraft Logs character address starts. */
  function WclBase(): string
  {
    "https://www.warcraftlogs.com/character/"
  }

  /** The part of a Warcraft Logs address after the base: region, realm slug and lower-cased name. */
  function WclPath(region: string, realm: string, name: string): string
  {
    region + "/" + RealmSlug(realm) + "/" + Lower(name)
  }

  /** `makeWclUrl`: the character page, the base followed by the path. */
  function MakeWclUrl(region: string, realm: string, name: string): (r: string)
    ensures |r| > |WclBase()| && r[..|WclBase()|] == WclBase() && r[|WclBase()|..] == WclPath(region, realm, name)
  {
    var r := WclBase() + WclPath(region, realm, name);
    assert r[..|WclBase()|] == WclBase();
    r
  }

  /**
   * The path reads back: it splits on `/` into the region, the realm slug
   * and the lower-cased name, when none of the three inputs holds a `/`.
   */
  lemma WclPathSegments(region: string, realm: string, name: string)
    requires '/' !in region && '/' !in realm && '/' !in name
    ensures Split(WclPath(region, realm, name), '/') == [region, RealmSlug(realm), Lower(name)]
  {
    var slug, low := RealmSlug(realm), Lower(name);
    ReplaceRunsFrom(Lower(realm), Whitespace, '-');
    assert '/' !in slug;
    SplitThree(region, slug, low, '/');
  }

  // ---------------------------------------------------------------------
  // Raid aliases

  /** `builtinAliases()` */
  const BuiltinAliases: map<string, string> := map[
    "manaforge-omega" := "manaforge-omega",
    "manaforge" := "manaforge-omega",
    "omega" := "manaforge-omega",
    "nerubar" := "nerubar-palace",
    "nerub-ar-palace" := "nerubar-palace",
    "amirdrassil" := "amirdrassil-the-dreams-hope",
    "aberrus" := "aberrus-the-shadowed-crucible",
    "vault" := "vault-of-the-incarnates"]

  /** One `a:b` item of the alias list, both sides slugified; None when either side is empty. */
  function AliasPair(item: string): (r: Option<(string, string)>)
    ensures r.Some? ==> r.value.0 != "" && r.value.1 != "" && IsSlug(r.value.0) && IsSlug(r.value.1)
  {
    var parts := Split(item, ':');
    var a := Slugify(parts[0]);
    var b := if |parts| > 1 then Slugify(parts[1]) else "";
    if a != "" && b != "" then Some((a, b)) else None
  }

  /** An item whose two sides slugify to non-empty text gives that pair. */
  lemma AliasPairOfSlugs(a: string, b: string)
    requires a != "" && b != "" && IsSlug(a) && IsSlug(b) && ':' !in a && ':' !in b
    ensures AliasPair(a + ":" + b) == Some((a, b))
  {
    var item := a + ":" + b;
    assert item == a + [':'] + b;
    SplitPrefix(a, b, ':');
    SplitNoSeparator(b, ':');
    assert Split(item, ':') == [a] + [b] == [a, b];
    SlugifyOfSlug(a);
    SlugifyOfSlug(b);
    AliasPairOfParts(item, a, b);
  }

  lemma AliasPairOfParts(item: string, a: string, b: string)
    requires Split(item, ':') == [a, b]
    requires Slugify(a) == a != "" && Slugify(b) == b != ""
    ensures AliasPair(item) == Some((a, b))
  {
  }

  /** A present pair is two non-empty slugs. */
  predicate GoodPair(p: Option<(string, string)>)
  {
    p.Some? ==> p.value.0 != "" && p.value.1 != "" && IsSlug(p.value.0) && IsSlug(p.value.1)
  }

  /** Every key and value is a non-empty slug. */
  predicate SlugMap(m: map<string, string>)
  {
    forall k :: k in m ==> k != "" && m[k] != "" && IsSlug(k) && IsSlug(m[k])
  }

  /** `raw.split(",")`, each item parsed as a pair. */
  function ParsePairs(items: seq<string>): (r: seq<Option<(string, string)>>)
    ensures |r| == |items|
  {
    if items == [] then []
    else [AliasPair(items[0])] + ParsePairs(items[1..])
  }

  /** Every parsed pair is either skipped or a pair of non-empty slugs. */
  lemma ParsePairsGood(items: seq<string>)
    ensures forall i :: 0 <= i < |ParsePairs(items)| ==> GoodPair(ParsePairs(items)[i])
  {
    forall i | 0 <= i < |ParsePairs(items)| ensures GoodPair(ParsePairs(items)[i]) {
      ParsePairsAt(items, i);
    }
  }

  /** The alias loop over parsed pairs, starting from `out`: a later pair for the same key wins. */
  function AddPairs(out: map<string, string>, ps: seq<Option<(string, string)>>): (r: map<string, string>)
    ensures forall k :: k in out ==> k in r
    ensures forall i :: 0 <= i < |ps| && ps[i].Some? ==> ps[i].value.0 in r
    ensures forall k :: k in r ==> (k in out && r[k] == out[k]) || Some((k, r[k])) in ps
    ensures ps != [] && ps[|ps| - 1].Some? ==> r[ps[|ps| - 1].value.0] == ps[|ps| - 1].value.1
    decreases |ps|
  {
    if ps == [] then out
    else
      var next := if ps[0].Some? then out[ps[0].value.0 := ps[0].value.1] else out;
      var r := AddPairs(next, ps[1..]);
      assert forall x :: x in ps[1..] ==> x in ps;
      assert |ps| > 1 ==> ps[1..][|ps[1..]| - 1] == ps[|ps| - 1];
      r
  }

  /** Adding slug pairs to a slug map gives a slug map. */
  lemma {:induction false} AddPairsKeepSlugs(out: map<string, string>, ps: seq<Option<(string, string)>>)
    requires SlugMap(out)
    requires forall i :: 0 <= i < |ps| ==> GoodPair(ps[i])
    ensures SlugMap(AddPairs(out, ps))
    decreases |ps|
  {
    if ps != [] {
      var next := if ps[0].Some? then out[ps[0].value.0 := ps[0].value.1] else out;
      assert GoodPair(ps[0]);
      assert SlugMap(next);
      AddPairsKeepSlugs(next, ps[1..]);
    }
  }

  /** The alias map the environment's `a:b,c:d` list gives. */
  function EnvAliasMap(raw: Option<string>): (r: map<string, string>)
    ensures SlugMap(r)
  {
    var clean := CleanStr(if raw.Some? then Str(raw.value) else Undefined);
    if clean.None? then map[]
    else
      var ps := ParsePairs(Split(clean.value, ','));
      ParsePairsGood(Split(clean.value, ','));
      AddPairsKeepSlugs(map[], ps);
      AddPairs(map[], ps)
  }

  /** `envAliases`, reading the alias list once. */
  method EnvAliases(raw: Option<string>) returns (out: map<string, string>)
    ensures out == EnvAliasMap(raw)
  {
    var clean := CleanStr(if raw.Some? then Str(raw.value) else Undefined);
    if clean.None? {
      return map[];
    }
    out := AddAliases(map[], Split(clean.value, ','));
  }

  /** The loop of `envAliases`: each well-formed `a:b` item sets `out[a] := b`. */
  method AddAliases(start: map<string, string>, items: seq<string>) returns (out: map<string, string>)
    ensures out == AddPairs(start, ParsePairs(items))
  {
    out := start;
    ghost var ps := ParsePairs(items);
    var i := 0;
    while i < |items|
      invariant 0 <= i <= |items| == |ps|
      invariant AddPairs(out, ps[i..]) == AddPairs(start, ps)
    {
      var p := AliasPair(items[i]);
      ParsePairsAt(items, i);
      AddPairsStep(out, ps, i);
      if p.Some? {
        out := out[p.value.0 := p.value.1];
      }
      i := i + 1;
    }
    assert ps[i..] == [];
  }

  /** One round of the alias loop. */
  lemma AddPairsStep(out: map<string, string>, ps: seq<Option<(string, string)>>, i: nat)
    requires i < |ps|
    ensures AddPairs(out, ps[i..])
      == AddPairs(if ps[i].Some? then out[ps[i].value.0 := ps[i].value.1] else out, ps[i + 1..])
  {
    assert ps[i..][1..] == ps[i + 1..];
  }

  lemma {:induction false} ParsePairsAt(items: seq<string>, i: nat)
    requires i < |items|
    ensures ParsePairs(items)[i] == AliasPair(items[i])
  {
    if i > 0 {
      ParsePairsAt(items[1..], i - 1);
    }
  }

  /** `{ ...builtinAliases(), ...envAliases() }`: the environment overrides the built-in table. */
  function AliasTable(raw: Option<string>): map<string, string>
  {
    BuiltinAliases + EnvAliasMap(raw)
  }

  // ---------------------------------------------------------------------
  // Wanted raid keys

  /** `keys.map(slugify)` */
  function KeySlugs(keys: seq<string>): (r: seq<string>)
    ensures |r| == |keys|
  {
    if keys == [] then [] else [Slugify(keys[0])] + KeySlugs(keys[1..])
  }

  /** The slug `mapOne` looks for: the input's slug, or the alias set for it. */
  function Target(aliases: map<string, string>, input: string): string
  {
    var s := Slugify(input);
    if s in aliases && aliases[s] != "" then aliases[s] else s
  }

  /** `keySlugs.indexOf(t)` */
  function ExactIndex(slugs: seq<string>, t: string): (r: Option<nat>)
    ensures r.Some? ==> r.value < |slugs| && slugs[r.value] == t
    ensures r.Some? ==> forall j :: 0 <= j < r.value ==> slugs[j] != t
    ensures r.None? ==> forall j :: 0 <= j < |slugs| ==> slugs[j] != t
  {
    if slugs == [] then None
    else if slugs[0] == t then Some(0)
    else match ExactIndex(slugs[1..], t)
      case None => None
      case Some(k) => Some(k + 1)
  }

  /** Either slug contains the other. */
  predicate Overlaps(k: string, t: string)
  {
    Contains(k, t) || Contains(t, k)
  }

  /** `keySlugs.findIndex(k => k.includes(t) || t.includes(k))` */
  function FuzzyIndex(slugs: seq<string>, t: string): (r: Option<nat>)
    ensures r.Some? ==> r.value < |slugs| && Overlaps(slugs[r.value], t)
    ensures r.Some? ==> forall j :: 0 <= j < r.value ==> !Overlaps(slugs[j], t)
    ensures r.None? ==> forall j :: 0 <= j < |slugs| ==> !Overlaps(slugs[j], t)
  {
    if slugs == [] then None
    else if Overlaps(slugs[0], t) then Some(0)
    else match FuzzyIndex(slugs[1..], t)
      case None => None
      case Some(k) => Some(k + 1)
  }

  /** `mapOne`: an exact slug match wins over a partial one; `slugs` are the keys' slugs. */
  function MapOne(keys: seq<string>, slugs: seq<string>, aliases: map<string, string>, input: string): (r: Option<string>)
    requires |slugs| == |keys|
    ensures input == "" ==> r.None?
    ensures r.Some? ==> r.value in keys
    ensures input != "" && Target(aliases, input) in slugs
      ==> exists j :: 0 <= j < |keys| && r == Some(keys[j]) && slugs[j] == Target(aliases, input)
    ensures input != "" && Target(aliases, input) !in slugs && r.Some?
      ==> exists j :: 0 <= j < |keys| && r == Some(keys[j]) && Overlaps(slugs[j], Target(aliases, input))
    ensures input != "" && r.None?
      ==> forall j :: 0 <= j < |keys| ==> !Overlaps(slugs[j], Target(aliases, input))
  {
    if input == "" then None
    else
      var t := Target(aliases, input);
      match ExactIndex(slugs, t)
      case Some(i) => Some(keys[i])
      case None =>
        match FuzzyIndex(slugs, t)
        case Some(i) => Some(keys[i])
        case None => None
  }

  const Defaults := [
    "manaforge-omega", "nerubar-palace", "amirdrassil-the-dreams-hope",
    "aberrus-the-shadowed-crucible", "vault-of-the-incarnates"]

  predicate NoDup(s: seq<string>)
  {
    forall i, j :: 0 <= i < j < |s| ==> s[i] != s[j]
  }

  /** `if (m && !result.includes(m)) result.push(m)` */
  function AddMatch(result: seq<string>, m: Option<string>): (r: seq<string>)
    ensures NoDup(result) ==> NoDup(r)
    ensures NonEmpty(m) ==> m.value in r
    ensures r == result || (NonEmpty(m) && r == result + [m.value])
  {
    if NonEmpty(m) && m.value !in result then result + [m.value] else result
  }

  /** Each input's match: `xs.map(mapOne)`. */
  function Matches(keys: seq<string>, slugs: seq<string>, aliases: map<string, string>, xs: seq<string>): (r: seq<Option<string>>)
    requires |slugs| == |keys|
    ensures |r| == |xs|
    ensures forall i :: 0 <= i < |r| ==> r[i].Some? ==> r[i].value in keys
  {
    if xs == [] then [] else [MapOne(keys, slugs, aliases, xs[0])] + Matches(keys, slugs, aliases, xs[1..])
  }

  lemma {:induction false} MatchesAt(keys: seq<string>, slugs: seq<string>, aliases: map<string, string>, xs: seq<string>, i: nat)
    requires |slugs| == |keys| && i < |xs|
    ensures Matches(keys, slugs, aliases, xs)[i] == MapOne(keys, slugs, aliases, xs[i])
  {
    if i > 0 {
      MatchesAt(keys, slugs, aliases, xs[1..], i - 1);
    }
  }

  /** The present matches, in order, each added once after `result`. */
  function Collect(result: seq<string>, ms: seq<Option<string>>): (r: seq<string>)
    ensures NoDup(result) ==> NoDup(r)
    ensures |result| <= |r| && r[..|result|] == result
    ensures forall x :: x in r ==> x in result || (x != "" && Some(x) in ms)
    ensures forall m :: m in ms && NonEmpty(m) ==> m.value in r
    decreases |ms|
  {
    if ms == [] then result
    else
      var next := AddMatch(result, ms[0]);
      var r := Collect(next, ms[1..]);
      CollectRound(result, ms, next, r);
      r
  }

  /** One round of `Collect`: what holds after the first match carries back to `result`. */
  lemma CollectRound(result: seq<string>, ms: seq<Option<string>>, next: seq<string>, r: seq<string>)
    requires ms != [] && next == AddMatch(result, ms[0])
    requires |next| <= |r| && r[..|next|] == next
    requires forall x :: x in r ==> x in next || (x != "" && Some(x) in ms[1..])
    requires forall m :: m in ms[1..] && NonEmpty(m) ==> m.value in r
    ensures |result| <= |r| && r[..|result|] == result
    ensures forall x :: x in r ==> x in result || (x != "" && Some(x) in ms)
    ensures forall m :: m in ms && NonEmpty(m) ==> m.value in r
  {
    assert next[..|result|] == result;
    assert forall m :: m in ms ==> m == ms[0] || m in ms[1..];
    assert forall m :: m in ms[1..] ==> m in ms;
    if NonEmpty(ms[0]) {
      assert ms[0].value in next;
      assert forall x :: x in next ==> x in r;
    }
  }

  /** `RAIDERIO_CURRENT_RAIDS` as a list, when it is set to something non-blank. */
  function EnvList(raw: Option<string>): seq<string>
  {
    if CleanStr(if raw.Some? then Str(raw.value) else Undefined).Some? then CsvItems(raw.value) else []
  }

  /** The raid the list always tries first. */
  const Forced := "manaforge-omega"

  /**
   * The wanted list built from the three kinds of match in order (the
   * forced one, the environment's, the defaults'), each present match once.
   */
  function Wanted(forced: Option<string>, envMs: seq<Option<string>>, defMs: seq<Option<string>>): (r: seq<string>)
    ensures NoDup(r)
    ensures NonEmpty(forced) ==> r != [] && r[0] == forced.value
    ensures forall m :: m in envMs && NonEmpty(m) ==> m.value in r
    ensures forall m :: m in defMs && NonEmpty(m) ==> m.value in r
    ensures forall x :: x in r ==> x != "" && (forced == Some(x) || Some(x) in envMs || Some(x) in defMs)
  {
    var first := AddMatch([], forced);
    var withEnv := Collect(first, envMs);
    var r := Collect(withEnv, defMs);
    assert r[..|first|] == first by {
      assert r[..|withEnv|] == withEnv;
      assert withEnv[..|first|] == first;
    }
    r
  }

  /** `resolveDesiredKeys` as a value: only keys of the progress object, none twice. */
  function DesiredKeys(keys: seq<string>, aliases: map<string, string>, envList: seq<string>): (r: seq<string>)
    ensures NoDup(r)
    ensures forall x :: x in r ==> x in keys && x != ""
  {
    var slugs := KeySlugs(keys);
    var forced := MapOne(keys, slugs, aliases, Forced);
    var envMs := Matches(keys, slugs, aliases, envList);
    var defMs := Matches(keys, slugs, aliases, Defaults);
    WantedWithin(forced, envMs, defMs, keys);
    Wanted(forced, envMs, defMs)
  }

  /** Matches that all lie in `keys` give a wanted list inside `keys`. */
  lemma WantedWithin(forced: Option<string>, envMs: seq<Option<string>>, defMs: seq<Option<string>>, keys: seq<string>)
    requires forced.Some? ==> forced.value in keys
    requires forall i :: 0 <= i < |envMs| && envMs[i].Some? ==> envMs[i].value in keys
    requires forall i :: 0 <= i < |defMs| && defMs[i].Some? ==> defMs[i].value in keys
    ensures forall x :: x in Wanted(forced, envMs, defMs) ==> x in keys
  {
    forall x | x in Wanted(forced, envMs, defMs)
      ensures x in keys
    {
      if Some(x) in envMs {
        var i :| 0 <= i < |envMs| && envMs[i] == Some(x);
      } else if Some(x) in defMs {
        var i :| 0 <= i < |defMs| && defMs[i] == Some(x);
      }
    }
  }

  /** `resolveDesiredKeys`: the forced key, then the two matching loops. */
  method ResolveDesiredKeys(keys: seq<string>, aliasRaw: Option<string>, currentRaw: Option<string>) returns (result: seq<string>)
    ensures result == DesiredKeys(keys, AliasTable(aliasRaw), EnvList(currentRaw))
  {
    var slugs := KeySlugs(keys);
    var envAliases := EnvAliases(aliasRaw);
    var aliases := BuiltinAliases + envAliases;
    result := [];
    var forced := MapOne(keys, slugs, aliases, Forced);
    if NonEmpty(forced) && forced.value !in result {
      result := result + [forced.value];
    }
    var envList := EnvList(currentRaw);
    result := CollectLoop(keys, slugs, aliases, envList, result);
    result := CollectLoop(keys, slugs, aliases, Defaults, result);
  }

  /** `for (const x of xs) { const m = mapOne(x); if (m && !result.includes(m)) result.push(m); }` */
  method CollectLoop(keys: seq<string>, slugs: seq<string>, aliases: map<string, string>, xs: seq<string>, start: seq<string>)
    returns (result: seq<string>)
    requires |slugs| == |keys|
    ensures result == Collect(start, Matches(keys, slugs, aliases, xs))
  {
    ghost var ms := Matches(keys, slugs, aliases, xs);
    result := start;
    var i := 0;
    while i < |xs|
      invariant 0 <= i <= |xs|
      invariant Collect(result, ms[i..]) == Collect(start, ms)
    {
      var m := MapOne(keys, slugs, aliases, xs[i]);
      MatchesAt(keys, slugs, aliases, xs, i);
      CollectStep(result, ms, i);
      if NonEmpty(m) && m.value !in result {
        result := result + [m.value];
      }
      i := i + 1;
    }
    assert ms[i..] == [];
  }

  /** One round of a collecting loop. */
  lemma CollectStep(result: seq<string>, ms: seq<Option<string>>, i: nat)
    requires i < |ms|
    ensures Collect(result, ms[i..]) == Collect(AddMatch(result, ms[i]), ms[i + 1..])
  {
    assert ms[i..][1..] == ms[i + 1..];
  }

  // ---------------------------------------------------------------------
  // The progress summary

  /** One raid's progress record; a count is None when the key is missing or null. */
  datatype Prog = Prog(summary: Option<string>, total: Option<int>, mythic: Option<int>, heroic: Option<int>, normal: Option<int>)

  /** A value of the progress object: falsy, some other non-object, or a record. */
  datatype ProgVal = Falsy | Primitive | Record(p: Prog)

  /** `x ?? 0` */
  function Count(x: Option<int>): int
  {
    if x.Some? then x.value else 0
  }

  /** The `kills/total` text, suffixed by the hardest difficulty with kills. */
  function Tally(total: int, m: int, h: int, n: int): string
  {
    if m != 0 then IntToString(m) + "/" + IntToString(total) + " M"
    else if h != 0 then IntToString(h) + "/" + IntToString(total) + " H"
    else if n != 0 then IntToString(n) + "/" + IntToString(total) + " N"
    else IntToString(0) + "/" + IntToString(total)
  }

  lemma IntToStringEndsInDigit(i: int)
    ensures IntToString(i) != "" && IsDigit(IntToString(i)[|IntToString(i)| - 1])
  {
    var d := NatToString(if i < 0 then -i else i);
    assert IsDigit(d[|d| - 1]);
    if i < 0 {
      assert IntToString(i) == "-" + d;
    }
  }

  /** The suffix names the hardest difficulty with a kill, and only that one. */
  lemma TallySuffix(total: int, m: int, h: int, n: int)
    ensures EndsWith(Tally(total, m, h, n), " M") <==> m != 0
    ensures EndsWith(Tally(total, m, h, n), " H") <==> m == 0 && h != 0
    ensures EndsWith(Tally(total, m, h, n), " N") <==> m == 0 && h == 0 && n != 0
    ensures m == 0 && h == 0 && n == 0 ==> Tally(total, m, h, n) == "0/" + IntToString(total)
  {
    var t := Tally(total, m, h, n);
    var tot := IntToString(total);
    IntToStringEndsInDigit(total);
    if m == 0 && h == 0 && n == 0 {
      assert t == "0/" + tot;
      assert t[|t| - 1] == tot[|tot| - 1];
    } else {
      var k := if m != 0 then m else if h != 0 then h else n;
      var c := if m != 0 then 'M' else if h != 0 then 'H' else 'N';
      assert t == IntToString(k) + "/" + tot + [' ', c];
      assert t[|t| - 2..] == [' ', c];
    }
  }

  /** `format`: null for a falsy value, the record's own non-empty summary, or the tally. */
  function Format(v: ProgVal): (r: Option<string>)
    ensures r.None? <==> v.Falsy?
    ensures r.Some? ==> r.value != ""
    ensures v.Record? && NonEmpty(v.p.summary) ==> r == v.p.summary
    ensures v == Primitive ==> r == Some("0/0")
  {
    match v
    case Falsy => None
    case Primitive =>
      assert IntToString(0) == "0";
      assert Tally(0, 0, 0, 0) == "0" + "/" + "0" == "0/0";
      Some(Tally(0, 0, 0, 0))
    case Record(p) =>
      if NonEmpty(p.summary) then p.summary
      else Some(Tally(Count(p.total), Count(p.mythic), Count(p.heroic), Count(p.normal)))
  }

  /** `m * 10000 + h * 100 + n`: mythic kills outrank heroic ones, which outrank normal ones. */
  function Score(p: Prog): int
  {
    Count(p.mythic) * 10000 + Count(p.heroic) * 100 + Count(p.normal)
  }

  /** Whether record `p` replaces the current best `q`. */
  predicate Beats(p: Prog, q: Prog)
  {
    Score(p) > Score(q) || Count(p.total) > Count(q.total)
  }

  /** With kill counts in 0..99, one more mythic kill outweighs any heroic and normal kills. */
  lemma MythicOutranks(p: Prog, q: Prog)
    requires 0 <= Count(p.heroic) < 100 && 0 <= Count(p.normal) < 100
    requires 0 <= Count(q.heroic) < 100 && 0 <= Count(q.normal) < 100
    requires Count(p.mythic) > Count(q.mythic)
    ensures Beats(p, q)
  {
  }

  /** `raidProg[key]`: the entry's value, falsy (undefined) when the key is missing. */
  function Lookup(entries: seq<(string, ProgVal)>, key: string): (v: ProgVal)
    ensures v != Falsy ==> (key, v) in entries
    ensures (forall i :: 0 <= i < |entries| ==> entries[i].0 != key) ==> v == Falsy
  {
    if entries == [] then Falsy
    else if entries[0].0 == key then entries[0].1
    else Lookup(entries[1..], key)
  }

  function Keys(entries: seq<(string, ProgVal)>): (r: seq<string>)
    ensures |r| == |entries| && forall i :: 0 <= i < |r| ==> r[i] == entries[i].0
  {
    if entries == [] then [] else [entries[0].0] + Keys(entries[1..])
  }

  function Values(entries: seq<(string, ProgVal)>): (r: seq<ProgVal>)
    ensures |r| == |entries| && forall i :: 0 <= i < |r| ==> r[i] == entries[i].1
  {
    if entries == [] then [] else [entries[0].1] + Values(entries[1..])
  }

  /** `desired[i]` is the first wanted key with a value, and `r` is that value's text. */
  predicate FirstWith(entries: seq<(string, ProgVal)>, desired: seq<string>, i: int, r: Option<string>)
  {
    && 0 <= i < |desired|
    && r == Format(Lookup(entries, desired[i]))
    && forall j :: 0 <= j < i ==> Lookup(entries, desired[j]) == Falsy
  }

  /** The first wanted key whose value formats to something, and that text. */
  function FirstDesired(entries: seq<(string, ProgVal)>, desired: seq<string>): (r: Option<string>)
    ensures r.None? <==> forall i :: 0 <= i < |desired| ==> Lookup(entries, desired[i]) == Falsy
    ensures r.Some? ==> exists i :: FirstWith(entries, desired, i, r)
  {
    if desired == [] then None
    else
      var s := Format(Lookup(entries, desired[0]));
      if s.Some? then
        assert FirstWith(entries, desired, 0, s);
        s
      else
        var r := FirstDesired(entries, desired[1..]);
        assert forall i :: 1 <= i < |desired| ==> desired[1..][i - 1] == desired[i];
        if r.Some? then
          var i :| FirstWith(entries, desired[1..], i, r);
          FirstWithShift(entries, desired, i, r);
          r
        else r
  }

  /** A first hit in the tail, after a head with no value, is a first hit one position later. */
  lemma FirstWithShift(entries: seq<(string, ProgVal)>, desired: seq<string>, i: int, r: Option<string>)
    requires desired != [] && Lookup(entries, desired[0]) == Falsy
    requires FirstWith(entries, desired[1..], i, r)
    ensures FirstWith(entries, desired, i + 1, r)
  {
    assert forall j :: 1 <= j < |desired| ==> desired[1..][j - 1] == desired[j];
  }

  /**
   * The fallback loop from position `from` on, with `best` the record kept
   * so far: the last record that beat the record kept before it.
   */
  function Scan(vals: seq<ProgVal>, from: nat, best: Option<nat>): (r: Option<nat>)
    requires from <= |vals|
    requires best.Some? ==> best.value < from && vals[best.value].Record?
    requires best.Some? ==> forall j :: best.value < j < from && vals[j].Record? ==> !Beats(vals[j].p, vals[best.value].p)
    ensures r.Some? ==> r.value < |vals| && vals[r.value].Record?
    ensures r.None? <==> best.None? && forall j :: from <= j < |vals| ==> !vals[j].Record?
    ensures r.Some? ==> forall j :: r.value < j < |vals| && vals[j].Record? ==> !Beats(vals[j].p, vals[r.value].p)
    ensures best.Some? && r != best ==> r.value >= from
    decreases |vals| - from
  {
    if from == |vals| then best
    else if vals[from].Record? && (best.None? || Beats(vals[from].p, vals[best.value].p)) then
      Scan(vals, from + 1, Some(from))
    else
      Scan(vals, from + 1, best)
  }

  /** The summary once the wanted keys are known. */
  function Summary(entries: seq<(string, ProgVal)>, desired: seq<string>): Option<string>
  {
    var first := FirstDesired(entries, desired);
    if first.Some? then first
    else
      var best := Scan(Values(entries), 0, None);
      if best.None? then None else Format(Values(entries)[best.value])
  }

  /** `pickCurrentRaidSummary` as a value: null unless the progress is an object. */
  function CurrentRaidSummary(prog: Option<seq<(string, ProgVal)>>, aliasRaw: Option<string>, currentRaw: Option<string>): Option<string>
  {
    if prog.None? then None
    else Summary(prog.value, DesiredKeys(Keys(prog.value), AliasTable(aliasRaw), EnvList(currentRaw)))
  }

  /** No wanted key has a value. */
  predicate NoneWanted(prog: seq<(string, ProgVal)>, desired: seq<string>)
  {
    forall i :: 0 <= i < |desired| ==> Lookup(prog, desired[i]) == Falsy
  }

  /** Record `k` is kept by the fallback: no later record beats it. */
  predicate Unbeaten(prog: seq<(string, ProgVal)>, k: int)
  {
    && 0 <= k < |prog|
    && prog[k].1.Record?
    && forall j :: k < j < |prog| && prog[j].1.Record? ==> !Beats(prog[j].1.p, prog[k].1.p)
  }

  /**
   * The summary is the first wanted raid with a value; failing that, the
   * text of a record no later record beats; and none only when there is
   * neither.
   */
  lemma SummaryChoice(prog: seq<(string, ProgVal)>, desired: seq<string>)
    ensures Summary(prog, desired).None? <==> NoneWanted(prog, desired) && forall j :: 0 <= j < |prog| ==> !prog[j].1.Record?
    ensures !NoneWanted(prog, desired) ==> Summary(prog, desired) == FirstDesired(prog, desired)
    ensures NoneWanted(prog, desired) && Summary(prog, desired).Some?
      ==> exists k :: Unbeaten(prog, k) && Summary(prog, desired) == Format(prog[k].1)
  {
    var vals := Values(prog);
    var best := Scan(vals, 0, None);
    if best.Some? {
      assert vals[best.value] == prog[best.value].1;
      assert Unbeaten(prog, best.value);
    }
  }

  /** A progress value that is not an object, or an empty one, gives no summary. */
  lemma NoSummaryWithoutValues(aliasRaw: Option<string>, currentRaw: Option<string>)
    ensures CurrentRaidSummary(None, aliasRaw, currentRaw).None?
    ensures forall desired :: Summary([], desired).None?
  {
    forall desired: seq<string> {
      SummaryChoice([], desired);
    }
  }

  /** `pickCurrentRaidSummary` */
  method PickCurrentRaidSummary(prog: Option<seq<(string, ProgVal)>>, aliasRaw: Option<string>, currentRaw: Option<string>)
    returns (r: Option<string>)
    ensures r == CurrentRaidSummary(prog, aliasRaw, currentRaw)
  {
    if prog.None? {
      return None;
    }
    var desired := ResolveDesiredKeys(Keys(prog.value), aliasRaw, currentRaw);
    r := SummaryOf(prog.value, desired);
  }

  /** The loop over the wanted keys, then the loop over all values. */
  method SummaryOf(entries: seq<(string, ProgVal)>, desired: seq<string>) returns (r: Option<string>)
    ensures r == Summary(entries, desired)
  {
    r := FirstWanted(entries, desired);
    if r.Some? {
      return;
    }
    var vals := Values(entries);
    var best := BestRecord(vals);
    if best.None? {
      return None;
    }
    r := Format(vals[best.value]);
  }

  /** The loop over the wanted keys: the first one whose value formats to something. */
  method FirstWanted(entries: seq<(string, ProgVal)>, desired: seq<string>) returns (r: Option<string>)
    ensures r == FirstDesired(entries, desired)
  {
    var i := 0;
    while i < |desired|
      invariant 0 <= i <= |desired|
      invariant FirstDesired(entries, desired) == FirstDesired(entries, desired[i..])
    {
      var s := Format(Lookup(entries, desired[i]));
      if s.Some? {
        return s;
      }
      assert desired[i..][1..] == desired[i + 1..];
      i := i + 1;
    }
    assert desired[i..] == [];
    return None;
  }

  /** The fallback loop over all values: the index of the record kept. */
  method BestRecord(vals: seq<ProgVal>) returns (best: Option<nat>)
    ensures best == Scan(vals, 0, None)
  {
    best := None;
    var k := 0;
    while k < |vals|
      invariant 0 <= k <= |vals|
      invariant best.Some? ==> best.value < k && vals[best.value].Record?
      invariant best.Some? ==> forall j :: best.value < j < k && vals[j].Record? ==> !Beats(vals[j].p, vals[best.value].p)
      invariant Scan(vals, k, best) == Scan(vals, 0, None)
    {
      if vals[k].Record? && (best.None? || Beats(vals[k].p, vals[best.value].p)) {
        best := Some(k);
      }
      k := k + 1;
    }
  }
}
