/**
 * The compact custom ids that carry the state of the Discord sign-up flow
 * between interactions (discord/modules/raidSignup.js): six fields joined
 * by `|`, the first always `su`. The lootbuddy note modal appends the
 * picked class after the marker `:lc:`.
 */
module RaidSignupCodec {
  import opened Common

  /**
   * The fields of a custom id. The numeric fields are what `Number(...)`
   * produced on an earlier step; absent means `null`.
   */
  datatype IdParts = IdParts(
    t: string, raidId: Option<NumVal>, charId: Option<NumVal>, role: string, saved: bool)

  /** `String(n)` for a number value (`NaN` prints as "NaN"). */
  function NumText(n: NumVal): (r: string)
    ensures r != ""
  {
    match n
    case Finite(v) => IntToString(v)
    case NotANumber => "NaN"
  }

  function NumField(n: Option<NumVal>): string
  {
    match n
    case None => ""
    case Some(v) => NumText(v)
  }

  /** `enc` */
  function Encode(p: IdParts): string
  {
    Join(Fields(p), "|")
  }

  /** The six fields `enc` joins, in order. */
  function Fields(p: IdParts): seq<string>
  {
    ["su", p.t, NumField(p.raidId), NumField(p.charId), p.role, if p.saved then "1" else "0"]
  }

  /** `parts[k]`, with `undefined` (here "") past the end. */
  function Field(parts: seq<string>, k: nat): string
  {
    if k < |parts| then parts[k] else ""
  }

  /** `p[k] ? Number(p[k]) : null` */
  function NumberField(parts: seq<string>, k: nat): Option<NumVal>
  {
    var f := Field(parts, k);
    if f == "" then None else Some(NumberOf(f))
  }

  /** `dec`: null unless the first field is `su`. */
  function Decode(id: string): (r: Option<IdParts>)
    ensures r.None? <==> Split(id, '|')[0] != "su"
  {
    var p := Split(id, '|');
    if p[0] != "su" then None
    else Some(IdParts(Field(p, 1), NumberField(p, 2), NumberField(p, 3), Field(p, 4), Field(p, 5) == "1"))
  }

  /** "NaN" reads back as not a number. */
  lemma NaNText(s: string)
    requires |s| == 3 && s[0] == 'N' && s[1] == 'a' && s[2] == 'N'
    ensures NumberOf(s) == NotANumber
  {
    NotANumberText(s);
  }

  /** Text with no surrounding whitespace that starts with neither a digit nor a sign is not a number. */
  lemma NotANumberText(t: string)
    requires t != [] && !IsWs(t[0]) && !IsWs(t[|t| - 1])
    requires !IsDigit(t[0]) && t[0] != '-' && t[0] != '+'
    ensures NumberOf(t) == NotANumber
  {
    TrimNoOp(t);
    assert !AllDigits(t);
  }

  /** Printing a number and reading it back gives the number. */
  lemma NumTextRoundTrip(n: NumVal)
    ensures NumberOf(NumText(n)) == n
    ensures '|' !in NumText(n) && ':' !in NumText(n)
  {
    match n
    case NotANumber =>
      var t := NumText(n);
      assert t == "NaN";
      NaNText(t);
    case Finite(v) => FiniteText(v);
  }

  lemma FiniteText(v: int)
    ensures NumberOf(IntToString(v)) == Finite(v)
    ensures '|' !in IntToString(v) && ':' !in IntToString(v)
  {
    NumberOfIntToString(v);
    IntToStringChars(v);
  }

  /** Decoding an encoded id gives back its fields, for a type and role without `|`. */
  lemma {:induction false} DecodeEncode(p: IdParts)
    requires '|' !in p.t && '|' !in p.role
    ensures Decode(Encode(p)) == Some(p)
  {
    FieldsHaveNoBar(p);
    SplitJoin(Fields(p), '|');
    DecodeOfFields(Encode(p), p);
  }

  lemma FieldsHaveNoBar(p: IdParts)
    requires '|' !in p.t && '|' !in p.role
    ensures forall i :: 0 <= i < |Fields(p)| ==> '|' !in Fields(p)[i]
  {
    NumFieldNoSeparator(p.raidId);
    NumFieldNoSeparator(p.charId);
    var f := Fields(p);
    assert '|' !in f[0] by { assert f[0] == ['s', 'u']; }
    assert '|' !in f[5] by { assert f[5] == ['1'] || f[5] == ['0']; }
    forall i | 0 <= i < |f| ensures '|' !in f[i] {
      if i == 0 {} else if i == 5 {}
    }
  }

  lemma DecodeOfFields(id: string, p: IdParts)
    requires Split(id, '|') == Fields(p)
    ensures Decode(id) == Some(p)
  {
    NumFieldRoundTrip(p.raidId);
    NumFieldRoundTrip(p.charId);
  }

  lemma NumFieldNoSeparator(n: Option<NumVal>)
    ensures '|' !in NumField(n) && ':' !in NumField(n)
  {
    if n.Some? { NumTextRoundTrip(n.value); }
  }

  /** A number field is empty exactly when absent, and reads back as its value. */
  lemma NumFieldRoundTrip(n: Option<NumVal>)
    ensures (NumField(n) == "") == n.None?
    ensures n.Some? ==> NumberOf(NumField(n)) == n.value
  {
    if n.Some? { NumTextRoundTrip(n.value); }
  }

  // -----------------------------------------------------------------------
  // The `:lc:` suffix of the lootbuddy note modal

  const LC: string := ":lc:"

  /** The first position of `k` in `s`. */
  function IndexOf(s: string, k: string): (r: Option<nat>)
    ensures r.Some? ==> r.value + |k| <= |s| && s[r.value..r.value + |k|] == k
    decreases |s|
  {
    if StartsWith(s, k) then Some(0)
    else if s == [] then None
    else
      match IndexOf(s[1..], k)
      case None => None
      case Some(i) => Some(i + 1)
  }

  /** `s.split(sep)` for a separator of several characters. */
  function SplitOn(s: string, sep: string): (r: seq<string>)
    requires sep != ""
    ensures |r| >= 1
    decreases |s|
  {
    match IndexOf(s, sep)
    case None => [s]
    case Some(i) => [s[..i]] + SplitOn(s[i + |sep|..], sep)
  }

  lemma {:induction false} NoColonNoLc(s: string)
    requires ':' !in s
    ensures IndexOf(s, LC).None?
    decreases |s|
  {
    if s != [] {
      assert !StartsWith(s, LC) by { assert s[0] != ':'; }
      NoColonNoLc(s[1..]);
    }
  }

  lemma {:induction false} LcAfterColonFree(a: string, b: string)
    requires ':' !in a
    ensures IndexOf(a + LC + b, LC) == Some(|a|)
    decreases |a|
  {
    var s := a + LC + b;
    if a == [] {
      assert s[..|LC|] == LC;
    } else {
      assert !StartsWith(s, LC) by { assert s[0] == a[0] != ':'; }
      assert s[1..] == a[1..] + LC + b;
      LcAfterColonFree(a[1..], b);
    }
  }

  /** The fields of the lootbuddy note modal's id: character id 0, not saved. */
  function LootParts(raidId: Option<NumVal>): IdParts
  {
    IdParts("final_loot_modal", raidId, Some(Finite(0)), "LOOTBUDDY", false)
  }

  /** The custom id of the lootbuddy note modal. */
  function LootModalId(raidId: Option<NumVal>, pickedClass: string): string
  {
    Encode(LootParts(raidId)) + LC + pickedClass
  }

  /** `const [idPart, cls] = cid.split(":lc:")` */
  function SplitLootModalId(cid: string): (string, Option<string>)
  {
    var parts := SplitOn(cid, LC);
    (parts[0], if |parts| > 1 then Some(parts[1]) else None)
  }

  lemma EncodeHasNoColon(p: IdParts)
    requires ':' !in p.t && ':' !in p.role
    ensures ':' !in Encode(p)
  {
    NumFieldNoSeparator(p.raidId);
    NumFieldNoSeparator(p.charId);
    var f := Fields(p);
    assert ':' !in f[0] by { assert f[0] == ['s', 'u']; }
    assert ':' !in f[5] by { assert f[5] == ['1'] || f[5] == ['0']; }
    forall i | 0 <= i < |f| ensures ':' !in f[i] {
      if i == 0 {} else if i == 5 {}
    }
    JoinNoChar(f, "|", ':');
  }

  lemma SplitAtLc(a: string, b: string)
    requires ':' !in a && ':' !in b
    ensures SplitOn(a + LC + b, LC) == [a, b]
  {
    var s := a + LC + b;
    LcAfterColonFree(a, b);
    assert s[..|a|] == a;
    assert s[|a| + |LC|..] == b;
    NoColonNoLc(b);
  }

  /** Letters and `_`: the characters of the fixed type and role names. */
  predicate NameChar(c: char)
  {
    'a' <= c <= 'z' || 'A' <= c <= 'Z' || c == '_'
  }

  lemma LootPartsPlain(raidId: Option<NumVal>)
    ensures var p := LootParts(raidId); ':' !in p.t && ':' !in p.role && '|' !in p.t && '|' !in p.role
  {
    var p := LootParts(raidId);
    assert forall i :: 0 <= i < |p.t| ==> NameChar(p.t[i]);
    assert forall i :: 0 <= i < |p.role| ==> NameChar(p.role[i]);
  }

  /** The lootbuddy modal id gives back the raid id and the picked class. */
  lemma LootModalIdRoundTrip(raidId: Option<NumVal>, pickedClass: string)
    requires ':' !in pickedClass
    ensures var (idPart, cls) := SplitLootModalId(LootModalId(raidId, pickedClass));
      && cls == Some(pickedClass)
      && Decode(idPart) == Some(LootParts(raidId))
  {
    var p := LootParts(raidId);
    LootPartsPlain(raidId);
    EncodeHasNoColon(p);
    SplitAtLc(Encode(p), pickedClass);
    DecodeEncode(p);
  }
}
