/**
 * The interaction flow of discord/modules/raidSignup.js: which reply or
 * table change each button press, menu choice or modal submission leads
 * to, and how each custom id carries the earlier choices forward.
 */
module SignupFlow {
  import opened Common
  import opened RaidSignupCodec
  import opened SignupTable

  datatype MenuOption = MenuOption(text: string, value: string)

  /** A booster character, as the menus show it. */
  datatype BoosterChar = BoosterChar(id: int, name: string, realm: string, cls: Option<string>)

  /**
   * What the handler reads besides the interaction: the user's characters,
   * newest first; the characters by id; and the class options, role
   * options and class-to-roles table the module imports.
   */
  datatype Context = Context(
    charsByRecency: seq<BoosterChar>,
    charsById: map<int, BoosterChar>,
    classOptions: seq<MenuOption>,
    roleOptions: seq<MenuOption>,
    classRoleMatrix: map<string, seq<string>>)

  datatype Interaction =
    | Button(customId: string, userId: string)
    | SelectMenu(customId: string, userId: string, values: seq<string>)
    | ModalSubmit(customId: string, userId: string, note: string)
    | OtherInteraction

  /** The reply the handler sends, or the table change it makes before replying. */
  datatype Outcome =
    | Ignored
    | NoChars
    | CharMenu(customId: string, options: seq<MenuOption>)
    | LootClassMenu(customId: string, options: seq<MenuOption>)
    | Withdrawn(raidId: Option<NumVal>, userId: string)
    | UnknownChar
    | RoleMenu(customId: string, className: Option<string>, options: seq<MenuOption>)
    | SavedMenu(customId: string)
    | NoteModal(customId: string)
    | LootNoteModal(customId: string)
    | BoosterSaved(raidId: Option<NumVal>, userId: string, charId: Option<NumVal>, role: string, saved: bool, note: string)
    | LootbuddySaved(raidId: Option<NumVal>, userId: string, pickedClass: Option<string>, note: string)
    | Failed

  /** The id of a step that carries only the raid. */
  function RaidStep(t: string, raidId: Option<NumVal>): IdParts
  {
    IdParts(t, raidId, None, "", false)
  }

  // ---------------------------------------------------------------------
  // Menus

  /** `${c.name}-${c.realm}${c.class ? ` (${c.class})` : ""}` with value `String(c.id)` */
  function CharOption(c: BoosterChar): (o: MenuOption)
    ensures o.value == IntToString(c.id)
  {
    MenuOption(c.name + "-" + c.realm + (if NonEmpty(c.cls) then " (" + c.cls.value + ")" else ""), IntToString(c.id))
  }

  /** `chars.slice(0, 25).map(...)` */
  function CharOptions(chars: seq<BoosterChar>): (r: seq<MenuOption>)
    ensures |r| <= 25 && |r| <= |chars|
    ensures |chars| >= 25 ==> |r| == 25
    ensures |chars| < 25 ==> |r| == |chars|
    ensures forall i :: 0 <= i < |r| ==> r[i] == CharOption(chars[i])
  {
    var n := if |chars| < 25 then |chars| else 25;
    seq(n, i requires 0 <= i < n => CharOption(chars[i]))
  }

  /** The key a class is looked up under in a JavaScript object: `null` for no class. */
  function MatrixKey(cls: Option<string>): string
  {
    match cls
    case None => "null"
    case Some(s) => s
  }

  /** `arr.filter(Boolean)` on strings. */
  function NonEmptyOnly(s: seq<string>): (r: seq<string>)
    ensures forall x :: x in r <==> x in s && x != ""
  {
    if s == [] then []
    else if s[0] == "" then NonEmptyOnly(s[1..])
    else [s[0]] + NonEmptyOnly(s[1..])
  }

  /** `(CLASS_ROLE_MATRIX[char.class] || ["DPS"]).filter(Boolean)` */
  function AllowedRoles(matrix: map<string, seq<string>>, cls: Option<string>): (r: seq<string>)
    ensures MatrixKey(cls) !in matrix ==> r == ["DPS"]
    ensures MatrixKey(cls) in matrix ==> forall x :: x in r <==> x in matrix[MatrixKey(cls)] && x != ""
  {
    var key := MatrixKey(cls);
    assert NonEmptyOnly(["DPS"]) == ["DPS"] by {
      assert ["DPS"][1..] == [];
    }
    NonEmptyOnly(if key in matrix then matrix[key] else ["DPS"])
  }

  /** `ROLE_OPTIONS.filter(o => allowedRoles.includes(o.value))` */
  function OfferedRoles(options: seq<MenuOption>, allowed: seq<string>): (r: seq<MenuOption>)
    ensures forall o :: o in r <==> o in options && o.value in allowed
    ensures |r| <= |options|
  {
    if options == [] then []
    else if options[0].value in allowed then [options[0]] + OfferedRoles(options[1..], allowed)
    else OfferedRoles(options[1..], allowed)
  }

  /** `boosterChar.findUnique({ where: { id } })`; a NaN id finds nothing. */
  function LookupChar(ctx: Context, id: NumVal): (r: Option<BoosterChar>)
    ensures r.Some? <==> id.Finite? && id.v in ctx.charsById
  {
    match id
    case NotANumber => None
    case Finite(v) => if v in ctx.charsById then Some(ctx.charsById[v]) else None
  }

  // ---------------------------------------------------------------------
  // The steps

  /** `stepPickChar` */
  function StepPickChar(raidId: Option<NumVal>, ctx: Context): Outcome
  {
    if ctx.charsByRecency == [] then NoChars
    else CharMenu(Encode(RaidStep("pick_char", raidId)), CharOptions(ctx.charsByRecency))
  }

  /** `stepPickRole` */
  function StepPickRole(raidId: Option<NumVal>, charId: NumVal, ctx: Context): Outcome
  {
    match LookupChar(ctx, charId)
    case None => UnknownChar
    case Some(c) =>
      RoleMenu(Encode(IdParts("pick_role", raidId, Some(charId), "", false)), c.cls,
        OfferedRoles(ctx.roleOptions, AllowedRoles(ctx.classRoleMatrix, c.cls)))
  }

  /** The handler: what an interaction leads to. */
  function Route(i: Interaction, ctx: Context): Outcome
  {
    match i
    case Button(cid, user) => RouteButton(cid, user, ctx)
    case SelectMenu(cid, user, values) => RouteSelect(cid, user, values, ctx)
    case ModalSubmit(cid, user, noteText) => RouteModal(cid, user, noteText)
    case OtherInteraction => Ignored
  }

  function RouteButton(cid: string, user: string, ctx: Context): Outcome
  {
    match Decode(cid)
    case None => Ignored
    case Some(p) =>
      if p.t == "start_booster" then StepPickChar(p.raidId, ctx)
      else if p.t == "start_loot" then
        LootClassMenu(Encode(RaidStep("pick_lootclass", p.raidId)), TakeOptions(ctx.classOptions, 25))
      else if p.t == "start_unsub" then Withdrawn(p.raidId, user)
      else Ignored
  }

  function RouteSelect(cid: string, user: string, values: seq<string>, ctx: Context): Outcome
  {
    match Decode(cid)
    case None => Ignored
    case Some(p) =>
      if p.t == "pick_char" then
        StepPickRole(p.raidId, if values == [] then NotANumber else NumberOf(values[0]), ctx)
      else if p.t == "pick_role" then
        SavedMenu(Encode(IdParts("pick_saved", p.raidId, p.charId, if values == [] then "undefined" else values[0], false)))
      else if p.t == "pick_saved" then
        NoteModal(Encode(IdParts("final_modal", p.raidId, p.charId, p.role, values != [] && values[0] == "saved")))
      else if p.t == "pick_lootclass" then
        LootNoteModal(LootModalId(p.raidId, if values == [] then "undefined" else values[0]))
      else Ignored
  }

  function RouteModal(cid: string, user: string, noteText: string): Outcome
  {
    var note := Trim(noteText);
    if StartsWith(cid, "su|final_modal|") then BoosterModal(cid, user, note)
    else if StartsWith(cid, "su|final_loot_modal|") then LootModal(cid, user, note)
    else Ignored
  }

  /** The booster note modal: the signup the id carries, with the note. */
  function BoosterModal(cid: string, user: string, note: string): Outcome
  {
    match Decode(cid)
    case None => Failed
    case Some(p) => BoosterSaved(p.raidId, user, p.charId, p.role, p.saved, note)
  }

  /** The lootbuddy note modal: the raid from the id part, the class after `:lc:`. */
  function LootModal(cid: string, user: string, note: string): Outcome
  {
    var (idPart, cls) := SplitLootModalId(cid);
    match Decode(idPart)
    case None => Failed
    case Some(p) => LootbuddySaved(p.raidId, user, OrStr(cls, None), note)
  }

  /** Menu options: `slice(0, n)`. */
  function TakeOptions(s: seq<MenuOption>, n: nat): (r: seq<MenuOption>)
    ensures |r| <= n && |r| <= |s| && r == s[..|r|]
    ensures |s| <= n ==> r == s
  {
    if |s| <= n then s else s[..n]
  }

  // ---------------------------------------------------------------------
  // The flow, step by step

  /** Letters and `_` only: the step names can be put in an id and read back. */
  predicate StepName(t: string)
  {
    forall i :: 0 <= i < |t| ==> NameChar(t[i])
  }

  lemma StepNameHasNoBar(t: string)
    requires StepName(t)
    ensures '|' !in t && ':' !in t
  {
  }

  /** Decoding the id of a step gives back its fields. */
  lemma StepRoundTrip(p: IdParts)
    requires StepName(p.t) && '|' !in p.role
    ensures Decode(Encode(p)) == Some(p)
  {
    StepNameHasNoBar(p.t);
    DecodeEncode(p);
  }

  /** "Anmelden" opens the character menu, or says there are no characters. */
  lemma StartBoosterStep(raidId: Option<NumVal>, userId: string, ctx: Context, t: string)
    requires t == "start_booster"
    ensures Route(Button(Encode(RaidStep(t, raidId)), userId), ctx)
      == if ctx.charsByRecency == [] then NoChars
         else CharMenu(Encode(RaidStep("pick_char", raidId)), CharOptions(ctx.charsByRecency))
  {
    assert StepName(t);
    StepRoundTrip(RaidStep(t, raidId));
  }

  /** "Lootbuddy" opens the class menu. */
  lemma StartLootStep(raidId: Option<NumVal>, userId: string, ctx: Context, t: string)
    requires t == "start_loot"
    ensures Route(Button(Encode(RaidStep(t, raidId)), userId), ctx)
      == LootClassMenu(Encode(RaidStep("pick_lootclass", raidId)), TakeOptions(ctx.classOptions, 25))
  {
    assert StepName(t);
    StepRoundTrip(RaidStep(t, raidId));
  }

  /** "Abmelden" withdraws the user's signups for the raid. */
  lemma StartUnsubStep(raidId: Option<NumVal>, userId: string, ctx: Context, t: string)
    requires t == "start_unsub"
    ensures Route(Button(Encode(RaidStep(t, raidId)), userId), ctx) == Withdrawn(raidId, userId)
  {
    assert StepName(t);
    StepRoundTrip(RaidStep(t, raidId));
  }

  /** Picking a character opens the role menu for that character. */
  lemma PickCharStep(raidId: Option<NumVal>, userId: string, v: string, rest: seq<string>, ctx: Context, t: string)
    requires t == "pick_char"
    ensures Route(SelectMenu(Encode(RaidStep(t, raidId)), userId, [v] + rest), ctx)
      == StepPickRole(raidId, NumberOf(v), ctx)
  {
    var p := RaidStep(t, raidId);
    assert StepName(t);
    StepRoundTrip(p);
    PickCharRoutes(Encode(p), userId, [v] + rest, ctx, p);
  }

  lemma PickCharRoutes(cid: string, userId: string, values: seq<string>, ctx: Context, p: IdParts)
    requires Decode(cid) == Some(p) && p.t == "pick_char" && values != []
    ensures Route(SelectMenu(cid, userId, values), ctx) == StepPickRole(p.raidId, NumberOf(values[0]), ctx)
  {
  }

  /** The role menu offers the options whose role the class allows, and carries raid and character. */
  lemma PickRoleMenu(raidId: Option<NumVal>, charId: NumVal, ctx: Context)
    requires LookupChar(ctx, charId).Some?
    ensures var c := LookupChar(ctx, charId).value;
      var o := StepPickRole(raidId, charId, ctx);
      && o.RoleMenu?
      && o.customId == Encode(IdParts("pick_role", raidId, Some(charId), "", false))
      && (forall opt :: opt in o.options <==> opt in ctx.roleOptions && opt.value in AllowedRoles(ctx.classRoleMatrix, c.cls))
      && (MatrixKey(c.cls) !in ctx.classRoleMatrix ==> forall opt :: opt in o.options <==> opt in ctx.roleOptions && opt.value == "DPS")
  {
  }

  /** Picking a role opens the saved menu, carrying raid, character and the role. */
  lemma PickRoleStep(raidId: Option<NumVal>, charId: Option<NumVal>, userId: string, v: string, rest: seq<string>, ctx: Context, t: string)
    requires t == "pick_role"
    ensures Route(SelectMenu(Encode(IdParts(t, raidId, charId, "", false)), userId, [v] + rest), ctx)
      == SavedMenu(Encode(IdParts("pick_saved", raidId, charId, v, false)))
  {
    assert StepName(t);
    StepRoundTrip(IdParts(t, raidId, charId, "", false));
  }

  /** Picking saved or unsaved opens the note modal; only the value "saved" counts as saved. */
  lemma PickSavedStep(raidId: Option<NumVal>, charId: Option<NumVal>, role: string, userId: string,
    v: string, rest: seq<string>, ctx: Context, t: string)
    requires t == "pick_saved" && '|' !in role
    ensures Route(SelectMenu(Encode(IdParts(t, raidId, charId, role, false)), userId, [v] + rest), ctx)
      == NoteModal(Encode(IdParts("final_modal", raidId, charId, role, v == "saved")))
  {
    assert StepName(t);
    StepRoundTrip(IdParts(t, raidId, charId, role, false));
  }

  /** Picking a lootbuddy class opens the note modal, whose id carries the class after `:lc:`. */
  lemma PickLootClassStep(raidId: Option<NumVal>, userId: string, v: string, rest: seq<string>, ctx: Context, t: string)
    requires t == "pick_lootclass"
    ensures Route(SelectMenu(Encode(RaidStep(t, raidId)), userId, [v] + rest), ctx)
      == LootNoteModal(LootModalId(raidId, v))
  {
    assert StepName(t);
    StepRoundTrip(RaidStep(t, raidId));
  }

  /** The encoded id starts with `su|`, its type and `|`. */
  lemma EncodeStartsWith(p: IdParts, rest: string)
    ensures StartsWith(Encode(p) + rest, "su|" + p.t + "|")
  {
    var f := Fields(p);
    assert Join(f, "|") == f[0] + "|" + Join(f[1..], "|");
    assert Join(f[1..], "|") == f[1] + "|" + Join(f[2..], "|");
    var pre := "su|" + p.t + "|";
    assert (Encode(p) + rest)[..|pre|] == pre;
  }

  lemma FinalModalPrefix(p: IdParts)
    requires p.t == "final_modal"
    ensures StartsWith(Encode(p), "su|final_modal|")
  {
    EncodeStartsWith(p, "");
    assert Encode(p) + "" == Encode(p);
    assert "su|" + p.t + "|" == "su|final_modal|";
  }

  /** Submitting the note modal saves the booster signup with the carried fields and the trimmed note. */
  lemma FinalModalStep(raidId: Option<NumVal>, charId: Option<NumVal>, role: string, saved: bool,
    userId: string, note: string, ctx: Context, t: string)
    requires t == "final_modal" && '|' !in role
    ensures Route(ModalSubmit(Encode(IdParts(t, raidId, charId, role, saved)), userId, note), ctx)
      == BoosterSaved(raidId, userId, charId, role, saved, Trim(note))
  {
    var p := IdParts(t, raidId, charId, role, saved);
    assert StepName(t);
    StepRoundTrip(p);
    FinalModalPrefix(p);
  }

  lemma LootModalPrefix(cid: string, p: IdParts, rest: string)
    requires p.t == "final_loot_modal" && cid == Encode(p) + rest
    ensures StartsWith(cid, "su|final_loot_modal|") && !StartsWith(cid, "su|final_modal|")
  {
    EncodeStartsWith(p, rest);
    PrefixLiterals(p.t, "su|final_loot_modal|", "su|final_modal|");
    DifferentPrefixes(cid, "su|final_loot_modal|", "su|final_modal|", 9);
  }

  lemma PrefixLiterals(t: string, a: string, b: string)
    requires t == "final_loot_modal" && a == "su|final_loot_modal|" && b == "su|final_modal|"
    ensures "su|" + t + "|" == a && |b| == 15 && |a| == 20 && a[9] != b[9]
  {
  }

  lemma DifferentPrefixes(s: string, a: string, b: string, k: nat)
    requires StartsWith(s, a) && k < |a| && k < |b| && a[k] != b[k]
    ensures !StartsWith(s, b)
  {
    assert s[k] == a[k];
  }

  lemma ConcatAssoc(a: string, b: string, c: string)
    ensures a + b + c == a + (b + c)
  {
  }

  /** A lootbuddy modal id is routed to the lootbuddy branch. */
  lemma LootModalRoutes(cid: string, userId: string, note: string, ctx: Context)
    requires StartsWith(cid, "su|final_loot_modal|") && !StartsWith(cid, "su|final_modal|")
    ensures Route(ModalSubmit(cid, userId, note), ctx) == LootModal(cid, userId, Trim(note))
  {
  }

  lemma LootModalOf(cid: string, userId: string, note: string, raidId: Option<NumVal>, cls: string)
    requires SplitLootModalId(cid).1 == Some(cls) && Decode(SplitLootModalId(cid).0) == Some(LootParts(raidId))
    ensures LootModal(cid, userId, note) == LootbuddySaved(raidId, userId, OrStr(Some(cls), None), note)
  {
  }

  /** Submitting the lootbuddy note modal saves a lootbuddy signup with the picked class. */
  lemma LootModalStep(raidId: Option<NumVal>, cls: string, userId: string, note: string, ctx: Context)
    requires ':' !in cls
    ensures Route(ModalSubmit(LootModalId(raidId, cls), userId, note), ctx)
      == LootbuddySaved(raidId, userId, OrStr(Some(cls), None), Trim(note))
  {
    var cid := LootModalId(raidId, cls);
    ConcatAssoc(Encode(LootParts(raidId)), LC, cls);
    LootModalPrefix(cid, LootParts(raidId), LC + cls);
    LootModalIdRoundTrip(raidId, cls);
    LootModalRoutes(cid, userId, note, ctx);
    LootModalOf(cid, userId, Trim(note), raidId, cls);
  }

  // ---------------------------------------------------------------------
  // The handler applied to the table

  /** The class snapshot a booster signup stores: `char?.class || null`. */
  function CharClassOf(ctx: Context, charId: Option<NumVal>): (r: Option<string>)
    ensures r.Some? ==> charId.Some? && LookupChar(ctx, charId.value).Some?
  {
    match charId
    case None => None
    case Some(n) =>
      match LookupChar(ctx, n)
      case None => None
      case Some(c) => c.cls
  }

  /**
   * `interactionCreate`: route the interaction and make the table change
   * its outcome calls for; every other outcome is only a reply.
   */
  method Handle(table: Table, i: Interaction, ctx: Context) returns (o: Outcome)
    modifies table
    requires table.Valid()
    ensures table.Valid()
    ensures o == Route(i, ctx)
    ensures o.Withdrawn? ==> table.rows == WithoutOwn(old(table.rows), o.raidId, o.userId)
    ensures o.BoosterSaved? ==>
      table.rows == DeleteFirst(old(table.rows), o.raidId, o.charId)
        + [BoosterRow(old(table.nextId), o.raidId, o.userId, o.charId, o.role, o.saved, o.note, CharClassOf(ctx, o.charId))]
    ensures o.LootbuddySaved? ==>
      table.rows == old(table.rows) + [LootbuddyRow(old(table.nextId), o.raidId, o.userId, o.pickedClass, o.note)]
    ensures !(o.Withdrawn? || o.BoosterSaved? || o.LootbuddySaved?) ==> table.rows == old(table.rows)
  {
    o := Route(i, ctx);
    match o
    case Withdrawn(raidId, userId) =>
      table.DeleteOwnSignup(raidId, userId);
    case BoosterSaved(raidId, userId, charId, role, saved, note) =>
      table.CreateBoosterSignup(raidId, userId, charId, role, saved, note, CharClassOf(ctx, charId));
    case LootbuddySaved(raidId, userId, pickedClass, note) =>
      table.CreateLootbuddySignup(raidId, userId, pickedClass, note);
    case _ =>
  }
}
