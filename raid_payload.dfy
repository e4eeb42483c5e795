/**
 * The raid-creation request body as both raid routers read it
 * (routes/raids.js and routes/raids_2.js): the required-field check, the
 * boss-count default, the shape of a Discord id, and the database's answer
 * to a create call, which both routers' retry logic inspects.
 */
module RaidPayload {
  import opened Common

  /** The request body (`req.body || {}`, always an object), field by field. */
  datatype Payload = Payload(
    title: Js, difficulty: Js, lootType: Js, date: Js, bosses: Js,
    leadId: Js, lead: Js, leadName: Js, presetId: Js)

  /** The checks `validateCreatePayload` makes, in its order. */
  datatype Check = PayloadMissing | TitleRequired | DifficultyRequired | LootTypeRequired | LeadRequired | DateRequired

  /** The error name each failed check pushes. */
  function Name(c: Check): (r: string)
    ensures r != "" && ',' !in r
  {
    match c
    case PayloadMissing => "payload_missing"
    case TitleRequired => "title_required"
    case DifficultyRequired => "difficulty_required"
    case LootTypeRequired => "lootType_required"
    case LeadRequired => "lead_required"
    case DateRequired => "date_required"
  }

  function Names(cs: seq<Check>): (r: seq<string>)
    ensures |r| == |cs|
    ensures forall i :: 0 <= i < |cs| ==> r[i] == Name(cs[i])
  {
    if cs == [] then [] else [Name(cs[0])] + Names(cs[1..])
  }

  /** The field checks, in the order `validateCreatePayload` makes them. */
  const FieldChecks: seq<Check> := [TitleRequired, DifficultyRequired, LootTypeRequired, LeadRequired, DateRequired]

  /** Whether check `c` fails on `p`. `needLead` adds the lead check of raids_2.js. */
  predicate Fails(p: Payload, needLead: bool, c: Check)
  {
    match c
    case PayloadMissing => false
    case TitleRequired => !Truthy(p.title)
    case DifficultyRequired => !Truthy(p.difficulty)
    case LootTypeRequired => !Truthy(p.lootType)
    case LeadRequired => needLead && !Truthy(p.leadId) && !Truthy(p.lead) && !Truthy(p.leadName)
    case DateRequired => !Truthy(p.date)
  }

  predicate Distinct(cs: seq<Check>)
  {
    forall i, j :: 0 <= i < j < |cs| ==> cs[i] != cs[j]
  }

  /** The checks of `cs` that fail, in the order of `cs`. */
  function Failing(cs: seq<Check>, p: Payload, needLead: bool): (errs: seq<Check>)
    ensures forall c :: c in errs <==> c in cs && Fails(p, needLead, c)
    ensures Distinct(cs) ==> Distinct(errs)
  {
    if cs == [] then []
    else
      var rest := Failing(cs[1..], p, needLead);
      var errs := (if Fails(p, needLead, cs[0]) then [cs[0]] else []) + rest;
      assert Distinct(cs) ==> cs[0] !in cs[1..];
      errs
  }

  /**
   * The failed checks, in the order they are made. `needLead` adds the lead
   * check of raids_2.js: one of leadId, lead or leadName must be given.
   */
  function MissingFields(p: Payload, needLead: bool): (errs: seq<Check>)
    ensures TitleRequired in errs <==> !Truthy(p.title)
    ensures DifficultyRequired in errs <==> !Truthy(p.difficulty)
    ensures LootTypeRequired in errs <==> !Truthy(p.lootType)
    ensures LeadRequired in errs <==>
      needLead && !Truthy(p.leadId) && !Truthy(p.lead) && !Truthy(p.leadName)
    ensures DateRequired in errs <==> !Truthy(p.date)
    ensures PayloadMissing !in errs
    ensures Distinct(errs)
    ensures errs == [] <==> Complete(p, needLead)
  {
    FieldChecksCover();
    NothingFailsWhenComplete(p, needLead);
    Failing(FieldChecks, p, needLead)
  }

  /** Every field the checks look at is given (and, with `needLead`, some lead). */
  predicate Complete(p: Payload, needLead: bool)
  {
    Truthy(p.title) && Truthy(p.difficulty) && Truthy(p.lootType)
    && !(needLead && !Truthy(p.leadId) && !Truthy(p.lead) && !Truthy(p.leadName))
    && Truthy(p.date)
  }

  lemma NothingFailsWhenComplete(p: Payload, needLead: bool)
    ensures Failing(FieldChecks, p, needLead) == [] <==> Complete(p, needLead)
  {
    var f := FieldChecks;
    FailingEmpty(f, p, needLead);
    assert f[0] == TitleRequired && f[1] == DifficultyRequired && f[2] == LootTypeRequired;
    assert f[3] == LeadRequired && f[4] == DateRequired;
    assert (forall i :: 0 <= i < |f| ==> !Fails(p, needLead, f[i])) <==>
      !Fails(p, needLead, f[0]) && !Fails(p, needLead, f[1]) && !Fails(p, needLead, f[2])
      && !Fails(p, needLead, f[3]) && !Fails(p, needLead, f[4]);
  }

  /** No check of `cs` fails exactly when the filter keeps nothing. */
  lemma {:induction false} FailingEmpty(cs: seq<Check>, p: Payload, needLead: bool)
    ensures Failing(cs, p, needLead) == [] <==> forall i :: 0 <= i < |cs| ==> !Fails(p, needLead, cs[i])
  {
    if cs != [] {
      FailingEmpty(cs[1..], p, needLead);
      assert forall i :: 1 <= i < |cs| ==> cs[i] == cs[1..][i - 1];
    }
  }

  /** Every field check is listed once, and the payload check is not among them. */
  lemma FieldChecksCover()
    ensures Distinct(FieldChecks)
    ensures forall c :: c in FieldChecks <==> c != PayloadMissing
  {
    var f := FieldChecks;
    assert f[0] == TitleRequired && f[1] == DifficultyRequired && f[2] == LootTypeRequired;
    assert f[3] == LeadRequired && f[4] == DateRequired;
  }

  /** An error the route turns into an HTTP status and a message. */
  datatype Failure = Failure(status: nat, message: string)

  const INVALID_PREFIX := "invalid_payload: "

  /** `validateCreatePayload`: throws a 400 naming every missing field, joined by commas. */
  function Validate(p: Payload, needLead: bool): (r: Result<(), Failure>)
    ensures r.Ok? <==> MissingFields(p, needLead) == []
    ensures r.Err? ==> r.error.status == 400 && StartsWith(r.error.message, INVALID_PREFIX)
  {
    var errs := MissingFields(p, needLead);
    if errs == [] then Ok(())
    else Err(Failure(400, INVALID_PREFIX + Join(Names(errs), ",")))
  }

  /** The message of a rejected payload can be split back into exactly the missing fields' names. */
  lemma ValidateNamesEveryMissingField(p: Payload, needLead: bool)
    requires Validate(p, needLead).Err?
    ensures Split(Validate(p, needLead).error.message[|INVALID_PREFIX|..], ',') == Names(MissingFields(p, needLead))
  {
    var names := Names(MissingFields(p, needLead));
    var m := Validate(p, needLead).error.message;
    assert m[|INVALID_PREFIX|..] == Join(names, [',']);
    SplitJoin(names, ',');
  }

  /** raids_2.js asks for everything raids.js asks for, and a lead besides. */
  lemma LeadCheckOnlyAdds(p: Payload)
    ensures Validate(p, true).Ok? ==> Validate(p, false).Ok?
    ensures Validate(p, false).Ok? && (Truthy(p.leadId) || Truthy(p.lead) || Truthy(p.leadName)) ==>
      Validate(p, true).Ok?
  {
    assert Validate(p, true).Ok? <==> Complete(p, true);
    assert Validate(p, false).Ok? <==> Complete(p, false);
  }

  // ---------------------------------------------------------------------
  // Boss count

  const DEFAULT_BOSSES := 8

  /** The own keys of `DEFAULT_BOSSES_BY_DIFF`. */
  predicate KnownDifficulty(d: string)
  {
    d == "Normal" || d == "Heroic" || d == "Mythic"
  }

  /** Members every plain object inherits from `Object.prototype`. */
  predicate Inherited(d: string)
  {
    d in {"constructor", "__proto__", "toString", "toLocaleString", "valueOf",
          "hasOwnProperty", "isPrototypeOf", "propertyIsEnumerable",
          "__defineGetter__", "__defineSetter__", "__lookupGetter__", "__lookupSetter__"}
  }

  /** `DEFAULT_BOSSES_BY_DIFF[d]` on the object literal: own keys, then inherited members. */
  function DefaultsLookup(d: string): (r: Js)
    ensures KnownDifficulty(d) ==> r == Num(DEFAULT_BOSSES)
    ensures Inherited(d) ==> r == Obj
    ensures !KnownDifficulty(d) && !Inherited(d) ==> r == Undefined
  {
    if KnownDifficulty(d) then Num(DEFAULT_BOSSES)
    else if Inherited(d) then Obj
    else Undefined
  }

  /** `toBosses` as written: a number is kept, else the table's entry `?? 8`. */
  function ToBossesAsWritten(p: Payload): (r: Js)
    ensures IsNumber(p.bosses) ==> r == p.bosses
  {
    if IsNumber(p.bosses) then p.bosses
    else Coalesce(DefaultsLookup(JsString(Or(p.difficulty, Str("")))), Num(DEFAULT_BOSSES))
  }

  /** A difficulty named like an inherited member yields that member, not a number. */
  lemma ToBossesInheritedKey(p: Payload, d: string)
    requires d == "constructor" && p.difficulty == Str(d) && p.bosses == Undefined
    ensures ToBossesAsWritten(p) == Obj && !IsNumber(ToBossesAsWritten(p))
    ensures ToBosses(p) == Num(8)
  {
  }

  /** `toBosses`: a number given in the body, else 8 for every difficulty. */
  function ToBosses(p: Payload): (r: Js)
    ensures IsNumber(r)
    ensures IsNumber(p.bosses) ==> r == p.bosses
    ensures !IsNumber(p.bosses) ==> r == Num(DEFAULT_BOSSES)
  {
    if IsNumber(p.bosses) then p.bosses else Num(DEFAULT_BOSSES)
  }

  /** Off the inherited names the code as written already behaves as intended. */
  lemma ToBossesAgree(p: Payload)
    requires !Inherited(JsString(Or(p.difficulty, Str(""))))
    ensures ToBossesAsWritten(p) == ToBosses(p)
  {
  }

  /** `/^[0-9]{16,20}$/` on a string value. */
  predicate LooksLikeDiscordId(v: Js)
  {
    v.Str? && 16 <= |v.s| <= 20 && AllDigits(v.s)
  }

  /**
   * Only strings of 16 to 20 decimal digits look like a Discord id: a number
   * never does, and one digit fewer or more, or one other character, fails.
   */
  lemma LooksLikeDiscordIdBounds(v: Js)
    ensures !v.Str? ==> !LooksLikeDiscordId(v)
    ensures v.Str? && (|v.s| < 16 || |v.s| > 20) ==> !LooksLikeDiscordId(v)
    ensures v.Str? && (exists i :: 0 <= i < |v.s| && !('0' <= v.s[i] <= '9')) ==> !LooksLikeDiscordId(v)
    ensures LooksLikeDiscordId(Str("1234567890123456")) && LooksLikeDiscordId(Str("12345678901234567890"))
    ensures !LooksLikeDiscordId(Str("123456789012345")) && !LooksLikeDiscordId(Str("123456789012345678901"))
  {
    assert AllDigits("1234567890123456");
    assert AllDigits("12345678901234567890");
  }

  // ---------------------------------------------------------------------
  // The database's answer to `model.create({ data })`

  /** The top-level keys a create call can send. */
  datatype Field = Title | Difficulty | LootType | Date | Lead | Bosses | Preset

  /** Created, a validation error naming one unknown argument, or any other error. */
  datatype DbReply = Created(id: int) | UnknownArg(field: Field) | OtherError

  /**
   * A database whose table has the columns `schema`: it creates a row only
   * from keys it knows, and an unknown-argument error names a key that was
   * sent and that it does not know.
   */
  ghost predicate Consistent(db: set<Field> -> DbReply, schema: set<Field>)
  {
    forall d :: (db(d).Created? ==> d <= schema) && (db(d).UnknownArg? ==> db(d).field in d - schema)
  }

  /** A consistent database that fails only on unknown arguments. */
  ghost predicate Strict(db: set<Field> -> DbReply, schema: set<Field>)
  {
    Consistent(db, schema) && forall d :: !db(d).OtherError? && (d <= schema ==> db(d).Created?)
  }

  /** The keys of the base data, plus `preset` when a preset id is given (`withPreset`). */
  function WithPreset(presetGiven: bool): (r: set<Field>)
    ensures Title in r && Difficulty in r && LootType in r && Date in r && Lead in r && Bosses in r
    ensures Preset in r <==> presetGiven
  {
    {Title, Difficulty, LootType, Date, Lead, Bosses} + (if presetGiven then {Preset} else {})
  }

  /** The keys sent and the outcome of a chain of create attempts. */
  datatype Run = Run(attempts: seq<set<Field>>, outcome: DbReply)
}
