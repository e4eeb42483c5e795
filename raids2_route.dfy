/**
 * The second raid router, routes/raids_2.js. It differs from routes/raids.js
 * in who may create, in requiring a lead, in storing the lead's Discord id
 * rather than its display name, in a deeper retry chain for tables that
 * lack some columns, and in a write-back that keeps ids already stored.
 */
module Raids2Route {
  import opened Common
  import opened RaidPayload
  import opened RaidStore
  import RaidsRoute

  type Config = RaidsRoute.Config
  type User = RaidsRoute.User

  /** `userCanCreate`: any of the four payload flags, or a configured admin or raidlead role. */
  predicate UserCanCreate(cfg: Config, u: Option<User>)
  {
    u.Some? &&
      (Truthy(u.value.isOwner) || Truthy(u.value.isAdmin) || Truthy(u.value.isRaidlead) || Truthy(u.value.raidlead)
       || RaidsRoute.UserHasRole(u.value, cfg.adminRoleId) || RaidsRoute.UserHasRole(u.value, cfg.raidleadRoleId))
  }

  /**
   * Whoever may create with raids.js may create here; here the payload's
   * `isAdmin` flag alone is enough too, which raids.js ignores.
   */
  lemma CreatorsCompared(cfg: Config, u: Option<User>)
    ensures RaidsRoute.UserCanCreate(cfg, u) ==> UserCanCreate(cfg, u)
    ensures u.Some? && Truthy(u.value.isAdmin) ==> UserCanCreate(cfg, u)
    ensures u.None? ==> !UserCanCreate(cfg, u)
    ensures UserCanCreate(cfg, u) && !RaidsRoute.UserCanCreate(cfg, u) ==>
      Truthy(u.value.isAdmin) && !Truthy(u.value.isOwner)
  {
  }

  /** A row normalised by raids_2.js: the lead keys are read with `||` and the legacy lead keys kept. */
  datatype Normalized = Normalized(base: RaidsRoute.Normalized, leadId: Js, leadName: Js)

  /** `normalizeRaid` of raids_2.js. */
  function NormalizeRaid(r: Row): (n: Normalized)
    ensures n.base.(lead := RaidsRoute.NormalizeRaid(r).lead) == RaidsRoute.NormalizeRaid(r)
    ensures Truthy(r.lead) ==> n.base.lead == r.lead
    ensures !Truthy(r.lead) ==> n.base.lead == Null
    ensures Truthy(r.leadId) ==> n.leadId == r.leadId
    ensures !Truthy(r.leadId) ==> n.leadId == Null
    ensures Truthy(r.leadName) ==> n.leadName == r.leadName
    ensures !Truthy(r.leadName) ==> n.leadName == Null
  {
    Normalized(RaidsRoute.NormalizeRaid(r).(lead := Or(r.lead, Null)), Or(r.leadId, Null), Or(r.leadName, Null))
  }

  // ---------------------------------------------------------------------
  // The lead of a new raid

  /**
   * The lead id and display name `createCore` settles on: the body's
   * leadId, else an id-shaped lead; the body's leadName, else the server's
   * name for the id, else a lead that is not id-shaped.
   */
  method ResolveLead(p: Payload, server: map<string, string>) returns (leadId: Js, leadDisplay: Js)
    ensures Truthy(p.leadId) ==> leadId == p.leadId
    ensures !Truthy(p.leadId) && LooksLikeDiscordId(p.lead) ==> leadId == p.lead
    ensures !Truthy(p.leadId) && !LooksLikeDiscordId(p.lead) ==> !Truthy(leadId)
    ensures Truthy(p.leadName) ==> leadDisplay == p.leadName
    ensures !Truthy(p.leadName) && Truthy(leadId) && Truthy(RaidsRoute.ServerDisplay(server, Some(JsString(leadId))))
      ==> leadDisplay == RaidsRoute.ServerDisplay(server, Some(JsString(leadId)))
    ensures !Truthy(p.leadName) && !Truthy(leadId) && Truthy(p.lead) ==> leadDisplay == p.lead
    ensures Truthy(leadDisplay) ==>
      leadDisplay in {p.leadName, p.lead, RaidsRoute.ServerDisplay(server, Some(JsString(leadId)))}
  {
    leadId := Coalesce(p.leadId, Null);
    leadDisplay := Coalesce(p.leadName, Null);
    if !Truthy(leadId) && LooksLikeDiscordId(p.lead) {
      leadId := p.lead;
    }
    if !Truthy(leadDisplay) && Truthy(leadId) {
      leadDisplay := RaidsRoute.ServerDisplay(server, Some(JsString(leadId)));
    }
    if !Truthy(leadDisplay) && Truthy(p.lead) && !LooksLikeDiscordId(p.lead) {
      leadDisplay := p.lead;
    }
  }

  /** The `lead` column: the body's leadId if given, else an id-shaped lead, else null. */
  function StoredLead(p: Payload): (r: Js)
    ensures Truthy(p.leadId) ==> r == p.leadId
    ensures !Truthy(p.leadId) && LooksLikeDiscordId(p.lead) ==> r == p.lead
    ensures !Truthy(p.leadId) && !LooksLikeDiscordId(p.lead) ==> r == Null
  {
    Or(Coalesce(p.leadId, Null), if LooksLikeDiscordId(p.lead) then p.lead else Null)
  }

  // ---------------------------------------------------------------------
  // The create retry chain

  /** The keys the chain drops on a first unknown-argument error. */
  predicate Optional(f: Field)
  {
    f == Preset || f == Bosses || f == Lead
  }

  /** The keys it drops on a second one, after dropping `first`. */
  predicate Next(first: Field, f: Field)
  {
    match first
    case Preset => f == Bosses || f == Lead
    case Bosses => f == Lead
    case Lead => f == Bosses
    case _ => false
  }

  /** The base keys are in every attempt, and nothing beyond the data with the preset. */
  predicate Keeps(a: set<Field>, presetGiven: bool)
  {
    Title in a && Difficulty in a && LootType in a && Date in a && a <= WithPreset(presetGiven)
  }

  /**
   * The retry chain as written. After an unknown `preset` it retries
   * without it; if that fails on `bosses` or `lead`, the third attempt
   * drops that key from the data WITH the preset again.
   */
  function CreateChainAsWritten(db: set<Field> -> DbReply, presetGiven: bool): (r: Run)
    ensures 1 <= |r.attempts| <= 3 && r.attempts[0] == WithPreset(presetGiven)
    ensures forall i :: 0 <= i < |r.attempts| ==> Keeps(r.attempts[i], presetGiven)
    ensures |r.attempts| >= 2 ==> db(r.attempts[0]).UnknownArg? && Optional(db(r.attempts[0]).field)
    ensures |r.attempts| == 3 ==> db(r.attempts[1]).UnknownArg?
    ensures r.outcome == db(r.attempts[|r.attempts| - 1])
  {
    var a1 := WithPreset(presetGiven);
    var e1 := db(a1);
    if e1.UnknownArg? && Optional(e1.field) then
      var a2 := a1 - {e1.field};
      var e2 := db(a2);
      if e2.UnknownArg? && Next(e1.field, e2.field) then
        var a3 := (if e1.field == Preset then a1 else a2) - {e2.field};
        Run([a1, a2, a3], db(a3))
      else Run([a1, a2], e2)
    else Run([a1], e1)
  }

  /**
   * The retry chain as intended: every retry drops exactly the key the
   * previous error named from the previous attempt, so no key the database
   * refused is sent again; any other error, or a third failure, is thrown.
   */
  function CreateChain(db: set<Field> -> DbReply, presetGiven: bool): (r: Run)
    ensures 1 <= |r.attempts| <= 3 && r.attempts[0] == WithPreset(presetGiven)
    ensures forall i :: 0 <= i < |r.attempts| ==> Keeps(r.attempts[i], presetGiven)
    ensures |r.attempts| >= 2 ==>
      && db(r.attempts[0]).UnknownArg? && Optional(db(r.attempts[0]).field)
      && r.attempts[1] == r.attempts[0] - {db(r.attempts[0]).field}
    ensures |r.attempts| == 3 ==>
      && db(r.attempts[1]).UnknownArg?
      && r.attempts[2] == r.attempts[1] - {db(r.attempts[1]).field}
      && db(r.attempts[0]).field !in r.attempts[2]
    ensures r.outcome == db(r.attempts[|r.attempts| - 1])
  {
    var a1 := WithPreset(presetGiven);
    var e1 := db(a1);
    if e1.UnknownArg? && Optional(e1.field) then
      var a2 := a1 - {e1.field};
      var e2 := db(a2);
      if e2.UnknownArg? && Next(e1.field, e2.field) then
        var a3 := a2 - {e2.field};
        Run([a1, a2, a3], db(a3))
      else Run([a1, a2], e2)
    else Run([a1], e1)
  }

  /** The columns a table has that lacks the preset relation and the bosses column. */
  const NoPresetNoBosses: set<Field> := {Title, Difficulty, LootType, Date, Lead}

  /** A database with that table, which reports an unknown preset before anything else. */
  function PresetFirstDb(d: set<Field>): DbReply
  {
    if d <= NoPresetNoBosses then Created(1)
    else if Preset in d then UnknownArg(Preset)
    else UnknownArg(Bosses)
  }

  /**
   * On such a table, with a preset given, the chain as written ends on its
   * third attempt with the preset error it had already handled, where the
   * intended chain creates the raid.
   */
  lemma RetryResendsPreset()
    ensures Strict(PresetFirstDb, NoPresetNoBosses)
    ensures CreateChainAsWritten(PresetFirstDb, true).outcome == UnknownArg(Preset)
    ensures Preset in CreateChainAsWritten(PresetFirstDb, true).attempts[2]
    ensures CreateChain(PresetFirstDb, true).outcome.Created?
  {
    forall d: set<Field>
      ensures (PresetFirstDb(d).Created? ==> d <= NoPresetNoBosses)
      ensures (PresetFirstDb(d).UnknownArg? ==> PresetFirstDb(d).field in d - NoPresetNoBosses)
    {
      if !(d <= NoPresetNoBosses) && Preset !in d {
        var x :| x in d && x !in NoPresetNoBosses;
        assert x == Bosses;
      }
    }
    var a1 := WithPreset(true);
    assert !(a1 <= NoPresetNoBosses) by { assert Preset in a1; }
    var a2 := a1 - {Preset};
    assert Bosses in a2 && !(a2 <= NoPresetNoBosses);
    assert Preset in a1 - {Bosses};
    assert a2 - {Bosses} == NoPresetNoBosses;
  }

  /** With every key of `a` known, the database creates the row. */
  lemma NoneMissing(db: set<Field> -> DbReply, schema: set<Field>, a: set<Field>)
    requires Strict(db, schema) && a - schema == {}
    ensures db(a).Created?
  {
    assert a <= schema;
  }

  /** With one unknown key, the database names it. */
  lemma OneMissing(db: set<Field> -> DbReply, schema: set<Field>, a: set<Field>, f: Field)
    requires Strict(db, schema) && a - schema == {f}
    ensures db(a) == UnknownArg(f) && (a - {f}) - schema == {}
  {
    assert f in a - schema;
    assert !(a <= schema);
  }

  /** With two unknown keys, the database names one of them and the other remains. */
  lemma TwoMissing(db: set<Field> -> DbReply, schema: set<Field>, a: set<Field>, f: Field, g: Field)
    requires Strict(db, schema) && f != g && a - schema == {f, g}
    ensures db(a).UnknownArg? && (db(a).field == f || db(a).field == g)
    ensures db(a).field == f ==> (a - {f}) - schema == {g}
    ensures db(a).field == g ==> (a - {g}) - schema == {f}
  {
    assert f in a - schema;
    assert !(a <= schema);
    assert (a - {f}) - schema == (a - schema) - {f} == {g};
    assert (a - {g}) - schema == (a - schema) - {g} == {f};
  }

  /**
   * The intended chain creates the raid whenever the table lacks at most
   * one optional key, or lacks bosses and lead, or lacks the preset and one
   * more key while reporting the preset first.
   */
  lemma CreateChainTolerates(db: set<Field> -> DbReply, schema: set<Field>, presetGiven: bool)
    requires Strict(db, schema)
    requires var u := WithPreset(presetGiven) - schema;
      || u == {} || u == {Preset} || u == {Bosses} || u == {Lead} || u == {Bosses, Lead}
      || (db(WithPreset(presetGiven)) == UnknownArg(Preset) && (u == {Preset, Bosses} || u == {Preset, Lead}))
    ensures CreateChain(db, presetGiven).outcome.Created?
  {
    var a1 := WithPreset(presetGiven);
    var u := a1 - schema;
    if u == {} {
      NoneMissing(db, schema, a1);
    } else if u == {Preset} || u == {Bosses} || u == {Lead} {
      var f :| f in u;
      assert u == {f};
      OneMissing(db, schema, a1, f);
      NoneMissing(db, schema, a1 - {f});
    } else {
      var f, g := if u == {Bosses, Lead} then Bosses else Preset,
                  if u == {Bosses, Lead} then Lead else if u == {Preset, Bosses} then Bosses else Lead;
      assert u == {f, g};
      TwoMissing(db, schema, a1, f, g);
      var first := db(a1).field;
      var other := if first == f then g else f;
      var a2 := a1 - {first};
      OneMissing(db, schema, a2, other);
      NoneMissing(db, schema, a2 - {other});
    }
  }

  /** Neither chain creates a raid on a table that lacks one of the four base columns. */
  lemma ChainsNeedBaseColumns(db: set<Field> -> DbReply, schema: set<Field>, presetGiven: bool)
    requires Consistent(db, schema)
    requires !({Title, Difficulty, LootType, Date} <= schema)
    ensures !CreateChain(db, presetGiven).outcome.Created?
    ensures !CreateChainAsWritten(db, presetGiven).outcome.Created?
  {
    var r := CreateChain(db, presetGiven);
    var last := r.attempts[|r.attempts| - 1];
    assert {Title, Difficulty, LootType, Date} <= last;
    var w := CreateChainAsWritten(db, presetGiven);
    var wl := w.attempts[|w.attempts| - 1];
    assert {Title, Difficulty, LootType, Date} <= wl;
  }

  // ---------------------------------------------------------------------
  // Create, write-back and response

  /** A row after the raids_2.js write-back: a new id wins, else the stored one stays, else null. */
  function KeepIds(row: Row, channelId: Js, messageId: Js): (r: Row)
    ensures Truthy(channelId) ==> r.channelId == channelId
    ensures !Truthy(channelId) && Truthy(row.channelId) ==> r.channelId == row.channelId
    ensures !Truthy(channelId) && !Truthy(row.channelId) ==> r.channelId == Null
    ensures Truthy(messageId) ==> r.messageId == messageId
    ensures !Truthy(messageId) && Truthy(row.messageId) ==> r.messageId == row.messageId
    ensures !Truthy(messageId) && !Truthy(row.messageId) ==> r.messageId == Null
    ensures r.(channelId := row.channelId, messageId := row.messageId) == row
  {
    row.(channelId := Or(Or(channelId, row.channelId), Null),
         messageId := Or(Or(messageId, row.messageId), Null))
  }

  /** The write-back never turns a stored id into null. */
  lemma KeepIdsNeverClears(row: Row, channelId: Js, messageId: Js)
    ensures Truthy(row.channelId) ==> Truthy(KeepIds(row, channelId, messageId).channelId)
    ensures Truthy(row.messageId) ==> Truthy(KeepIds(row, channelId, messageId).messageId)
  {
  }

  /** The JSON write-back of raids_2.js on the row with the new raid's id. */
  method WriteBackIds(store: JsonRaids, createdId: Js, channelId: Js, messageId: Js)
    modifies store
    ensures IndexById(old(store.rows), createdId).None? ==> store.rows == old(store.rows)
    ensures IndexById(old(store.rows), createdId).Some? ==>
      var i := IndexById(old(store.rows), createdId).value;
      store.rows == old(store.rows)[i := KeepIds(old(store.rows)[i], channelId, messageId)]
  {
    var idx := IndexById(store.rows, createdId);
    if idx.Some? {
      store.Put(idx.value, KeepIds(store.rows[idx.value], channelId, messageId));
    }
  }

  /** The user table's names for a Discord id. */
  datatype UserNames = UserNames(displayName: Js, username: Js)

  /**
   * `displayForLead`: nothing without an id; a user row's display name or
   * user name when the user table has the id; otherwise the server's name.
   */
  function DisplayForLead(leadId: Js, users: map<string, UserNames>, server: map<string, string>): (r: Js)
    ensures Truthy(r) || r == Null
    ensures !Truthy(leadId) ==> r == Null
    ensures Truthy(leadId) && JsString(leadId) in users && Truthy(users[JsString(leadId)].displayName) ==>
      r == users[JsString(leadId)].displayName
    ensures Truthy(leadId) && JsString(leadId) in users && !Truthy(users[JsString(leadId)].displayName) ==>
      r == (if Truthy(users[JsString(leadId)].username) then users[JsString(leadId)].username else Null)
    ensures Truthy(leadId) && JsString(leadId) !in users ==>
      r == RaidsRoute.ServerDisplay(server, Some(JsString(leadId)))
  {
    if !Truthy(leadId) then Null
    else if JsString(leadId) in users then
      Or(Or(users[JsString(leadId)].displayName, users[JsString(leadId)].username), Null)
    else RaidsRoute.ServerDisplay(server, Some(JsString(leadId)))
  }

  datatype Shaped = Shaped(raid: Normalized, detailUrl: Js)

  /** The lead id a stored row names: the `lead` column, else the legacy leadId. */
  function LeadIdOf(n: Normalized): (r: Js)
    ensures Truthy(r) || r == Null
  {
    Or(Or(n.base.lead, n.leadId), Null)
  }

  /**
   * `shapeForResponse` of raids_2.js: `lead` and `leadName` are the display
   * name when one is found, else the lead id; `detailUrl` exists iff the id does.
   */
  function ShapeForResponse(row: Row, users: map<string, UserNames>, server: map<string, string>): (r: Shaped)
    ensures r.detailUrl == Null <==> !Truthy(NormalizeRaid(row).base.id)
    ensures Truthy(row.id) ==> r.detailUrl == Str("/raids/" + JsString(row.id))
    ensures r.raid.leadId == LeadIdOf(NormalizeRaid(row))
    ensures r.raid.base.lead == r.raid.leadName
    ensures Truthy(DisplayForLead(LeadIdOf(NormalizeRaid(row)), users, server)) ==>
      r.raid.base.lead == DisplayForLead(LeadIdOf(NormalizeRaid(row)), users, server)
    ensures !Truthy(DisplayForLead(LeadIdOf(NormalizeRaid(row)), users, server)) && Truthy(NormalizeRaid(row).leadName) ==>
      r.raid.base.lead == NormalizeRaid(row).leadName
    ensures !Truthy(DisplayForLead(LeadIdOf(NormalizeRaid(row)), users, server)) && !Truthy(NormalizeRaid(row).leadName) ==>
      r.raid.base.lead == LeadIdOf(NormalizeRaid(row))
    ensures r.raid.base.(lead := NormalizeRaid(row).base.lead) == NormalizeRaid(row).base
  {
    var n := NormalizeRaid(row);
    var leadId := LeadIdOf(n);
    var leadDisplay := Or(Or(DisplayForLead(leadId, users, server), n.leadName), Null);
    var shown := Or(leadDisplay, Coalesce(leadId, Null));
    Shaped(Normalized(n.base.(lead := shown), Or(leadId, Null), shown),
           if n.base.id != Null then Str("/raids/" + JsString(n.base.id)) else Null)
  }

  /** The row the JSON fallback appends. */
  function NewRow(p: Payload, uuid: string): (row: Row)
    ensures row.id == Str(uuid) && row.title == p.title && row.date == p.date
    ensures row.lead == StoredLead(p)
    ensures IsNumber(row.bosses)
    ensures !IsNullish(p.presetId) ==> row.presetId == p.presetId
    ensures row.channelId == Undefined && row.messageId == Undefined
  {
    Blank.(id := Str(uuid), title := p.title, difficulty := p.difficulty, lootType := p.lootType,
           date := p.date, lead := StoredLead(p), bosses := ToBosses(p),
           presetId := Coalesce(p.presetId, Null))
  }

  /**
   * The record the database answers a create with: the keys of the attempt
   * `sent` that succeeded, under the new id. A key the chain dropped names
   * a column the table lacks, so the record has no such key; the preset id
   * column holds the body's preset id when the relation was connected, and
   * its default null when it was not.
   */
  function CreatedRow(p: Payload, sent: set<Field>, id: int): (row: Row)
    ensures row.id == Num(id) && row.title == p.title && row.date == p.date
    ensures Lead in sent ==> row.lead == StoredLead(p)
    ensures Lead !in sent ==> row.lead == Undefined
    ensures Bosses in sent ==> row.bosses == ToBosses(p)
    ensures Bosses !in sent ==> row.bosses == Undefined
    ensures Preset in sent ==> row.presetId == p.presetId
    ensures Preset !in sent ==> row.presetId == Null
  {
    NewRow(p, "").(id := Num(id),
                   lead := if Lead in sent then StoredLead(p) else Undefined,
                   bosses := if Bosses in sent then ToBosses(p) else Undefined,
                   presetId := if Preset in sent then p.presetId else Null)
  }

  /**
   * The created raid the route answers with shows the body's preset id, the
   * boss count and the stored lead exactly when the successful attempt sent
   * them; a dropped key shows as null.
   */
  lemma CreatedReplyKeys(db: set<Field> -> DbReply, p: Payload, users: map<string, UserNames>, server: map<string, string>)
    requires CreateChain(db, Truthy(p.presetId)).outcome.Created?
    ensures var run := CreateChain(db, Truthy(p.presetId));
      var sent := run.attempts[|run.attempts| - 1];
      var n := NormalizeRaid(CreatedRow(p, sent, run.outcome.id)).base;
      && (Preset in sent ==> n.presetId == p.presetId)
      && (Bosses in sent ==> n.bosses == ToBosses(p))
      && (Bosses !in sent ==> n.bosses == Null)
      && (Lead !in sent ==> n.lead == Null)
  {
    var run := CreateChain(db, Truthy(p.presetId));
    var sent := run.attempts[|run.attempts| - 1];
    assert Keeps(sent, Truthy(p.presetId));
  }

  datatype CreateReply = Forbidden | Invalid(failure: Failure) | Failed(reply: DbReply) | Done(raid: Shaped)

  /**
   * `createCore` of raids_2.js, with the intended retry chain. `db` is the
   * database model when there is one; `announced` holds the ids the
   * announcement returned, None when it threw.
   */
  method CreateCore(
    store: JsonRaids, cfg: Config, u: Option<User>, p: Payload,
    users: map<string, UserNames>, server: map<string, string>,
    db: Option<set<Field> -> DbReply>, uuid: string, announced: Option<(Js, Js)>)
    returns (r: CreateReply)
    modifies store
    ensures !UserCanCreate(cfg, u) ==> r == Forbidden
    ensures UserCanCreate(cfg, u) && Validate(p, true).Err? ==> r == Invalid(Validate(p, true).error)
    ensures r.Forbidden? || r.Invalid? || db.Some? ==> store.rows == old(store.rows)
    ensures UserCanCreate(cfg, u) && Validate(p, true).Ok? && db.Some? ==>
      && var outcome := CreateChain(db.value, Truthy(p.presetId)).outcome;
      && var sent := CreateChain(db.value, Truthy(p.presetId)).attempts[|CreateChain(db.value, Truthy(p.presetId)).attempts| - 1];
      && (outcome.Created? ==> r == Done(ShapeForResponse(CreatedRow(p, sent, outcome.id), users, server)))
      && (!outcome.Created? ==> r == Failed(outcome))
    ensures UserCanCreate(cfg, u) && Validate(p, true).Ok? && db.None? ==>
      && r == Done(ShapeForResponse(NewRow(p, uuid), users, server))
      && |store.rows| == |old(store.rows)| + 1
      && (RaidsRoute.FreshId(old(store.rows), uuid) ==>
            store.rows == old(store.rows) +
              [if announced.Some? && (Truthy(announced.value.0) || Truthy(announced.value.1)) && uuid != ""
               then KeepIds(NewRow(p, uuid), announced.value.0, announced.value.1) else NewRow(p, uuid)])
  {
    if !UserCanCreate(cfg, u) {
      return Forbidden;
    }
    var v := Validate(p, true);
    if v.Err? {
      return Invalid(v.error);
    }
    var leadId, leadDisplay := ResolveLead(p, server);
    if db.Some? {
      var run := CreateChain(db.value, Truthy(p.presetId));
      if !run.outcome.Created? {
        return Failed(run.outcome);
      }
      return Done(ShapeForResponse(CreatedRow(p, run.attempts[|run.attempts| - 1], run.outcome.id), users, server));
    }
    r := CreateInJson(store, p, users, server, uuid, announced);
  }

  /** The JSON fallback of `createCore`: append the row, then write the announcement's ids back. */
  method CreateInJson(
    store: JsonRaids, p: Payload, users: map<string, UserNames>, server: map<string, string>,
    uuid: string, announced: Option<(Js, Js)>)
    returns (r: CreateReply)
    modifies store
    ensures r == Done(ShapeForResponse(NewRow(p, uuid), users, server))
    ensures |store.rows| == |old(store.rows)| + 1
    ensures RaidsRoute.FreshId(old(store.rows), uuid) ==>
      store.rows == old(store.rows) +
        [if announced.Some? && (Truthy(announced.value.0) || Truthy(announced.value.1)) && uuid != ""
         then KeepIds(NewRow(p, uuid), announced.value.0, announced.value.1) else NewRow(p, uuid)]
  {
    var row := NewRow(p, uuid);
    store.Push(row);
    ghost var pushed := store.rows;
    if announced.Some? && (Truthy(announced.value.0) || Truthy(announced.value.1)) && uuid != "" {
      WriteBackIds(store, Str(uuid), announced.value.0, announced.value.1);
      if RaidsRoute.FreshId(old(store.rows), uuid) {
        IndexOfAppended(old(store.rows), row, uuid);
      }
    }
    return Done(ShapeForResponse(row, users, server));
  }
}
