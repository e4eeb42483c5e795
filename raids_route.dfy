/**
 * The raid router of routes/raids.js: who may create and delete raids, how
 * a stored row is normalised for the client, how the lead of a new raid is
 * chosen, and the create and delete handlers over the JSON fallback store.
 * The database, Discord and the UUID generator are parameters.
 */
module RaidsRoute {
  import opened Common
  import opened RaidPayload
  import opened RaidStore
  import Session

  /** The configured role ids ("" when unset). */
  datatype Config = Config(adminRoleId: string, raidleadRoleId: string)

  type User = Session.User

  // ---------------------------------------------------------------------
  // Permission levels

  /** `userHasRole`: an empty role id is held by nobody; a non-array `roles` holds nothing. */
  predicate UserHasRole(u: User, roleId: string)
  {
    roleId != "" && u.roles.Some? && Str(roleId) in u.roles.value
  }

  predicate IsOwner(u: Option<User>)
  {
    u.Some? && Truthy(u.value.isOwner)
  }

  /** Owner, or holder of the admin role; the payload's `isAdmin` flag is not consulted. */
  predicate IsAdminLevel(cfg: Config, u: Option<User>)
  {
    u.Some? && (IsOwner(u) || UserHasRole(u.value, cfg.adminRoleId))
  }

  predicate IsRaidleadLevel(cfg: Config, u: Option<User>)
  {
    u.Some? &&
      (IsAdminLevel(cfg, u) || UserHasRole(u.value, cfg.raidleadRoleId)
       || Truthy(u.value.isRaidlead) || Truthy(u.value.raidlead))
  }

  predicate UserCanCreate(cfg: Config, u: Option<User>)
  {
    IsRaidleadLevel(cfg, u)
  }

  /** The levels nest, nobody without a session has any, and the `isAdmin` flag changes none. */
  lemma LevelsNest(cfg: Config, u: Option<User>, flag: Js)
    ensures IsAdminLevel(cfg, u) ==> IsRaidleadLevel(cfg, u)
    ensures IsRaidleadLevel(cfg, u) <==> UserCanCreate(cfg, u)
    ensures u.None? ==> !UserCanCreate(cfg, u)
    ensures u.Some? ==>
      && (IsAdminLevel(cfg, u) <==> IsAdminLevel(cfg, Some(u.value.(isAdmin := flag))))
      && (UserCanCreate(cfg, u) <==> UserCanCreate(cfg, Some(u.value.(isAdmin := flag))))
  {
  }

  // ---------------------------------------------------------------------
  // Normalised rows

  /** The row as the client sees it. */
  datatype Normalized = Normalized(
    id: Js, title: Js, difficulty: Js, lootType: Js, date: Js,
    lead: Js, presetId: Js, bosses: Js, channelId: Js, messageId: Js)

  /** `a || b || null`: the first truthy value, else null. */
  function FirstTruthy(vs: seq<Js>): (r: Js)
    ensures Truthy(r) || r == Null
    ensures forall i :: 0 <= i < |vs| && Truthy(vs[i]) && (forall j :: 0 <= j < i ==> !Truthy(vs[j])) ==> r == vs[i]
    ensures (forall i :: 0 <= i < |vs| ==> !Truthy(vs[i])) ==> r == Null
  {
    if vs == [] then Null else Or(vs[0], FirstTruthy(vs[1..]))
  }

  /** `normalizeRaid` */
  function NormalizeRaid(r: Row): (n: Normalized)
    ensures Truthy(r.id) ==> n.id == r.id
    ensures Truthy(n.id) || n.id == Null
    ensures Truthy(r.title) ==> n.title == r.title
    ensures !Truthy(r.title) && !Truthy(r.name) ==> n.title == Str("")
    ensures Truthy(n.title) || n.title == Str("")
    ensures Truthy(n.difficulty) || n.difficulty == Str("")
    ensures Truthy(n.lootType) || n.lootType == Str("")
    ensures Truthy(r.date) ==> n.date == r.date
    ensures !IsNullish(r.lead) ==> n.lead == r.lead
    ensures IsNullish(r.lead) ==> n.lead == Null
    ensures !IsNullish(n.presetId) || n.presetId == Null
    ensures IsNumber(r.bosses) ==> n.bosses == r.bosses
    ensures !IsNumber(r.bosses) ==> n.bosses == Null
    ensures Truthy(r.channelId) ==> n.channelId == r.channelId
    ensures !Truthy(r.channelId) ==> n.channelId == Null
    ensures Truthy(r.messageId) ==> n.messageId == r.messageId
    ensures !Truthy(r.messageId) ==> n.messageId == Null
  {
    Normalized(
      FirstTruthy([r.id, r.raidId, r.objectId]),
      Or(Or(r.title, r.name), Str("")),
      Or(Or(r.difficulty, r.diff), Str("")),
      Or(Or(r.lootType, r.loot), Str("")),
      FirstTruthy([r.date, r.when, r.datetime]),
      Coalesce(r.lead, Null),
      Coalesce(Coalesce(r.presetId, r.preset), Null),
      if IsNumber(r.bosses) then r.bosses else Null,
      Or(r.channelId, Null),
      Or(r.messageId, Null))
  }

  /** A normalised raid written back as a row, under the primary keys only. */
  function AsRow(n: Normalized): Row
  {
    Blank.(id := n.id, title := n.title, difficulty := n.difficulty, lootType := n.lootType,
           date := n.date, lead := n.lead, presetId := n.presetId, bosses := n.bosses,
           channelId := n.channelId, messageId := n.messageId)
  }

  /** Normalising a normalised raid changes nothing. */
  lemma NormalizeIdempotent(r: Row)
    ensures NormalizeRaid(AsRow(NormalizeRaid(r))) == NormalizeRaid(r)
  {
    var n := NormalizeRaid(r);
    var m := NormalizeRaid(AsRow(n));
    assert m.id == n.id;
    assert m.date == n.date;
  }

  /** The response object: the normalised row and a detail link when it has an id. */
  datatype Shaped = Shaped(raid: Normalized, detailUrl: Js)

  /** `shapeForResponse` */
  function ShapeForResponse(row: Row): (r: Shaped)
    ensures r.raid == NormalizeRaid(row)
    ensures r.detailUrl == Null <==> !Truthy(NormalizeRaid(row).id)
    ensures Truthy(row.id) ==> r.detailUrl == Str("/raids/" + JsString(row.id))
  {
    var n := NormalizeRaid(row);
    Shaped(n, if n.id != Null then Str("/raids/" + JsString(n.id)) else Null)
  }

  // ---------------------------------------------------------------------
  // Choosing the lead of a new raid

  /** The caller's own id: discordId, else id, each printed as a string. */
  function SelfId(u: Option<User>): (r: Option<string>)
    ensures r.Some? ==> r.value != ""
    ensures u.Some? && Truthy(u.value.discordId) ==> r == Some(JsString(u.value.discordId))
    ensures u.None? || (!Truthy(u.value.discordId) && !Truthy(u.value.id)) ==> r == None
  {
    if u.Some? && Truthy(u.value.discordId) then Some(JsString(u.value.discordId))
    else if u.Some? && Truthy(u.value.id) then Some(JsString(u.value.id))
    else None
  }

  /**
   * `resolveServerDisplay(id)`: `server` maps a member's id to its
   * nickname || global name || user name; it is empty when no guild is
   * configured or the bot is unavailable.
   */
  function ServerDisplay(server: map<string, string>, id: Option<string>): (r: Js)
    ensures Truthy(r) || r == Null
    ensures Truthy(r) ==> id.Some? && id.value in server && r == Str(server[id.value])
  {
    if id.Some? && id.value in server && server[id.value] != "" then Str(server[id.value]) else Null
  }

  datatype LeadChoice = LeadChoice(id: Option<string>, display: Js)

  /**
   * `resolveLeadForCreate`: an admin may name the lead by an id-shaped
   * `leadId` or `lead` and a `leadName`; everyone else always leads their
   * own raid, whatever the body says.
   */
  function ResolveLeadForCreate(cfg: Config, u: Option<User>, p: Payload, server: map<string, string>): (r: LeadChoice)
    ensures Truthy(r.display) || r.display == Null
    ensures !IsAdminLevel(cfg, u) ==> r.id == SelfId(u)
    ensures IsAdminLevel(cfg, u) && LooksLikeDiscordId(p.leadId) ==> r.id == Some(p.leadId.s)
    ensures IsAdminLevel(cfg, u) && !LooksLikeDiscordId(p.leadId) && LooksLikeDiscordId(p.lead) ==>
      r.id == Some(p.lead.s)
    ensures IsAdminLevel(cfg, u) && !LooksLikeDiscordId(p.leadId) && !LooksLikeDiscordId(p.lead) ==>
      r.id == SelfId(u)
    ensures IsAdminLevel(cfg, u) && Truthy(p.leadName) ==> r.display == p.leadName
    ensures !(IsAdminLevel(cfg, u) && Truthy(p.leadName)) && Truthy(ServerDisplay(server, r.id)) ==>
      r.display == ServerDisplay(server, r.id)
    ensures r.display == Null ==> !Truthy(ServerDisplay(server, r.id))
    ensures !(IsAdminLevel(cfg, u) && Truthy(p.leadName)) && !Truthy(ServerDisplay(server, r.id)) ==>
      r.display == (if u.Some? then Or(Or(u.value.displayName, u.value.username), Null) else Null)
  {
    var own := if u.Some? then Or(Or(u.value.displayName, u.value.username), Null) else Null;
    if IsAdminLevel(cfg, u) then
      var candidate :=
        if LooksLikeDiscordId(p.leadId) then Some(p.leadId.s)
        else if LooksLikeDiscordId(p.lead) then Some(p.lead.s)
        else SelfId(u);
      LeadChoice(candidate, Or(p.leadName, Or(ServerDisplay(server, candidate), own)))
    else
      LeadChoice(SelfId(u), Or(ServerDisplay(server, SelfId(u)), own))
  }

  /** A non-admin's body has no say in the lead. */
  lemma NonAdminIgnoresPayload(cfg: Config, u: Option<User>, p: Payload, q: Payload, server: map<string, string>)
    requires !IsAdminLevel(cfg, u)
    ensures ResolveLeadForCreate(cfg, u, p, server) == ResolveLeadForCreate(cfg, u, q, server)
  {
  }

  // ---------------------------------------------------------------------
  // Creating a raid

  /**
   * The database path of `createCore`: the data with the preset relation,
   * and on any error once more without it; a second error is thrown.
   */
  function CreateAttempts(db: set<Field> -> DbReply, presetGiven: bool): (r: Run)
    ensures 1 <= |r.attempts| <= 2 && r.attempts[0] == WithPreset(presetGiven)
    ensures |r.attempts| == 2 ==> r.attempts[1] == WithPreset(presetGiven) - {Preset}
    ensures r.outcome == db(r.attempts[|r.attempts| - 1])
    ensures |r.attempts| == 2 <==> !db(WithPreset(presetGiven)).Created?
  {
    var first := WithPreset(presetGiven);
    if db(first).Created? then Run([first], db(first))
    else Run([first, first - {Preset}], db(first - {Preset}))
  }

  /**
   * The fallback tolerates a table without the preset relation and nothing
   * else: every base column must exist for a raid to be created.
   */
  lemma CreateAttemptsTolerateMissingPreset(db: set<Field> -> DbReply, schema: set<Field>, presetGiven: bool)
    requires Consistent(db, schema)
    ensures Strict(db, schema) && WithPreset(false) <= schema ==> CreateAttempts(db, presetGiven).outcome.Created?
    ensures !(WithPreset(false) <= schema) ==> !CreateAttempts(db, presetGiven).outcome.Created?
  {
    var r := CreateAttempts(db, presetGiven);
    var last := r.attempts[|r.attempts| - 1];
    assert WithPreset(false) <= last;
    if Strict(db, schema) && WithPreset(false) <= schema && !db(WithPreset(presetGiven)).Created? {
      assert WithPreset(presetGiven) - {Preset} == WithPreset(false);
    }
  }

  /** The row the JSON fallback appends. */
  function NewRow(p: Payload, lead: LeadChoice, uuid: string): (row: Row)
    ensures row.id == Str(uuid) && row.title == p.title && row.date == p.date
    ensures Truthy(lead.display) ==> row.lead == lead.display
    ensures IsNumber(row.bosses)
    ensures !IsNullish(p.presetId) ==> row.presetId == p.presetId
    ensures row.channelId == Undefined && row.messageId == Undefined
  {
    Blank.(id := Str(uuid), title := p.title, difficulty := p.difficulty, lootType := p.lootType,
           date := p.date, lead := Coalesce(lead.display, Null), bosses := ToBosses(p),
           presetId := Coalesce(p.presetId, Null))
  }

  /**
   * The record the database answers a create with: the keys of the attempt
   * `sent` that succeeded, under the new id. The preset id column holds the
   * body's preset id when the preset relation was connected, and its
   * default null when it was not.
   */
  function CreatedRow(p: Payload, lead: LeadChoice, sent: set<Field>, id: int): (row: Row)
    ensures row.id == Num(id) && row.title == p.title && row.date == p.date
    ensures Truthy(lead.display) ==> row.lead == lead.display
    ensures Preset in sent ==> row.presetId == p.presetId
    ensures Preset !in sent ==> row.presetId == Null
  {
    NewRow(p, lead, "").(id := Num(id), presetId := if Preset in sent then p.presetId else Null)
  }

  /**
   * When the first attempt connects the preset, the created raid the route
   * answers with carries the body's preset id; after the retry without the
   * preset it carries none.
   */
  lemma CreatedReplyPreset(db: set<Field> -> DbReply, p: Payload, lead: LeadChoice)
    requires CreateAttempts(db, Truthy(p.presetId)).outcome.Created?
    ensures var run := CreateAttempts(db, Truthy(p.presetId));
      var n := ShapeForResponse(CreatedRow(p, lead, run.attempts[|run.attempts| - 1], run.outcome.id)).raid;
      && (Truthy(p.presetId) && |run.attempts| == 1 ==> n.presetId == p.presetId)
      && (|run.attempts| == 2 ==> n.presetId == Null)
  {
  }

  /** A row after the write-back: only the ids that were produced are set. */
  function WithIds(row: Row, channelId: Js, messageId: Js): (r: Row)
    ensures Truthy(channelId) ==> r.channelId == channelId
    ensures !Truthy(channelId) ==> r.channelId == row.channelId
    ensures Truthy(messageId) ==> r.messageId == messageId
    ensures !Truthy(messageId) ==> r.messageId == row.messageId
    ensures r.(channelId := row.channelId, messageId := row.messageId) == row
  {
    row.(channelId := if Truthy(channelId) then channelId else row.channelId,
         messageId := if Truthy(messageId) then messageId else row.messageId)
  }

  /**
   * The JSON write-back after the announcement: the row with the new raid's
   * id gets the channel and message ids that are set, nothing else changes.
   */
  method WriteBackIds(store: JsonRaids, createdId: Js, channelId: Js, messageId: Js)
    modifies store
    ensures IndexById(old(store.rows), createdId).None? ==> store.rows == old(store.rows)
    ensures IndexById(old(store.rows), createdId).Some? ==>
      var i := IndexById(old(store.rows), createdId).value;
      store.rows == old(store.rows)[i := WithIds(old(store.rows)[i], channelId, messageId)]
  {
    var idx := IndexById(store.rows, createdId);
    if idx.Some? {
      store.Put(idx.value, WithIds(store.rows[idx.value], channelId, messageId));
    }
  }

  datatype CreateReply = Forbidden | Invalid(failure: Failure) | Failed(reply: DbReply) | Done(raid: Shaped)

  /** The HTTP status of a create reply (a failed create is a 500). */
  function CreateStatus(r: CreateReply): nat
  {
    match r
    case Forbidden => 403
    case Invalid(f) => f.status
    case Failed(_) => 500
    case Done(_) => 200
  }

  predicate FreshId(rows: seq<Row>, uuid: string)
  {
    forall j :: 0 <= j < |rows| ==> rows[j].id != Str(uuid)
  }

  /**
   * `createCore`. `db` is the database model when there is one (its rows
   * are not part of the JSON store); `announced` holds the channel and
   * message ids the announcement returned, None when it threw.
   */
  method CreateCore(
    store: JsonRaids, cfg: Config, u: Option<User>, p: Payload, server: map<string, string>,
    db: Option<set<Field> -> DbReply>, uuid: string, announced: Option<(Js, Js)>)
    returns (r: CreateReply)
    modifies store
    ensures !UserCanCreate(cfg, u) ==> r == Forbidden
    ensures UserCanCreate(cfg, u) && Validate(p, false).Err? ==> r == Invalid(Validate(p, false).error)
    ensures r.Forbidden? || r.Invalid? || db.Some? ==> store.rows == old(store.rows)
    ensures r.Invalid? ==> CreateStatus(r) == 400
    ensures UserCanCreate(cfg, u) && Validate(p, false).Ok? && db.Some? ==>
      && var outcome := CreateAttempts(db.value, Truthy(p.presetId)).outcome;
      && var sent := CreateAttempts(db.value, Truthy(p.presetId)).attempts[|CreateAttempts(db.value, Truthy(p.presetId)).attempts| - 1];
      && (outcome.Created? ==> r == Done(ShapeForResponse(CreatedRow(p, ResolveLeadForCreate(cfg, u, p, server), sent, outcome.id))))
      && (!outcome.Created? ==> r == Failed(outcome))
    ensures UserCanCreate(cfg, u) && Validate(p, false).Ok? && db.None? ==>
      && var row := NewRow(p, ResolveLeadForCreate(cfg, u, p, server), uuid);
      && r == Done(ShapeForResponse(row))
      && |store.rows| == |old(store.rows)| + 1
      && (FreshId(old(store.rows), uuid) ==>
            store.rows == old(store.rows) +
              [if announced.Some? && (Truthy(announced.value.0) || Truthy(announced.value.1)) && uuid != ""
               then WithIds(row, announced.value.0, announced.value.1) else row])
  {
    if !UserCanCreate(cfg, u) {
      return Forbidden;
    }
    var v := Validate(p, false);
    if v.Err? {
      return Invalid(v.error);
    }
    var lead := ResolveLeadForCreate(cfg, u, p, server);
    if db.Some? {
      var run := CreateAttempts(db.value, Truthy(p.presetId));
      if !run.outcome.Created? {
        return Failed(run.outcome);
      }
      return Done(ShapeForResponse(CreatedRow(p, lead, run.attempts[|run.attempts| - 1], run.outcome.id)));
    }
    var row := NewRow(p, lead, uuid);
    AppendAnnounced(store, row, uuid, announced);
    return Done(ShapeForResponse(row));
  }

  /** The JSON fallback of `createCore`: append the new row, then write the announcement's ids back to it. */
  method AppendAnnounced(store: JsonRaids, row: Row, uuid: string, announced: Option<(Js, Js)>)
    requires row.id == Str(uuid)
    modifies store
    ensures |store.rows| == |old(store.rows)| + 1
    ensures FreshId(old(store.rows), uuid) ==>
      store.rows == old(store.rows) +
        [if announced.Some? && (Truthy(announced.value.0) || Truthy(announced.value.1)) && uuid != ""
         then WithIds(row, announced.value.0, announced.value.1) else row]
  {
    store.Push(row);
    if announced.Some? && (Truthy(announced.value.0) || Truthy(announced.value.1)) && uuid != "" {
      WriteBackIds(store, Str(uuid), announced.value.0, announced.value.1);
      if FreshId(old(store.rows), uuid) {
        IndexOfAppended(old(store.rows), row, uuid);
      }
    }
  }

  // ---------------------------------------------------------------------
  // Deleting a raid

  datatype DeleteReply = DeleteForbidden | BadId | NotFound | Deleted(id: Js)

  /**
   * `DELETE /:id`: only a creator may delete; the id must be a finite
   * number; with a database model the row is deleted there, otherwise the
   * first JSON row whose printed id equals the parameter is spliced out.
   */
  method DeleteRaid(store: JsonRaids, cfg: Config, u: Option<User>, param: string, hasModel: bool)
    returns (r: DeleteReply)
    modifies store
    ensures !UserCanCreate(cfg, u) ==> r == DeleteForbidden
    ensures UserCanCreate(cfg, u) && NumberOf(param).NotANumber? ==> r == BadId
    ensures UserCanCreate(cfg, u) && NumberOf(param).Finite? && hasModel ==> r == Deleted(Num(NumberOf(param).v))
    ensures !r.Deleted? || hasModel ==> store.rows == old(store.rows)
    ensures UserCanCreate(cfg, u) && NumberOf(param).Finite? && !hasModel ==>
      match IndexByText(old(store.rows), param)
      case None => r == NotFound
      case Some(i) =>
        && r == Deleted(Coalesce(old(store.rows)[i].id, Null))
        && store.rows == old(store.rows)[..i] + old(store.rows)[i + 1..]
  {
    if !UserCanCreate(cfg, u) {
      return DeleteForbidden;
    }
    var idNum := NumberOf(param);
    if idNum.NotANumber? {
      return BadId;
    }
    if hasModel {
      return Deleted(Num(idNum.v));
    }
    r := SpliceByText(store, param);
  }

  /** The JSON path of `DELETE /:id`: splice out the first row whose printed id is the parameter. */
  method SpliceByText(store: JsonRaids, param: string) returns (r: DeleteReply)
    modifies store
    ensures !r.Deleted? ==> store.rows == old(store.rows)
    ensures match IndexByText(old(store.rows), param)
      case None => r == NotFound
      case Some(i) =>
        && r == Deleted(Coalesce(old(store.rows)[i].id, Null))
        && store.rows == old(store.rows)[..i] + old(store.rows)[i + 1..]
  {
    var idx := IndexByText(store.rows, param);
    if idx.None? {
      return NotFound;
    }
    var removed := store.Splice(idx.value);
    return Deleted(Coalesce(removed.id, Null));
  }

  predicate IsLowerHex(c: char)
  {
    '0' <= c <= '9' || 'a' <= c <= 'f'
  }

  /** The shape of `crypto.randomUUID()`: 36 characters, dashes at 8, 13, 18 and 23, lower-case hex digits elsewhere. */
  predicate UuidShaped(s: string)
  {
    |s| == 36 && forall i :: 0 <= i < 36 ==> if i == 8 || i == 13 || i == 18 || i == 23 then s[i] == '-' else IsLowerHex(s[i])
  }

  /**
   * A raid created in the JSON store carries a UUID, which `Number` reads
   * as NaN, so `DELETE /:id` answers BAD_ID for it before the store is
   * consulted: such a raid cannot be deleted.
   */
  lemma UuidIsBadId(uuid: string)
    requires UuidShaped(uuid)
    ensures NumberOf(uuid).NotANumber?
  {
    assert IsLowerHex(uuid[0]) && IsLowerHex(uuid[35]);
    NumberOfInnerDash(uuid, 8);
  }

  /** Deleting from the JSON store removes exactly the matching row and keeps the rest in order. */
  lemma DeleteKeepsOthers(rows: seq<Row>, param: string)
    requires IndexByText(rows, param).Some?
    ensures var i := IndexByText(rows, param).value;
      && |rows[..i] + rows[i + 1..]| == |rows| - 1
      && (forall j :: 0 <= j < |rows| && j != i ==> rows[j] in rows[..i] + rows[i + 1..])
      && multiset(rows[..i] + rows[i + 1..]) + multiset{rows[i]} == multiset(rows)
  {
    RemoveAt(rows, IndexByText(rows, param).value);
  }

  /** Cutting element `i` out of a sequence keeps every other element, once each. */
  lemma RemoveAt<T>(s: seq<T>, i: nat)
    requires i < |s|
    ensures |s[..i] + s[i + 1..]| == |s| - 1
    ensures forall j :: 0 <= j < |s| && j != i ==> s[j] in s[..i] + s[i + 1..]
    ensures multiset(s[..i] + s[i + 1..]) + multiset{s[i]} == multiset(s)
  {
    var rest := s[..i] + s[i + 1..];
    assert s == s[..i] + [s[i]] + s[i + 1..];
    forall j | 0 <= j < |s| && j != i
      ensures s[j] in rest
    {
      if j < i {
        assert s[j] == rest[j];
      } else {
        assert s[j] == rest[j - 1];
      }
    }
  }
}
