/**
 * The booster-character store of routes/chars.js: creating or updating a
 * character by (user, name, realm) with the missing details filled from a
 * Raider.IO lookup, importing a list of characters, and the `/mine` pass
 * that refreshes the progress and fills the details still missing.
 *
 * The Raider.IO lookup is a parameter `fetch(region, realm, name)`; URL
 * normalisation (`cleanUrl`) and the float parsing of the score
 * (`toFloatOrNull`) happen before the values reach this model.
 */
module CharsStore {
  import opened Common
  import opened CharsKeys

  /** A stored BoosterChar; a None detail is null in the database. */
  datatype CharRow = CharRow(
    id: nat, userId: string, name: string, realm: string,
    cls: Option<string>, spec: Option<string>, rioScore: Option<real>,
    progress: Option<string>, itemLevel: Option<int>, wclUrl: Option<string>)

  /** What the Raider.IO lookup gives (every detail but the log link null when it fails). */
  datatype ExtMeta = ExtMeta(
    itemLevel: Option<int>, progress: Option<string>, className: Option<string>,
    specName: Option<string>, rioScore: Option<real>, wclUrl: Option<string>)

  /**
   * An imported character as posted. `urls` holds `cleanUrl` of the keys
   * wclUrl, warcraftlogs, warcraftlogsUrl and logsUrl, in that order;
   * `rioScore` is `toFloatOrNull(payload.rioScore)`.
   */
  datatype Payload = Payload(
    name: Js, realm: Js, region: Js, progress: Js,
    itemLevel: Js, itemlevel: Js, ilvl: Js,
    urls: seq<Option<string>>, charClass: Js, cls: Js, spec: Js, rioScore: Option<real>)

  /** The six details an upsert writes. */
  datatype Details = Details(
    progress: Option<string>, itemLevel: Option<int>, wclUrl: Option<string>,
    className: Option<string>, specName: Option<string>, rioScore: Option<real>)

  /** `a ?? b ?? …`: the first present value. */
  function FirstPresent<T(==)>(xs: seq<Option<T>>): (r: Option<T>)
    ensures r.Some? ==> r in xs
    ensures r.None? <==> forall i :: 0 <= i < |xs| ==> xs[i].None?
    ensures r.Some? ==> exists i :: 0 <= i < |xs| && xs[i] == r && forall j :: 0 <= j < i ==> xs[j].None?
  {
    if xs == [] then None
    else if xs[0].Some? then
      assert xs[0] == xs[0];
      xs[0]
    else
      var r := FirstPresent(xs[1..]);
      assert forall i :: 1 <= i < |xs| ==> xs[1..][i - 1] == xs[i];
      if r.Some? then
        var i :| 0 <= i < |xs[1..]| && xs[1..][i] == r && forall j :: 0 <= j < i ==> xs[1..][j].None?;
        assert xs[i + 1] == r;
        r
      else r
  }

  /** An item level is truthy unless it is null or 0. */
  predicate LevelTruthy(x: Option<int>)
  {
    x.Some? && x.value != 0
  }

  /** The details the payload itself carries, cleaned. */
  function FromPayload(p: Payload): Details
  {
    Details(
      CleanStr(p.progress),
      FirstPresent([ToIntOrNull(p.itemLevel), ToIntOrNull(p.itemlevel), ToIntOrNull(p.ilvl)]),
      FirstPresent(p.urls),
      CleanStr(Coalesce(p.charClass, p.cls)),
      CleanStr(p.spec),
      p.rioScore)
  }

  /** Whether any detail is falsy, or the score null, so that the lookup runs. */
  predicate NeedsLookup(d: Details)
  {
    || !NonEmpty(d.progress) || !LevelTruthy(d.itemLevel) || !NonEmpty(d.wclUrl)
    || !NonEmpty(d.className) || !NonEmpty(d.specName) || d.rioScore.None?
  }

  /** `x = x || ext.x` for the texts and the item level, `rioScore ?? ext.rioScore` for the score. */
  function Fill(d: Details, ext: ExtMeta): (r: Details)
    ensures NonEmpty(d.progress) ==> r.progress == d.progress
    ensures !NonEmpty(d.progress) ==> r.progress == ext.progress
    ensures LevelTruthy(d.itemLevel) ==> r.itemLevel == d.itemLevel
    ensures !LevelTruthy(d.itemLevel) ==> r.itemLevel == ext.itemLevel
    ensures NonEmpty(d.wclUrl) ==> r.wclUrl == d.wclUrl
    ensures !NonEmpty(d.wclUrl) ==> r.wclUrl == ext.wclUrl
    ensures NonEmpty(d.className) ==> r.className == d.className
    ensures !NonEmpty(d.className) ==> r.className == ext.className
    ensures NonEmpty(d.specName) ==> r.specName == d.specName
    ensures !NonEmpty(d.specName) ==> r.specName == ext.specName
    ensures d.rioScore.Some? ==> r.rioScore == d.rioScore
    ensures d.rioScore.None? ==> r.rioScore == ext.rioScore
  {
    Details(
      OrStr(d.progress, ext.progress),
      if LevelTruthy(d.itemLevel) then d.itemLevel else ext.itemLevel,
      OrStr(d.wclUrl, ext.wclUrl),
      OrStr(d.className, ext.className),
      OrStr(d.specName, ext.specName),
      if d.rioScore.Some? then d.rioScore else ext.rioScore)
  }

  /** `cleanStr(payload.region) || "eu"` */
  function Region(p: Payload): (r: string)
    ensures r != ""
    ensures CleanStr(p.region).None? ==> r == "eu"
    ensures CleanStr(p.region).Some? ==> r == CleanStr(p.region).value
  {
    var c := CleanStr(p.region);
    if c.Some? then c.value else "eu"
  }

  /** The details an upsert writes: the payload's, completed by one lookup when any is missing. */
  function Settled(p: Payload, name: string, realm: string, fetch: (string, string, string) -> ExtMeta): (d: Details)
    ensures !NeedsLookup(FromPayload(p)) ==> d == FromPayload(p)
    ensures NeedsLookup(FromPayload(p)) ==> d == Fill(FromPayload(p), fetch(Region(p), realm, name))
  {
    var d := FromPayload(p);
    if NeedsLookup(d) then Fill(d, fetch(Region(p), realm, name)) else d
  }

  /** A payload item level of 0 counts as missing: the lookup's value replaces it, even a null one. */
  lemma ZeroLevelReplaced(p: Payload, name: string, realm: string, fetch: (string, string, string) -> ExtMeta)
    requires FromPayload(p).itemLevel == Some(0)
    ensures Settled(p, name, realm, fetch).itemLevel == fetch(Region(p), realm, name).itemLevel
  {
  }

  /** A payload that carries every detail is written as it is, without a lookup. */
  lemma CompletePayloadKept(p: Payload, name: string, realm: string, f1: (string, string, string) -> ExtMeta, f2: (string, string, string) -> ExtMeta)
    requires !NeedsLookup(FromPayload(p))
    ensures Settled(p, name, realm, f1) == Settled(p, name, realm, f2) == FromPayload(p)
  {
  }

  // ---------------------------------------------------------------------
  // Rows

  /** The row `create` writes; an unset detail is null. */
  function NewRow(id: nat, userId: string, name: string, realm: string, d: Details): (r: CharRow)
    ensures r.id == id && r.userId == userId && r.name == name && r.realm == realm
    ensures r.progress == d.progress && r.itemLevel == d.itemLevel && r.wclUrl == d.wclUrl
    ensures r.cls == d.className && r.spec == d.specName && r.rioScore == d.rioScore
  {
    CharRow(id, userId, name, realm, d.className, d.specName, d.rioScore, d.progress, d.itemLevel, d.wclUrl)
  }

  /** `x ?? undefined` in an update: a null detail leaves the stored one as it is. */
  function Keep<T>(stored: Option<T>, given: Option<T>): (r: Option<T>)
    ensures given.Some? ==> r == given
    ensures given.None? ==> r == stored
  {
    if given.Some? then given else stored
  }

  /** The row `update` leaves: identity unchanged, each given detail written. */
  function Merge(c: CharRow, d: Details): (r: CharRow)
    ensures r.id == c.id && r.userId == c.userId && r.name == c.name && r.realm == c.realm
    ensures r.progress == Keep(c.progress, d.progress) && r.itemLevel == Keep(c.itemLevel, d.itemLevel)
    ensures r.wclUrl == Keep(c.wclUrl, d.wclUrl) && r.cls == Keep(c.cls, d.className)
    ensures r.spec == Keep(c.spec, d.specName) && r.rioScore == Keep(c.rioScore, d.rioScore)
  {
    c.(cls := Keep(c.cls, d.className), spec := Keep(c.spec, d.specName), rioScore := Keep(c.rioScore, d.rioScore),
       progress := Keep(c.progress, d.progress), itemLevel := Keep(c.itemLevel, d.itemLevel), wclUrl := Keep(c.wclUrl, d.wclUrl))
  }

  predicate HasKey(c: CharRow, userId: string, name: string, realm: string)
  {
    c.userId == userId && c.name == name && c.realm == realm
  }

  /** `findChar`: the first row with the key. */
  function KeyIndex(rows: seq<CharRow>, userId: string, name: string, realm: string): (r: Option<nat>)
    ensures r.Some? ==> r.value < |rows| && HasKey(rows[r.value], userId, name, realm)
    ensures r.Some? ==> forall i :: 0 <= i < r.value ==> !HasKey(rows[i], userId, name, realm)
    ensures r.None? <==> forall i :: 0 <= i < |rows| ==> !HasKey(rows[i], userId, name, realm)
  {
    if rows == [] then None
    else if HasKey(rows[0], userId, name, realm) then Some(0)
    else match KeyIndex(rows[1..], userId, name, realm)
      case None =>
        assert forall i :: 1 <= i < |rows| ==> rows[i] == rows[1..][i - 1];
        None
      case Some(k) => Some(k + 1)
  }

  /** At most one row per (user, name, realm), and distinct ids below the next one. */
  predicate StoreValid(rows: seq<CharRow>, nextId: nat)
  {
    && (forall i, j :: 0 <= i < j < |rows| ==> !HasKey(rows[j], rows[i].userId, rows[i].name, rows[i].realm))
    && (forall i :: 0 <= i < |rows| ==> rows[i].id < nextId)
    && (forall i, j :: 0 <= i < j < |rows| ==> rows[i].id != rows[j].id)
  }

  /** The store after one upsert and the answer `{ row, created }` or the 400 error. */
  datatype Upserted = Upserted(rows: seq<CharRow>, nextId: nat, res: Result<(CharRow, bool), string>)

  /** The upsert rewrote row `i`, which has the key, in place and kept its id. */
  predicate RewroteAt(rows: seq<CharRow>, u: Upserted, i: int, userId: string, name: string, realm: string)
    requires u.res.Ok?
  {
    && 0 <= i < |rows|
    && HasKey(rows[i], userId, name, realm)
    && u.rows == rows[i := u.res.value.0]
    && u.res.value.0.id == rows[i].id
  }

  /**
   * Writing `d` under the key: the row that has the key is updated in place,
   * and only when there is none is a row created, with the next id.
   */
  function SaveRows(rows: seq<CharRow>, nextId: nat, userId: string, name: string, realm: string, d: Details): (u: Upserted)
    ensures u.res.Ok? && HasKey(u.res.value.0, userId, name, realm)
    ensures u.res.value.1 <==> KeyIndex(rows, userId, name, realm).None?
    ensures u.res.value.1 ==> u.rows == rows + [u.res.value.0] && u.res.value.0.id == nextId && u.nextId == nextId + 1
    ensures !u.res.value.1 ==> u.nextId == nextId && exists i :: RewroteAt(rows, u, i, userId, name, realm)
  {
    match KeyIndex(rows, userId, name, realm)
    case Some(i) =>
      var row := Merge(rows[i], d);
      var u := Upserted(rows[i := row], nextId, Ok((row, false)));
      assert RewroteAt(rows, u, i, userId, name, realm);
      u
    case None =>
      var row := NewRow(nextId, userId, name, realm, d);
      Upserted(rows + [row], nextId + 1, Ok((row, true)))
  }

  /** Saving keeps the store valid: still one row per key and fresh ids. */
  lemma SaveKeepsStoreValid(rows: seq<CharRow>, nextId: nat, userId: string, name: string, realm: string, d: Details)
    requires StoreValid(rows, nextId)
    ensures var u := SaveRows(rows, nextId, userId, name, realm, d); StoreValid(u.rows, u.nextId)
  {
    var u := SaveRows(rows, nextId, userId, name, realm, d);
    if u.res.value.1 {
      assert forall i :: 0 <= i < |rows| ==> !HasKey(rows[i], userId, name, realm);
    } else {
      var i :| RewroteAt(rows, u, i, userId, name, realm);
      assert forall j :: 0 <= j < |rows| ==> HasKey(u.rows[j], rows[j].userId, rows[j].name, rows[j].realm);
    }
  }

  /** Saving under the same key twice updates the second time and adds no row. */
  lemma SaveTwiceUpdates(rows: seq<CharRow>, nextId: nat, userId: string, name: string, realm: string, d: Details)
    ensures var u := SaveRows(rows, nextId, userId, name, realm, d);
      var v := SaveRows(u.rows, u.nextId, userId, name, realm, d);
      !v.res.value.1 && |v.rows| == |u.rows| && v.nextId == u.nextId
  {
    var u := SaveRows(rows, nextId, userId, name, realm, d);
    if u.res.value.1 {
      assert HasKey(u.rows[|rows|], userId, name, realm);
    } else {
      var i :| RewroteAt(rows, u, i, userId, name, realm);
      assert HasKey(u.rows[i], userId, name, realm);
    }
  }

  /** `upsertChar` on a store holding `rows`, whose next id is `nextId`. */
  function UpsertRows(rows: seq<CharRow>, nextId: nat, userId: string, p: Payload, fetch: (string, string, string) -> ExtMeta): (u: Upserted)
    ensures u.res.Err? <==> CleanStr(p.name).None? || CleanStr(p.realm).None?
    ensures u.res.Err? ==> u.res.error == "name_and_realm_required" && u.rows == rows && u.nextId == nextId
    ensures u.res.Ok? ==> u == SaveRows(rows, nextId, userId, CleanStr(p.name).value, CleanStr(p.realm).value,
                                        Settled(p, CleanStr(p.name).value, CleanStr(p.realm).value, fetch))
  {
    var name := CleanStr(p.name);
    var realm := CleanStr(p.realm);
    if name.None? || realm.None? then Upserted(rows, nextId, Err("name_and_realm_required"))
    else SaveRows(rows, nextId, userId, name.value, realm.value, Settled(p, name.value, realm.value, fetch))
  }

  /** An upsert keeps the store valid. */
  lemma UpsertKeepsStoreValid(rows: seq<CharRow>, nextId: nat, userId: string, p: Payload, fetch: (string, string, string) -> ExtMeta)
    requires StoreValid(rows, nextId)
    ensures var u := UpsertRows(rows, nextId, userId, p, fetch); StoreValid(u.rows, u.nextId)
  {
    var u := UpsertRows(rows, nextId, userId, p, fetch);
    if u.res.Ok? {
      var name, realm := CleanStr(p.name).value, CleanStr(p.realm).value;
      SaveKeepsStoreValid(rows, nextId, userId, name, realm, Settled(p, name, realm, fetch));
    }
  }

  /** An upsert answers a row of the caller, and adds a row exactly when it creates one. */
  lemma UpsertGrows(rows: seq<CharRow>, nextId: nat, userId: string, p: Payload, fetch: (string, string, string) -> ExtMeta)
    ensures var u := UpsertRows(rows, nextId, userId, p, fetch);
      u.res.Ok? ==> u.res.value.0.userId == userId && |u.rows| == |rows| + (if u.res.value.1 then 1 else 0)
  {
    var u := UpsertRows(rows, nextId, userId, p, fetch);
    if u.res.Ok? && !u.res.value.1 {
      var i :| RewroteAt(rows, u, i, userId, CleanStr(p.name).value, CleanStr(p.realm).value);
    }
  }

  /** The store and the answer of `/import` part way through: the counts and the rows answered. */
  datatype Imported = Imported(rows: seq<CharRow>, nextId: nat, imported: nat, updated: nat, out: seq<CharRow>)

  /** One answer of an upsert counted into the import so far; a rejected item changes nothing. */
  function Counted(s: Imported, u: Upserted): (r: Imported)
    ensures u.res.Err? ==> r == s
    ensures u.res.Ok? ==>
      && r.rows == u.rows && r.nextId == u.nextId && r.out == s.out + [u.res.value.0]
      && r.imported == s.imported + (if u.res.value.1 then 1 else 0)
      && r.updated == s.updated + (if u.res.value.1 then 0 else 1)
  {
    if u.res.Err? then s
    else
      Imported(u.rows, u.nextId, s.imported + (if u.res.value.1 then 1 else 0),
               s.updated + (if u.res.value.1 then 0 else 1), s.out + [u.res.value.0])
  }

  /** `/import` over `items`: the upserts in turn, left to right. */
  function ImportAll(rows: seq<CharRow>, nextId: nat, userId: string, items: seq<Payload>, fetch: (string, string, string) -> ExtMeta): (r: Imported)
    ensures r.imported + r.updated == |r.out| <= |items|
    ensures |r.rows| == |rows| + r.imported
    decreases |items|
  {
    if items == [] then Imported(rows, nextId, 0, 0, [])
    else
      var s := ImportAll(rows, nextId, userId, items[..|items| - 1], fetch);
      var u := UpsertRows(s.rows, s.nextId, userId, items[|items| - 1], fetch);
      UpsertGrows(s.rows, s.nextId, userId, items[|items| - 1], fetch);
      Counted(s, u)
  }

  /** Every row in `out` belongs to `userId`. */
  predicate OwnRows(out: seq<CharRow>, userId: string)
  {
    forall i :: 0 <= i < |out| ==> out[i].userId == userId
  }

  /** Counting an upsert that answers a row of the caller keeps every answered row the caller's. */
  lemma CountedOwnRows(s: Imported, u: Upserted, userId: string)
    requires OwnRows(s.out, userId)
    requires u.res.Ok? ==> u.res.value.0.userId == userId
    ensures OwnRows(Counted(s, u).out, userId)
  {
  }

  /** Every row an import answers belongs to the caller. */
  lemma {:induction false} ImportAnswersOwnRows(rows: seq<CharRow>, nextId: nat, userId: string, items: seq<Payload>, fetch: (string, string, string) -> ExtMeta)
    ensures OwnRows(ImportAll(rows, nextId, userId, items, fetch).out, userId)
    decreases |items|
  {
    if items != [] {
      var s := ImportAll(rows, nextId, userId, items[..|items| - 1], fetch);
      var u := UpsertRows(s.rows, s.nextId, userId, items[|items| - 1], fetch);
      ImportAnswersOwnRows(rows, nextId, userId, items[..|items| - 1], fetch);
      UpsertGrows(s.rows, s.nextId, userId, items[|items| - 1], fetch);
      CountedOwnRows(s, u, userId);
    }
  }

  /** An import keeps the store valid. */
  lemma {:induction false} ImportKeepsStoreValid(rows: seq<CharRow>, nextId: nat, userId: string, items: seq<Payload>, fetch: (string, string, string) -> ExtMeta)
    requires StoreValid(rows, nextId)
    ensures var r := ImportAll(rows, nextId, userId, items, fetch); StoreValid(r.rows, r.nextId)
    decreases |items|
  {
    if items != [] {
      var s := ImportAll(rows, nextId, userId, items[..|items| - 1], fetch);
      ImportKeepsStoreValid(rows, nextId, userId, items[..|items| - 1], fetch);
      UpsertKeepsStoreValid(s.rows, s.nextId, userId, items[|items| - 1], fetch);
    }
  }

  /** The import of one more item is one more step of the import so far. */
  lemma ImportAllSnoc(rows: seq<CharRow>, nextId: nat, userId: string, items: seq<Payload>, k: nat, fetch: (string, string, string) -> ExtMeta)
    requires k < |items|
    ensures ImportAll(rows, nextId, userId, items[..k + 1], fetch) ==
      var s := ImportAll(rows, nextId, userId, items[..k], fetch);
      Counted(s, UpsertRows(s.rows, s.nextId, userId, items[k], fetch))
  {
    var pre := items[..k + 1];
    assert pre[..|pre| - 1] == items[..k] && pre[|pre| - 1] == items[k];
  }

  /** Upserting the same character twice updates the second time and adds no row. */
  lemma UpsertTwiceUpdates(rows: seq<CharRow>, nextId: nat, userId: string, p: Payload, fetch: (string, string, string) -> ExtMeta)
    requires CleanStr(p.name).Some? && CleanStr(p.realm).Some?
    ensures var u := UpsertRows(rows, nextId, userId, p, fetch);
      var v := UpsertRows(u.rows, u.nextId, userId, p, fetch);
      v.res.Ok? && !v.res.value.1 && |v.rows| == |u.rows| && v.nextId == u.nextId
  {
    var name := CleanStr(p.name).value;
    var realm := CleanStr(p.realm).value;
    SaveTwiceUpdates(rows, nextId, userId, name, realm, Settled(p, name, realm, fetch));
  }

  // ---------------------------------------------------------------------
  // The `/mine` pass

  /** The keys `/mine` writes for one row; None means the key is absent from the patch. */
  datatype Patch = Patch(
    progress: Option<string>, itemLevel: Option<int>, wclUrl: Option<string>,
    cls: Option<string>, spec: Option<string>, rioScore: Option<real>)

  predicate EmptyPatch(p: Patch)
  {
    p.progress.None? && p.itemLevel.None? && p.wclUrl.None? && p.cls.None? && p.spec.None? && p.rioScore.None?
  }

  /** The patch for row `c` given its lookup `ext`. */
  function MinePatch(c: CharRow, ext: ExtMeta): Patch
  {
    Patch(
      if NonEmpty(ext.progress) && ext.progress != c.progress then ext.progress else None,
      if c.itemLevel.None? && ext.itemLevel.Some? then ext.itemLevel else None,
      if c.wclUrl.None? && NonEmpty(ext.wclUrl) then ext.wclUrl else None,
      if c.cls.None? && NonEmpty(ext.className) then ext.className else None,
      if c.spec.None? && NonEmpty(ext.specName) then ext.specName else None,
      if c.rioScore.None? && ext.rioScore.Some? then ext.rioScore else None)
  }

  /** `Object.assign(c, updated)`: the patched keys replace the row's. */
  function ApplyPatch(c: CharRow, p: Patch): (r: CharRow)
    ensures r.id == c.id && r.userId == c.userId && r.name == c.name && r.realm == c.realm
    ensures EmptyPatch(p) ==> r == c
  {
    c.(progress := Keep(c.progress, p.progress), itemLevel := Keep(c.itemLevel, p.itemLevel),
       wclUrl := Keep(c.wclUrl, p.wclUrl), cls := Keep(c.cls, p.cls), spec := Keep(c.spec, p.spec),
       rioScore := Keep(c.rioScore, p.rioScore))
  }

  /** `/mine` on one row: the patch applied when it has any key. */
  function Refreshed(c: CharRow, ext: ExtMeta): CharRow
  {
    var p := MinePatch(c, ext);
    if EmptyPatch(p) then c else ApplyPatch(c, p)
  }

  /**
   * The `/mine` rule: the progress follows the lookup whenever it has one;
   * every other detail is only filled in where the row has none.
   */
  lemma RefreshRule(c: CharRow, ext: ExtMeta)
    ensures var r := Refreshed(c, ext);
      && r.id == c.id && r.userId == c.userId && r.name == c.name && r.realm == c.realm
      && r.progress == (if NonEmpty(ext.progress) then ext.progress else c.progress)
      && (c.itemLevel.Some? ==> r.itemLevel == c.itemLevel)
      && (c.itemLevel.None? ==> r.itemLevel == ext.itemLevel)
      && (c.wclUrl.Some? ==> r.wclUrl == c.wclUrl)
      && (c.wclUrl.None? && NonEmpty(ext.wclUrl) ==> r.wclUrl == ext.wclUrl)
      && (c.cls.Some? ==> r.cls == c.cls)
      && (c.cls.None? && NonEmpty(ext.className) ==> r.cls == ext.className)
      && (c.spec.Some? ==> r.spec == c.spec)
      && (c.spec.None? && NonEmpty(ext.specName) ==> r.spec == ext.specName)
      && (c.rioScore.Some? ==> r.rioScore == c.rioScore)
      && (c.rioScore.None? ==> r.rioScore == ext.rioScore)
  {
  }

  /** A second pass with the same lookup finds nothing to patch. */
  lemma RefreshSettles(c: CharRow, ext: ExtMeta)
    ensures EmptyPatch(MinePatch(Refreshed(c, ext), ext))
    ensures Refreshed(Refreshed(c, ext), ext) == Refreshed(c, ext)
  {
  }

  /** The lookup `/mine` runs for a row: region "eu", the row's realm and name. */
  function MineLookup(c: CharRow, fetch: (string, string, string) -> ExtMeta): ExtMeta
  {
    fetch("eu", c.realm, c.name)
  }

  /** `/mine` over the whole store: the user's rows refreshed, every other row untouched. */
  function MineRows(rows: seq<CharRow>, userId: string, fetch: (string, string, string) -> ExtMeta): (r: seq<CharRow>)
    ensures |r| == |rows|
    ensures forall i :: 0 <= i < |rows| && rows[i].userId != userId ==> r[i] == rows[i]
    ensures forall i :: 0 <= i < |rows| && rows[i].userId == userId ==> r[i] == Refreshed(rows[i], MineLookup(rows[i], fetch))
  {
    if rows == [] then []
    else
      var c := rows[0];
      var head := if c.userId == userId then Refreshed(c, MineLookup(c, fetch)) else c;
      [head] + MineRows(rows[1..], userId, fetch)
  }

  /** The rows of one user, in store order. */
  function UserRows(rows: seq<CharRow>, userId: string): (r: seq<CharRow>)
    ensures forall c :: c in r <==> c in rows && c.userId == userId
  {
    if rows == [] then []
    else
      var last := rows[|rows| - 1];
      assert rows == rows[..|rows| - 1] + [last];
      UserRows(rows[..|rows| - 1], userId) + (if last.userId == userId then [last] else [])
  }

  /** `/mine` keeps the store valid, and running it again changes nothing. */
  lemma MineKeepsStore(rows: seq<CharRow>, nextId: nat, userId: string, fetch: (string, string, string) -> ExtMeta)
    requires StoreValid(rows, nextId)
    ensures StoreValid(MineRows(rows, userId, fetch), nextId)
    ensures MineRows(MineRows(rows, userId, fetch), userId, fetch) == MineRows(rows, userId, fetch)
  {
    var once := MineRows(rows, userId, fetch);
    forall i | 0 <= i < |rows|
      ensures once[i].id == rows[i].id && HasKey(once[i], rows[i].userId, rows[i].name, rows[i].realm)
    {
      RefreshRule(rows[i], MineLookup(rows[i], fetch));
    }
    forall i | 0 <= i < |rows| && rows[i].userId == userId
      ensures Refreshed(once[i], MineLookup(once[i], fetch)) == once[i]
    {
      RefreshRule(rows[i], MineLookup(rows[i], fetch));
      RefreshSettles(rows[i], MineLookup(rows[i], fetch));
    }
  }

  // ---------------------------------------------------------------------
  // The store

  /** The BoosterChar table. */
  class CharStore {
    var rows: seq<CharRow>
    var nextId: nat

    ghost predicate Valid()
      reads this
    {
      StoreValid(rows, nextId)
    }

    constructor ()
      ensures rows == [] && nextId == 1 && Valid()
    {
      rows := [];
      nextId := 1;
    }

    /** `findChar(userId, name, realm)` */
    method FindChar(userId: string, name: string, realm: string) returns (idx: Option<nat>)
      ensures idx == KeyIndex(rows, userId, name, realm)
    {
      var i := 0;
      while i < |rows|
        invariant 0 <= i <= |rows|
        invariant forall j :: 0 <= j < i ==> !HasKey(rows[j], userId, name, realm)
      {
        if HasKey(rows[i], userId, name, realm) {
          return Some(i);
        }
        i := i + 1;
      }
      return None;
    }

    /** `upsertChar(userId, payload)` */
    method Upsert(userId: string, p: Payload, fetch: (string, string, string) -> ExtMeta)
      returns (res: Result<(CharRow, bool), string>)
      requires Valid()
      modifies this
      ensures Valid()
      ensures Upserted(rows, nextId, res) == UpsertRows(old(rows), old(nextId), userId, p, fetch)
      ensures res.Err? ==> rows == old(rows)
      ensures res.Ok? ==> res.value.0.userId == userId
      ensures res.Ok? ==> |rows| == |old(rows)| + (if res.value.1 then 1 else 0)
    {
      var name := CleanStr(p.name);
      var realm := CleanStr(p.realm);
      if name.None? || realm.None? {
        return Err("name_and_realm_required");
      }
      var d := Settled(p, name.value, realm.value, fetch);
      res := Save(userId, name.value, realm.value, d);
    }

    /** The find-then-update-or-create step of `upsertChar`. */
    method Save(userId: string, name: string, realm: string, d: Details) returns (res: Result<(CharRow, bool), string>)
      requires Valid()
      modifies this
      ensures Valid()
      ensures Upserted(rows, nextId, res) == SaveRows(old(rows), old(nextId), userId, name, realm, d)
    {
      SaveKeepsStoreValid(rows, nextId, userId, name, realm, d);
      var existing := FindChar(userId, name, realm);
      if existing.Some? {
        var row := Merge(rows[existing.value], d);
        rows := rows[existing.value := row];
        res := Ok((row, false));
      } else {
        var row := NewRow(nextId, userId, name, realm, d);
        rows := rows + [row];
        nextId := nextId + 1;
        res := Ok((row, true));
      }
    }

    /** `POST /import`: each item upserted in turn; an item that fails is skipped. */
    method Import(userId: string, items: seq<Payload>, fetch: (string, string, string) -> ExtMeta)
      returns (imported: nat, updated: nat, out: seq<CharRow>)
      requires Valid()
      modifies this
      ensures Valid()
      ensures Imported(rows, nextId, imported, updated, out) == ImportAll(old(rows), old(nextId), userId, items, fetch)
      ensures imported + updated == |out| <= |items|
      ensures |rows| == |old(rows)| + imported
      ensures OwnRows(out, userId)
    {
      imported, updated, out := 0, 0, [];
      var k := 0;
      while k < |items|
        invariant 0 <= k <= |items|
        invariant Valid()
        invariant Imported(rows, nextId, imported, updated, out) == ImportAll(old(rows), old(nextId), userId, items[..k], fetch)
      {
        ImportAllSnoc(old(rows), old(nextId), userId, items, k, fetch);
        imported, updated, out := ImportItem(userId, items[k], fetch, imported, updated, out);
        k := k + 1;
      }
      assert items[..k] == items;
      ImportAnswersOwnRows(old(rows), old(nextId), userId, items, fetch);
    }

    /** The counting of one item of `/import`: one more imported or updated row answered, or nothing when it was rejected. */
    static method Tally(s: Imported, u: Upserted) returns (imported: nat, updated: nat, out: seq<CharRow>)
      ensures Imported(if u.res.Ok? then u.rows else s.rows, if u.res.Ok? then u.nextId else s.nextId,
                       imported, updated, out) == Counted(s, u)
    {
      imported, updated, out := s.imported, s.updated, s.out;
      if u.res.Ok? {
        if u.res.value.1 {
          imported := imported + 1;
        } else {
          updated := updated + 1;
        }
        out := out + [u.res.value.0];
      }
    }

    /** One item of `/import`: its upsert, counted and answered when it succeeds, skipped when it is rejected. */
    method ImportItem(userId: string, p: Payload, fetch: (string, string, string) -> ExtMeta,
                      imported: nat, updated: nat, out: seq<CharRow>)
      returns (imported': nat, updated': nat, out': seq<CharRow>)
      requires Valid()
      modifies this
      ensures Valid()
      ensures Imported(rows, nextId, imported', updated', out') ==
        Counted(Imported(old(rows), old(nextId), imported, updated, out), UpsertRows(old(rows), old(nextId), userId, p, fetch))
    {
      var before := Imported(rows, nextId, imported, updated, out);
      var res := Upsert(userId, p, fetch);
      imported', updated', out' := Tally(before, Upserted(rows, nextId, res));
    }

    /** One round of `/mine`: patch row `i` when the patch has any key. */
    method RefreshAt(i: nat, ext: ExtMeta) returns (c: CharRow)
      requires i < |rows|
      modifies this
      ensures c == Refreshed(old(rows)[i], ext)
      ensures rows == old(rows)[i := c] && nextId == old(nextId)
    {
      c := rows[i];
      var patch := MinePatch(c, ext);
      if !EmptyPatch(patch) {
        c := ApplyPatch(c, patch);
        rows := rows[i := c];
      }
    }

    /** `GET /mine` with its patch pass; the answer is the user's rows after it. */
    method Mine(userId: string, fetch: (string, string, string) -> ExtMeta) returns (mine: seq<CharRow>)
      requires Valid()
      modifies this
      ensures Valid()
      ensures rows == MineRows(old(rows), userId, fetch) && nextId == old(nextId)
      ensures mine == UserRows(rows, userId)
    {
      MineKeepsStore(rows, nextId, userId, fetch);
      RefreshMine(userId, fetch);
      mine := OwnedBy(rows, userId);
    }

    /** The patch pass of `GET /mine`: each of the user's rows in turn, in store order. */
    method RefreshMine(userId: string, fetch: (string, string, string) -> ExtMeta)
      modifies this
      ensures rows == MineRows(old(rows), userId, fetch) && nextId == old(nextId)
    {
      ghost var after := MineRows(rows, userId, fetch);
      var i := 0;
      while i < |rows|
        invariant 0 <= i <= |rows| == |after| == |old(rows)|
        invariant forall j :: 0 <= j < i ==> rows[j] == after[j]
        invariant forall j :: i <= j < |rows| ==> rows[j] == old(rows)[j]
        invariant nextId == old(nextId)
      {
        var c := rows[i];
        if c.userId == userId {
          var ext := fetch("eu", c.realm, c.name);
          c := RefreshAt(i, ext);
        }
        i := i + 1;
      }
      assert rows == after;
    }

    /** The rows of one user, collected in store order. */
    static method OwnedBy(rs: seq<CharRow>, userId: string) returns (mine: seq<CharRow>)
      ensures mine == UserRows(rs, userId)
    {
      mine := [];
      var i := 0;
      while i < |rs|
        invariant 0 <= i <= |rs|
        invariant mine == UserRows(rs[..i], userId)
      {
        assert rs[..i + 1][..i] == rs[..i];
        if rs[i].userId == userId {
          mine := mine + [rs[i]];
        }
        i := i + 1;
      }
      assert rs[..i] == rs;
    }
  }
}
