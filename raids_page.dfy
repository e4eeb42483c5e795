/**
 * The raid creation form (pages/Raids.jsx): which loot types each
 * difficulty offers, how the form's state moves with each input, and the
 * body a submission sends to the raid router. Rendering and the list of
 * existing raids are not part of this model.
 */
module RaidsPage {
  import opened Common
  import RaidPayload

  /** The difficulties the select offers. */
  const Diffs: seq<string> := ["Normal", "Heroic", "Mythic"]

  /** `LOOT_BY_DIFF[d] || []` */
  function LootByDiff(d: string): (r: seq<string>)
    ensures d == "Mythic" ==> r == ["VIP"]
    ensures d == "Normal" || d == "Heroic" ==> r == ["Unsaved", "VIP", "Saved"]
    ensures d !in Diffs ==> r == []
  {
    if d == "Normal" || d == "Heroic" then ["Unsaved", "VIP", "Saved"]
    else if d == "Mythic" then ["VIP"]
    else []
  }

  /** Every offered difficulty allows VIP, and only Mythic allows nothing else. */
  lemma LootPolicy(d: string)
    requires d in Diffs
    ensures "VIP" in LootByDiff(d)
    ensures ("Saved" in LootByDiff(d)) <==> d != "Mythic"
    ensures ("Unsaved" in LootByDiff(d)) <==> d != "Mythic"
  {
  }

  /** The form's state. */
  datatype Form = Form(title: string, difficulty: string, lootType: string, bosses: int, date: string, lead: string)

  const Initial: Form := Form("", "Heroic", "VIP", 8, "", "")

  /** The inputs the form reacts to. */
  datatype Event =
    | SetTitle(title: string)
    | SetLead(lead: string)
    | SetDifficulty(difficulty: string)
    | SetLoot(lootType: string)
    | SetBosses(n: NumVal)
    | SetDate(date: string)
    | LeadsLoaded(ids: seq<string>)

  /** The difficulty select: the loot type resets to the first one the new difficulty allows. */
  function ChangeDifficulty(f: Form, d: string): (g: Form)
    ensures g.difficulty == d
    ensures d in Diffs ==> g.lootType == LootByDiff(d)[0] && g.lootType in LootByDiff(d)
    ensures d !in Diffs ==> g.lootType == "VIP"
    ensures g.(difficulty := f.difficulty, lootType := f.lootType) == f
  {
    var opts := LootByDiff(d);
    var loot := if opts != [] && opts[0] != "" then opts[0] else "VIP";
    f.(difficulty := d, lootType := loot)
  }

  /** How each input changes the form. */
  function Step(f: Form, e: Event): (g: Form)
    ensures e.SetDifficulty? ==> g == ChangeDifficulty(f, e.difficulty)
    ensures !e.SetDifficulty? && !e.SetLoot? ==> g.difficulty == f.difficulty && g.lootType == f.lootType
  {
    match e
    case SetTitle(t) => f.(title := t)
    case SetLead(l) => f.(lead := l)
    case SetDifficulty(d) => ChangeDifficulty(f, d)
    case SetLoot(l) => f.(lootType := l)
    // `Number(e.target.value) || 0`
    case SetBosses(n) => f.(bosses := if n.Finite? then n.v else 0)
    case SetDate(s) => f.(date := s)
    // the first loaded lead is preselected, since the form's lead is empty when loading starts
    case LeadsLoaded(ids) => if ids != [] then f.(lead := ids[0]) else f
  }

  /** An input the page can actually produce: the selects only offer their options. */
  predicate Offered(f: Form, e: Event)
  {
    match e
    case SetDifficulty(d) => d in Diffs
    case SetLoot(l) => l in LootByDiff(f.difficulty)
    case _ => true
  }

  /** The loot type is one the difficulty allows. */
  predicate LootAllowed(f: Form)
  {
    f.lootType in LootByDiff(f.difficulty)
  }

  /** The initial form is consistent, and every offered input keeps it so. */
  lemma StepKeepsLootAllowed(f: Form, e: Event)
    requires LootAllowed(f) && Offered(f, e)
    ensures LootAllowed(Step(f, e))
    ensures LootAllowed(Initial)
  {
  }

  /** So does any run of offered inputs from the initial form. */
  lemma {:induction false} RunKeepsLootAllowed(f: Form, es: seq<Event>)
    requires LootAllowed(f)
    requires forall i :: 0 <= i < |es| ==> Offered(Run(f, es[..i]), es[i])
    ensures LootAllowed(Run(f, es))
    decreases |es|
  {
    if es != [] {
      var k := |es| - 1;
      assert es[..k][..k] == es[..k];
      forall i | 0 <= i < k ensures Offered(Run(f, es[..k][..i]), es[..k][i]) {
        assert es[..k][..i] == es[..i];
      }
      RunKeepsLootAllowed(f, es[..k]);
      assert es == es[..k] + [es[k]];
      StepKeepsLootAllowed(Run(f, es[..k]), es[k]);
    }
  }

  /** The form after a run of inputs. */
  function Run(f: Form, es: seq<Event>): (g: Form)
    ensures es == [] ==> g == f
    decreases |es|
  {
    if es == [] then f else Step(Run(f, es[..|es| - 1]), es[|es| - 1])
  }

  /** The body `submit` sends. */
  datatype Payload = Payload(title: string, difficulty: string, lootType: string, bosses: Option<int>, date: Option<string>, lead: string)

  /** The submit button is disabled while busy or without a lead. */
  predicate CanSubmit(busy: bool, f: Form)
  {
    !busy && f.lead != ""
  }

  /** `form.title?.trim() || \`${difficulty} ${lootType}\`` */
  function TitleOf(f: Form): (t: string)
    ensures Trim(f.title) != "" ==> t == Trim(f.title)
    ensures Trim(f.title) == "" ==> t == f.difficulty + " " + f.lootType
    ensures t != ""
  {
    if Trim(f.title) != "" then Trim(f.title) else f.difficulty + " " + f.lootType
  }

  /**
   * `submit`: nothing when the button is disabled; otherwise the body, or
   * the error `new Date(...).toISOString()` throws for an invalid date.
   * `iso` is that conversion, None for an invalid date.
   */
  function Submit(busy: bool, f: Form, iso: string -> Option<string>): (r: Option<Result<Payload, string>>)
    ensures r.None? <==> !CanSubmit(busy, f)
    ensures r.Some? && r.value.Err? <==> CanSubmit(busy, f) && f.date != "" && iso(f.date).None?
    ensures r.Some? && r.value.Err? ==> r.value.error == "Invalid time value"
    ensures r.Some? && r.value.Ok? ==> var p := r.value.value;
      && p.lead == f.lead && p.lead != ""
      && p.title == TitleOf(f) && p.difficulty == f.difficulty && p.lootType == f.lootType
      && (p.bosses.None? <==> f.bosses == 0) && (p.bosses.Some? ==> p.bosses.value == f.bosses)
      && (p.date.None? <==> f.date == "")
  {
    if !CanSubmit(busy, f) then None
    else if f.date != "" && iso(f.date).None? then Some(Err("Invalid time value"))
    else
      var date := if f.date != "" then iso(f.date) else None;
      Some(Ok(Payload(TitleOf(f), f.difficulty, f.lootType, if f.bosses != 0 then Some(f.bosses) else None, date, f.lead)))
  }

  /** The body as the raid router reads it. */
  function AsRequest(p: Payload): (q: RaidPayload.Payload)
    ensures q.title == Str(p.title) && q.lead == Str(p.lead)
    ensures q.date == (if p.date.Some? then Str(p.date.value) else Null)
  {
    RaidPayload.Payload(
      Str(p.title), Str(p.difficulty), Str(p.lootType),
      if p.date.Some? then Str(p.date.value) else Null,
      if p.bosses.Some? then Num(p.bosses.value) else Null,
      Undefined, Str(p.lead), Undefined, Undefined)
  }

  /**
   * A submission from a form whose difficulty was picked from the select
   * passes the router's checks (the lead check included) exactly when a
   * date was entered.
   */
  lemma SubmissionValidates(busy: bool, f: Form, iso: string -> Option<string>)
    requires f.difficulty in Diffs && LootAllowed(f)
    requires Submit(busy, f, iso).Some? && Submit(busy, f, iso).value.Ok?
    requires f.date != "" ==> iso(f.date).value != ""
    ensures var q := AsRequest(Submit(busy, f, iso).value.value);
      RaidPayload.Validate(q, true).Ok? <==> f.date != ""
  {
    var p := Submit(busy, f, iso).value.value;
    var q := AsRequest(p);
    assert f.lootType != "";
    assert Truthy(q.title) && Truthy(q.difficulty) && Truthy(q.lootType) && Truthy(q.lead);
    assert RaidPayload.Validate(q, true).Ok? <==> RaidPayload.Complete(q, true);
  }
}
