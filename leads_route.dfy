/**
 * The lead list (routes/leads.js): the guild members who may lead a raid,
 * each shown once, owner first, then admins, then raid leads, each rank in
 * name order.
 */
module LeadsRoute {
  import opened Common
  import Order

  /** A Discord user as the members endpoint returns it. */
  datatype DUser = DUser(
    id: string, bot: bool, username: Option<string>, globalName: Option<string>,
    avatar: Option<string>, discriminator: Option<string>)

  /** A guild member; `roles` is None when the key is not an array. */
  datatype DMember = DMember(user: Option<DUser>, nick: Option<string>, roles: Option<seq<string>>)

  /** The configured admin and raid-lead role ids ("" when unset). */
  datatype LeadRoles = LeadRoles(admin: string, raidlead: string)

  /** `member?.nick || u.global_name || u.username || u.id || "Unknown"` */
  function DisplayNameFor(m: DMember): (r: string)
    ensures r != ""
    ensures NonEmpty(m.nick) ==> r == m.nick.value
    ensures !NonEmpty(m.nick) && m.user.Some? && NonEmpty(m.user.value.globalName) ==> r == m.user.value.globalName.value
    ensures !NonEmpty(m.nick) && m.user.Some? && !NonEmpty(m.user.value.globalName) && NonEmpty(m.user.value.username)
      ==> r == m.user.value.username.value
    ensures !NonEmpty(m.nick) && m.user.Some? && !NonEmpty(m.user.value.globalName) && !NonEmpty(m.user.value.username)
      ==> r == (if m.user.value.id != "" then m.user.value.id else "Unknown")
    ensures !NonEmpty(m.nick) && m.user.None? ==> r == "Unknown"
  {
    if NonEmpty(m.nick) then m.nick.value
    else if m.user.None? then "Unknown"
    else
      var u := m.user.value;
      if NonEmpty(u.globalName) then u.globalName.value
      else if NonEmpty(u.username) then u.username.value
      else if u.id != "" then u.id
      else "Unknown"
  }

  function RolesOf(m: DMember): seq<string>
  {
    if m.roles.Some? then m.roles.value else []
  }

  /** `!!(roleId && roles.includes(roleId))` */
  function HasRole(m: DMember, roleId: string): (r: bool)
    ensures r <==> roleId != "" && roleId in RolesOf(m)
    ensures roleId == "" ==> !r
  {
    roleId != "" && roleId in RolesOf(m)
  }

  /** `isOwner`, against the cached owner id (None until it is known). */
  function IsOwner(ownerId: Option<string>, m: DMember): (r: bool)
    ensures r ==> m.user.Some? && m.user.value.id != "" && ownerId == Some(m.user.value.id)
    ensures m.user.Some? && m.user.value.id != "" && ownerId == Some(m.user.value.id) ==> r
  {
    NonEmpty(ownerId) && m.user.Some? && m.user.value.id != "" && m.user.value.id == ownerId.value
  }

  /** The guild owner's id, fetched once and kept. */
  class OwnerCache {
    var ownerId: Option<string>

    constructor ()
      ensures ownerId == None
    {
      ownerId := None;
    }

    /**
     * `if (!OWNER_ID) await fetchGuildOwnerIdViaBot()`: `fetched` is the
     * guild's `owner_id` when the request succeeded, None otherwise.
     */
    method Load(fetched: Option<Option<string>>)
      modifies this
      ensures NonEmpty(old(ownerId)) ==> ownerId == old(ownerId)
      ensures !NonEmpty(old(ownerId)) && fetched.Some? ==> ownerId == (if NonEmpty(fetched.value) then fetched.value else None)
      ensures !NonEmpty(old(ownerId)) && fetched.None? ==> ownerId == old(ownerId)
    {
      if !NonEmpty(ownerId) {
        if fetched.Some? {
          ownerId := if NonEmpty(fetched.value) then fetched.value else None;
        }
      }
    }
  }

  const CDN := "https://cdn.discordapp.com/"

  /** JavaScript's `%`, whose result takes the sign of the dividend. */
  function JsRem(a: int, b: nat): (r: int)
    requires b > 0
    ensures a >= 0 ==> r == a % b && 0 <= r < b
    ensures a < 0 ==> -(b as int) < r <= 0
  {
    if a >= 0 then a % b else -((-a) % b)
  }

  /** The file name of the default avatar: `Number(discriminator || 0) % 5`. */
  function DefaultAvatarIndex(discriminator: Option<string>): (r: string)
    ensures !NonEmpty(discriminator) ==> r == "0"
    ensures NonEmpty(discriminator) && NumberOf(discriminator.value).Finite? && NumberOf(discriminator.value).v >= 0
      ==> r == NatToString(NumberOf(discriminator.value).v % 5)
    ensures NonEmpty(discriminator) && NumberOf(discriminator.value).NotANumber? ==> r == "NaN"
  {
    if !NonEmpty(discriminator) then "0"
    else match NumberOf(discriminator.value)
      case NotANumber => "NaN"
      case Finite(v) => IntToString(JsRem(v, 5))
  }

  /** `avatarUrlFor`: an animated hash ("a_…") is served as a gif. */
  function AvatarUrlFor(u: DUser): (r: string)
    ensures NonEmpty(u.avatar) ==> r == CDN + "avatars/" + u.id + "/" + u.avatar.value + "." + AvatarFormat(u.avatar.value) + "?size=128"
    ensures !NonEmpty(u.avatar) ==> r == CDN + "embed/avatars/" + DefaultAvatarIndex(u.discriminator) + ".png"
  {
    if NonEmpty(u.avatar) then CDN + "avatars/" + u.id + "/" + u.avatar.value + "." + AvatarFormat(u.avatar.value) + "?size=128"
    else CDN + "embed/avatars/" + DefaultAvatarIndex(u.discriminator) + ".png"
  }

  function AvatarFormat(hash: string): (r: string)
    ensures r == "gif" <==> StartsWith(hash, "a_")
    ensures r == "gif" || r == "png"
  {
    if StartsWith(hash, "a_") then "gif" else "png"
  }

  /** A default avatar index of a non-negative discriminator is one of the five default images. */
  lemma DefaultAvatarInRange(d: string)
    requires d != "" && NumberOf(d).Finite? && NumberOf(d).v >= 0
    ensures DefaultAvatarIndex(Some(d)) in {"0", "1", "2", "3", "4"}
  {
    var k := NumberOf(d).v % 5;
    assert k == 0 || k == 1 || k == 2 || k == 3 || k == 4;
  }

  // ---------------------------------------------------------------------
  // The pipeline of GET /

  /** One entry of the list. */
  datatype Lead = Lead(
    id: string, displayName: string, username: Option<string>, roles: seq<string>,
    isOwner: bool, isAdmin: bool, isRaidlead: bool, avatarUrl: string)

  /** The filter: a human member who is the owner, an admin or a raid lead. */
  predicate Qualifies(ownerId: Option<string>, ids: LeadRoles, m: DMember)
  {
    && m.user.Some?
    && !m.user.value.bot
    && (IsOwner(ownerId, m) || HasRole(m, ids.admin) || HasRole(m, ids.raidlead))
  }

  function FilterMembers(ownerId: Option<string>, ids: LeadRoles, ms: seq<DMember>): (r: seq<DMember>)
    ensures forall i :: 0 <= i < |r| ==> r[i] in ms && Qualifies(ownerId, ids, r[i])
    ensures forall i :: 0 <= i < |ms| && Qualifies(ownerId, ids, ms[i]) ==> ms[i] in r
  {
    if ms == [] then []
    else if Qualifies(ownerId, ids, ms[0]) then [ms[0]] + FilterMembers(ownerId, ids, ms[1..])
    else FilterMembers(ownerId, ids, ms[1..])
  }

  /** The map: the owner counts as an admin, an admin as a raid lead. */
  function ToLead(ownerId: Option<string>, ids: LeadRoles, m: DMember): (l: Lead)
    requires m.user.Some?
    ensures l.id == m.user.value.id && l.displayName == DisplayNameFor(m)
    ensures l.isOwner <==> IsOwner(ownerId, m)
    ensures l.isAdmin <==> IsOwner(ownerId, m) || HasRole(m, ids.admin)
    ensures l.isRaidlead <==> IsOwner(ownerId, m) || HasRole(m, ids.admin) || HasRole(m, ids.raidlead)
    ensures l.isOwner ==> l.isAdmin
    ensures l.isAdmin ==> l.isRaidlead
  {
    var owner := IsOwner(ownerId, m);
    Lead(
      m.user.value.id, DisplayNameFor(m), m.user.value.username, RolesOf(m),
      owner, owner || HasRole(m, ids.admin), owner || HasRole(m, ids.admin) || HasRole(m, ids.raidlead),
      AvatarUrlFor(m.user.value))
  }

  function MapLeads(ownerId: Option<string>, ids: LeadRoles, ms: seq<DMember>): (r: seq<Lead>)
    requires forall i :: 0 <= i < |ms| ==> ms[i].user.Some?
    ensures |r| == |ms|
    ensures forall i :: 0 <= i < |ms| ==> r[i] == ToLead(ownerId, ids, ms[i])
  {
    if ms == [] then [] else [ToLead(ownerId, ids, ms[0])] + MapLeads(ownerId, ids, ms[1..])
  }

  /** The ids of a list of entries. */
  function Ids(s: seq<Lead>): set<string>
  {
    set l | l in s :: l.id
  }

  /** The first entry with an id. */
  function FirstWithId(s: seq<Lead>, id: string): (r: Option<Lead>)
    ensures r.Some? ==> r.value in s && r.value.id == id
    ensures r.None? <==> id !in Ids(s)
  {
    if s == [] then None
    else if s[0].id == id then Some(s[0])
    else FirstWithId(s[1..], id)
  }

  /** No two entries share an id. */
  predicate UniqueIds(s: seq<Lead>)
  {
    forall i, j :: 0 <= i < j < |s| ==> s[i].id != s[j].id
  }

  /**
   * The reduce step by step: an entry is appended unless the accumulator
   * already holds its id.
   */
  function DedupInto(acc: seq<Lead>, s: seq<Lead>): (r: seq<Lead>)
    requires UniqueIds(acc)
    ensures UniqueIds(r)
    ensures |acc| <= |r| && r[..|acc|] == acc
    ensures Ids(r) == Ids(acc) + Ids(s)
    ensures forall k :: |acc| <= k < |r| ==> r[k].id !in Ids(acc) && FirstWithId(s, r[k].id) == Some(r[k])
    decreases |s|
  {
    if s == [] then acc
    else
      var acc' := if s[0].id in Ids(acc) then acc else acc + [s[0]];
      AddIfNew(acc, s[0]);
      var r := DedupInto(acc', s[1..]);
      DedupRound(acc, s, acc', r);
      r
  }

  /** Appending an entry whose id is new keeps the ids unique and adds that id. */
  lemma AddIfNew(acc: seq<Lead>, x: Lead)
    requires UniqueIds(acc)
    ensures var acc' := if x.id in Ids(acc) then acc else acc + [x];
      UniqueIds(acc') && Ids(acc') == Ids(acc) + {x.id}
  {
    if x.id !in Ids(acc) {
      var acc' := acc + [x];
      assert forall l :: l in acc' <==> l in acc || l == x;
      forall i | 0 <= i < |acc|
        ensures acc[i].id != x.id
      {
        assert acc[i] in acc;
      }
    }
  }

  /** One round of `DedupInto`: what holds for the rest carries back to `acc` and `s`. */
  lemma DedupRound(acc: seq<Lead>, s: seq<Lead>, acc': seq<Lead>, r: seq<Lead>)
    requires s != [] && acc' == (if s[0].id in Ids(acc) then acc else acc + [s[0]])
    requires Ids(acc') == Ids(acc) + {s[0].id}
    requires |acc'| <= |r| && r[..|acc'|] == acc'
    requires Ids(r) == Ids(acc') + Ids(s[1..])
    requires forall k :: |acc'| <= k < |r| ==> r[k].id !in Ids(acc') && FirstWithId(s[1..], r[k].id) == Some(r[k])
    ensures |acc| <= |r| && r[..|acc|] == acc
    ensures Ids(r) == Ids(acc) + Ids(s)
    ensures forall k :: |acc| <= k < |r| ==> r[k].id !in Ids(acc) && FirstWithId(s, r[k].id) == Some(r[k])
  {
    var x := s[0];
    assert acc'[..|acc|] == acc;
    assert r[..|acc|] == acc'[..|acc|];
    assert Ids(s) == {x.id} + Ids(s[1..]) by {
      assert forall l :: l in s <==> l == x || l in s[1..];
    }
    forall k | |acc| <= k < |r|
      ensures r[k].id !in Ids(acc) && FirstWithId(s, r[k].id) == Some(r[k])
    {
      DedupRoundAt(acc, s, acc', r, k);
    }
  }

  lemma DedupRoundAt(acc: seq<Lead>, s: seq<Lead>, acc': seq<Lead>, r: seq<Lead>, k: nat)
    requires s != [] && acc' == (if s[0].id in Ids(acc) then acc else acc + [s[0]])
    requires Ids(acc') == Ids(acc) + {s[0].id}
    requires |acc'| <= |r| && r[..|acc'|] == acc'
    requires |acc| <= k < |r|
    requires k >= |acc'| ==> r[k].id !in Ids(acc') && FirstWithId(s[1..], r[k].id) == Some(r[k])
    ensures r[k].id !in Ids(acc) && FirstWithId(s, r[k].id) == Some(r[k])
  {
    if k < |acc'| {
      assert acc' == acc + [s[0]] && k == |acc|;
      assert r[k] == acc'[k] == s[0];
    } else {
      assert r[k].id != s[0].id;
    }
  }


  function Dedup(s: seq<Lead>): (r: seq<Lead>)
    ensures UniqueIds(r)
    ensures Ids(r) == Ids(s)
    ensures forall l :: l in r ==> FirstWithId(s, l.id) == Some(l)
  {
    var r := DedupInto([], s);
    forall l | l in r
      ensures FirstWithId(s, l.id) == Some(l)
    {
      var k :| 0 <= k < |r| && r[k] == l;
    }
    r
  }

  /** `acc.some((x) => x.id === id)` */
  method AnyWithId(acc: seq<Lead>, id: string) returns (seen: bool)
    ensures seen <==> id in Ids(acc)
  {
    seen := false;
    var j := 0;
    while j < |acc|
      invariant 0 <= j <= |acc|
      invariant seen <==> id in Ids(acc[..j])
    {
      assert acc[..j + 1] == acc[..j] + [acc[j]];
      if acc[j].id == id {
        seen := true;
      }
      j := j + 1;
    }
    assert acc[..|acc|] == acc;
  }

  /** One step of the reduce. */
  lemma DedupStep(acc: seq<Lead>, s: seq<Lead>, i: nat)
    requires i < |s| && UniqueIds(acc)
    ensures var acc' := if s[i].id in Ids(acc) then acc else acc + [s[i]];
      UniqueIds(acc') && DedupInto(acc, s[i..]) == DedupInto(acc', s[i + 1..])
  {
    AddIfNew(acc, s[i]);
    assert s[i..][0] == s[i] && s[i..][1..] == s[i + 1..];
  }

  /** `.reduce((acc, u) => { if (!acc.some(x => x.id === u.id)) acc.push(u); return acc; }, [])` */
  method DedupLoop(s: seq<Lead>) returns (acc: seq<Lead>)
    ensures acc == Dedup(s)
  {
    acc := [];
    var i := 0;
    while i < |s|
      invariant 0 <= i <= |s|
      invariant UniqueIds(acc)
      invariant DedupInto(acc, s[i..]) == DedupInto([], s)
    {
      var u := s[i];
      var seen := AnyWithId(acc, u.id);
      DedupStep(acc, s, i);
      if !seen {
        acc := acc + [u];
      }
      i := i + 1;
    }
    assert s[i..] == [];
  }

  /** Owner 3, admin 2, raid lead 1. */
  function Rank(l: Lead): nat
  {
    if l.isOwner then 3 else if l.isAdmin then 2 else if l.isRaidlead then 1 else 0
  }

  /** The sort comparison: higher rank first, then name order. */
  predicate LeadLe(a: Lead, b: Lead)
  {
    Rank(a) > Rank(b) || (Rank(a) == Rank(b) && StrLe(a.displayName, b.displayName))
  }

  lemma LeadLeTotal()
    ensures Order.Total(LeadLe)
  {
    forall a: Lead, b: Lead
      ensures LeadLe(a, b) || LeadLe(b, a)
    {
      StrLeTotal(a.displayName, b.displayName);
    }
  }

  /** The list GET / answers with: qualified members as leads, first of each id kept, sorted by name. */
  function Listed(ownerId: Option<string>, ids: LeadRoles, members: seq<DMember>): (r: seq<Lead>)
    ensures Order.Sorted(r, LeadLe)
    ensures multiset(r) == multiset(Dedup(MapLeads(ownerId, ids, FilterMembers(ownerId, ids, members))))
    ensures forall x :: Order.Peers(r, LeadLe, x) == Order.Peers(Dedup(MapLeads(ownerId, ids, FilterMembers(ownerId, ids, members))), LeadLe, x)
  {
    var unique := Dedup(MapLeads(ownerId, ids, FilterMembers(ownerId, ids, members)));
    LeadLeTotal();
    LeadLeTransitive();
    var r := Order.SortBy(unique, LeadLe);
    assert forall x :: Order.Peers(r, LeadLe, x) == Order.Peers(unique, LeadLe, x) by {
      forall x ensures Order.Peers(r, LeadLe, x) == Order.Peers(unique, LeadLe, x) {
        Order.SortByStable(unique, LeadLe, x);
      }
    }
    r
  }

  lemma LeadLeTransitive()
    ensures Order.Transitive(LeadLe)
  {
    forall a: Lead, b: Lead, c: Lead ensures Order.Chains(LeadLe, a, b, c) {
      StrLeTransitive(a.displayName, b.displayName, c.displayName);
    }
  }

  /** The whole of GET /: filter, map, remove repeated ids, sort. */
  method LeadList(ownerId: Option<string>, ids: LeadRoles, members: seq<DMember>) returns (leads: seq<Lead>)
    ensures leads == Listed(ownerId, ids, members)
    ensures Order.Sorted(leads, LeadLe)
    ensures UniqueIds(leads)
    ensures forall l :: l in leads ==> exists m :: m in members && Qualifies(ownerId, ids, m) && l == ToLead(ownerId, ids, m)
    ensures forall i :: 0 <= i < |members| && Qualifies(ownerId, ids, members[i]) ==> members[i].user.value.id in Ids(leads)
    ensures forall l :: l in leads ==> l.isOwner ==> l.isAdmin
    ensures forall l :: l in leads ==> l.isAdmin ==> l.isRaidlead
  {
    var qualified := FilterMembers(ownerId, ids, members);
    var mapped := MapLeads(ownerId, ids, qualified);
    var unique := DedupLoop(mapped);
    LeadLeTotal();
    leads := Order.SortBy(unique, LeadLe);
    PermutationKeepsUniqueIds(unique, leads);
    assert forall l :: l in leads ==> l in mapped by {
      forall l | l in leads ensures l in mapped {
        assert l in multiset(unique);
      }
    }
    LeadsComeFromMembers(ownerId, ids, members, qualified, mapped, leads);
    QualifiedMembersListed(ownerId, ids, members, qualified, mapped, unique, leads);
  }

  lemma LeadsComeFromMembers(ownerId: Option<string>, ids: LeadRoles, members: seq<DMember>,
    qualified: seq<DMember>, mapped: seq<Lead>, leads: seq<Lead>)
    requires qualified == FilterMembers(ownerId, ids, members)
    requires mapped == MapLeads(ownerId, ids, qualified)
    requires forall l :: l in leads ==> l in mapped
    ensures forall l :: l in leads ==> exists m :: m in members && Qualifies(ownerId, ids, m) && l == ToLead(ownerId, ids, m)
  {
    forall l | l in leads
      ensures exists m :: m in members && Qualifies(ownerId, ids, m) && l == ToLead(ownerId, ids, m)
    {
      var k :| 0 <= k < |mapped| && mapped[k] == l;
      assert qualified[k] in members;
    }
  }

  lemma QualifiedMembersListed(ownerId: Option<string>, ids: LeadRoles, members: seq<DMember>,
    qualified: seq<DMember>, mapped: seq<Lead>, unique: seq<Lead>, leads: seq<Lead>)
    requires qualified == FilterMembers(ownerId, ids, members)
    requires mapped == MapLeads(ownerId, ids, qualified)
    requires Ids(unique) == Ids(mapped)
    requires multiset(leads) == multiset(unique)
    ensures forall i :: 0 <= i < |members| && Qualifies(ownerId, ids, members[i]) ==> members[i].user.value.id in Ids(leads)
  {
    IdsOfPermutation(unique, leads);
    forall i | 0 <= i < |members| && Qualifies(ownerId, ids, members[i])
      ensures members[i].user.value.id in Ids(mapped)
    {
      MappedId(ownerId, ids, qualified, mapped, members[i]);
    }
  }

  /** A qualified member's id is among the mapped entries' ids. */
  lemma MappedId(ownerId: Option<string>, ids: LeadRoles, qualified: seq<DMember>, mapped: seq<Lead>, m: DMember)
    requires forall i :: 0 <= i < |qualified| ==> qualified[i].user.Some?
    requires mapped == MapLeads(ownerId, ids, qualified)
    requires m in qualified
    ensures m.user.value.id in Ids(mapped)
  {
    var k :| 0 <= k < |qualified| && qualified[k] == m;
    assert mapped[k] == ToLead(ownerId, ids, m);
    assert mapped[k] in mapped;
  }

  /** Reordering keeps the set of ids. */
  lemma IdsOfPermutation(a: seq<Lead>, b: seq<Lead>)
    requires multiset(a) == multiset(b)
    ensures Ids(a) == Ids(b)
  {
    forall l | l in a ensures l in b { assert l in multiset(a); }
    forall l | l in b ensures l in a { assert l in multiset(b); }
  }


  /** A reordering of a list without repeated ids has no repeated ids. */
  lemma PermutationKeepsUniqueIds(a: seq<Lead>, b: seq<Lead>)
    requires multiset(a) == multiset(b)
    requires UniqueIds(a)
    ensures UniqueIds(b)
  {
    forall i, j | 0 <= i < j < |b|
      ensures b[i].id != b[j].id
    {
      if b[i].id == b[j].id {
        var x, y := b[i], b[j];
        assert x in multiset(a) && y in multiset(a);
        var p :| 0 <= p < |a| && a[p] == x;
        var q :| 0 <= q < |a| && a[q] == y;
        assert p == q;
        assert x == y;
        TwiceCounted(b, i, j);
        TwiceCounted0(a, p);
        assert false;
      }
    }
  }

  /** An element at two positions is counted at least twice. */
  lemma TwiceCounted(s: seq<Lead>, i: nat, j: nat)
    requires i < j < |s| && s[i] == s[j]
    ensures multiset(s)[s[i]] >= 2
  {
    assert s == s[..j] + [s[j]] + s[j + 1..];
    assert s[i] in s[..j];
  }

  /** In a list without repeated ids, an element occurs once. */
  lemma TwiceCounted0(s: seq<Lead>, p: nat)
    requires p < |s| && UniqueIds(s)
    ensures multiset(s)[s[p]] == 1
  {
    assert s == s[..p] + [s[p]] + s[p + 1..];
    assert s[p] !in s[..p];
    assert s[p] !in s[p + 1..];
  }

  /** In a sorted list, rank never rises, and equal ranks are in name order. */
  lemma SortedByRankThenName(s: seq<Lead>, i: nat)
    requires Order.Sorted(s, LeadLe) && i + 1 < |s|
    ensures Rank(s[i]) >= Rank(s[i + 1])
    ensures Rank(s[i]) == Rank(s[i + 1]) ==> StrLe(s[i].displayName, s[i + 1].displayName)
  {
  }
}
