/**
 * The in-memory store of data.js: a raid list, a character list and one
 * counter from which `newId` hands out prefixed identifiers.
 */
module Data {
  import opened Common

  /** `${prefix}${n}`, with the prefix defaulting to "r". */
  function CounterId(prefix: Option<string>, n: nat): (id: string)
    ensures var p := if prefix.Some? then prefix.value else "r";
      StartsWith(id, p) && id[|p|..] == NatToString(n)
  {
    (if prefix.Some? then prefix.value else "r") + NatToString(n)
  }

  predicate NoDigits(s: string)
  {
    forall i :: 0 <= i < |s| ==> !IsDigit(s[i])
  }

  /**
   * Identifiers from different counter values never coincide, whatever
   * prefixes they carry, as long as the prefixes hold no digit.
   */
  lemma IdsDistinct(p: Option<string>, q: Option<string>, a: nat, b: nat)
    requires p.Some? ==> NoDigits(p.value)
    requires q.Some? ==> NoDigits(q.value)
    requires CounterId(p, a) == CounterId(q, b)
    ensures a == b && (if p.Some? then p.value else "r") == (if q.Some? then q.value else "r")
  {
    var x := if p.Some? then p.value else "r";
    var y := if q.Some? then q.value else "r";
    var s := CounterId(p, a);
    var da, db := NatToString(a), NatToString(b);
    assert s == x + da && s == y + db;
    if |x| < |y| {
      CharOfLeft(y, db, |y| - 1);
    } else if |y| < |x| {
      CharOfLeft(x, da, |x| - 1);
    }
    assert x == s[..|x|] == y;
    assert da == s[|x|..] == db;
    NatToStringInjective(a, b);
  }

  lemma CharOfLeft(a: string, b: string, k: nat)
    requires k < |a|
    ensures (a + b)[k] == a[k]
  {
  }

  /** The store: the raid and character lists are opaque records here; the counter is the point. */
  class Db {
    var raids: seq<Js>
    var characters: seq<Js>
    var nextId: nat
    /** The counter values handed out so far. */
    ghost var issued: set<nat>

    ghost predicate Valid()
      reads this
    {
      nextId >= 1 && forall n :: n in issued ==> 1 <= n < nextId
    }

    /** `{ raids: [], characters: [], nextId: 1 }` */
    constructor ()
      ensures Valid()
      ensures raids == [] && characters == [] && nextId == 1 && issued == {}
    {
      raids := [];
      characters := [];
      nextId := 1;
      issued := {};
    }

    /** `newId(prefix)`: the prefix and the counter's current value; the counter moves on by one. */
    method NewId(prefix: Option<string>) returns (id: string)
      requires Valid()
      modifies this
      ensures Valid()
      ensures id == CounterId(prefix, old(nextId))
      ensures old(nextId) !in old(issued) && issued == old(issued) + {old(nextId)}
      ensures nextId == old(nextId) + 1
      ensures raids == old(raids) && characters == old(characters)
    {
      id := (if prefix.Some? then prefix.value else "r") + NatToString(nextId);
      issued := issued + {nextId};
      nextId := nextId + 1;
    }

    /** Two calls in a row give different identifiers, even with different digit-free prefixes. */
    method NewIdTwice(p: Option<string>, q: Option<string>) returns (a: string, b: string)
      requires Valid()
      requires p.Some? ==> NoDigits(p.value)
      requires q.Some? ==> NoDigits(q.value)
      modifies this
      ensures Valid() && nextId == old(nextId) + 2
      ensures a != b
    {
      ghost var n := nextId;
      a := NewId(p);
      b := NewId(q);
      if a == b {
        IdsDistinct(p, q, n, n + 1);
      }
    }
  }
}
