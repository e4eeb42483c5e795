/**
 * Sorting with a comparison, as `Array.prototype.sort` is used by the
 * lead lists: the result is ordered and holds the same elements.
 */
module Order {
  /** A comparison under which any two elements are ordered one way or the other. */
  ghost predicate Total<T(!new)>(le: (T, T) -> bool)
  {
    forall a, b :: le(a, b) || le(b, a)
  }

  /** Every element is ordered before its successor. */
  predicate Sorted<T>(s: seq<T>, le: (T, T) -> bool)
  {
    forall i :: 0 <= i < |s| - 1 ==> le(s[i], s[i + 1])
  }

  function Insert<T(!new)>(x: T, s: seq<T>, le: (T, T) -> bool): (r: seq<T>)
    requires Total(le) && Sorted(s, le)
    ensures Sorted(r, le)
    ensures multiset(r) == multiset(s) + multiset{x}
    ensures |r| == |s| + 1 && (r[0] == x || (s != [] && r[0] == s[0]))
  {
    if s == [] || le(x, s[0]) then [x] + s
    else
      var t := Insert(x, s[1..], le);
      assert s == [s[0]] + s[1..];
      [s[0]] + t
  }

  /** Insertion sort: `arr.sort(cmp)` for a consistent comparison. */
  function SortBy<T(!new)>(s: seq<T>, le: (T, T) -> bool): (r: seq<T>)
    requires Total(le)
    ensures Sorted(r, le)
    ensures multiset(r) == multiset(s)
  {
    if s == [] then []
    else
      assert s == [s[0]] + s[1..];
      Insert(s[0], SortBy(s[1..], le), le)
  }

  /** A comparison that chains: `a` before `b` before `c` puts `a` before `c`. */
  ghost predicate Transitive<T(!new)>(le: (T, T) -> bool)
  {
    forall a, b, c :: Chains(le, a, b, c)
  }

  predicate Chains<T>(le: (T, T) -> bool, a: T, b: T, c: T)
  {
    le(a, b) && le(b, c) ==> le(a, c)
  }

  /** `[a]` when the comparison cannot tell `a` apart from `x`, else nothing. */
  function PeerOf<T>(a: T, le: (T, T) -> bool, x: T): seq<T>
  {
    if le(a, x) && le(x, a) then [a] else []
  }

  /** The elements of `s` the comparison cannot tell apart from `x`, in their order in `s`. */
  function Peers<T>(s: seq<T>, le: (T, T) -> bool, x: T): seq<T>
  {
    if s == [] then [] else PeerOf(s[0], le, x) + Peers(s[1..], le, x)
  }

  /** An element `y` is not ordered before cannot compare equal to a peer `x` of `y`. */
  lemma NotBefore<T(!new)>(y: T, x: T, z: T, le: (T, T) -> bool)
    requires Transitive(le) && le(y, x) && !le(y, z)
    ensures !(le(x, z) && le(z, x))
  {
    assert Chains(le, y, x, z);
  }

  lemma SwapAroundEmpty<T>(a: seq<T>, b: seq<T>, rest: seq<T>)
    requires a == [] || b == []
    ensures a + (b + rest) == b + (a + rest)
  {
    if a == [] {
      assert [] + (b + rest) == b + rest == b + ([] + rest);
    } else {
      assert a + ([] + rest) == a + rest == [] + (a + rest);
    }
  }

  /** Inserting `y` puts it ahead of every element that compares equal to it. */
  lemma {:induction false} InsertPeers<T(!new)>(y: T, t: seq<T>, le: (T, T) -> bool, x: T)
    requires Total(le) && Transitive(le) && Sorted(t, le)
    ensures Peers(Insert(y, t, le), le, x) == PeerOf(y, le, x) + Peers(t, le, x)
  {
    if t == [] || le(y, t[0]) {
      assert Insert(y, t, le) == [y] + t;
      assert ([y] + t)[1..] == t;
    } else {
      var r := Insert(y, t[1..], le);
      var rest := Peers(t[1..], le, x);
      assert Peers(Insert(y, t, le), le, x) == PeerOf(t[0], le, x) + Peers(r, le, x) by {
        assert Insert(y, t, le) == [t[0]] + r;
        assert ([t[0]] + r)[1..] == r;
      }
      assert Peers(r, le, x) == PeerOf(y, le, x) + rest by {
        InsertPeers(y, t[1..], le, x);
      }
      assert PeerOf(t[0], le, x) == [] || PeerOf(y, le, x) == [] by {
        if le(y, x) && le(x, y) {
          NotBefore(y, x, t[0], le);
        }
      }
      SwapAroundEmpty(PeerOf(t[0], le, x), PeerOf(y, le, x), rest);
    }
  }

  /** `SortBy` is stable: elements that compare equal keep their input order. */
  lemma {:induction false} SortByStable<T(!new)>(s: seq<T>, le: (T, T) -> bool, x: T)
    requires Total(le) && Transitive(le)
    ensures Peers(SortBy(s, le), le, x) == Peers(s, le, x)
  {
    if s != [] {
      SortByStable(s[1..], le, x);
      InsertPeers(s[0], SortBy(s[1..], le), le, x);
    }
  }

  /** Sequences holding the same multiset hold the same elements. */
  lemma SameElements<T>(a: seq<T>, b: seq<T>)
    requires multiset(a) == multiset(b)
    ensures forall x :: x in a <==> x in b
  {
    assert forall x :: x in a <==> x in multiset(a);
    assert forall x :: x in b <==> x in multiset(b);
  }
}
