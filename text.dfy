/**
 * The regular-expression rewrites the code applies to names: replacing
 * runs of a character class by one character, deleting a class, stripping
 * a character from both ends, and the two slug pipelines that several
 * files share.
 */
module Text {
  import opened Common

  /** The character classes the code's regular expressions use. */
  datatype CharClass =
    | NotLowerAlnum        // [^a-z0-9]
    | Whitespace           // \s
    | Dash                 // -
    | NotLowerAlnumOrDash  // [^a-z0-9\-]
    | NotWordWsOrDash      // [^\w\s-]

  predicate In(k: CharClass, c: char)
  {
    match k
    case NotLowerAlnum => !IsLowerAlnum(c)
    case Whitespace => IsWs(c)
    case Dash => c == '-'
    case NotLowerAlnumOrDash => !IsLowerAlnum(c) && c != '-'
    case NotWordWsOrDash => !IsWordChar(c) && !IsWs(c) && c != '-'
  }

  /** The input with its leading run of class-`k` characters removed. */
  function DropRun(s: string, k: CharClass): (t: string)
    ensures |t| <= |s| && t == s[|s| - |t|..]
    ensures t == [] || !In(k, t[0])
  {
    if s != [] && In(k, s[0]) then DropRun(s[1..], k) else s
  }

  /** `s.replace(/k+/g, r)`: every maximal run of class-`k` characters becomes one `r`. */
  function ReplaceRuns(s: string, k: CharClass, r: char): (out: string)
    ensures out == [] <==> s == []
    ensures s != [] && In(k, s[0]) ==> out[0] == r
    ensures s != [] && !In(k, s[0]) ==> out[0] == s[0]
    ensures forall i :: 0 <= i < |out| ==> out[i] == r || !In(k, out[i])
    ensures In(k, r) ==> forall i :: 0 <= i < |out| - 1 ==> !(out[i] == r && out[i + 1] == r)
    decreases |s|
  {
    if s == [] then []
    else if In(k, s[0]) then [r] + ReplaceRuns(DropRun(s[1..], k), k, r)
    else [s[0]] + ReplaceRuns(s[1..], k, r)
  }

  /** `s.replace(/k/g, "")` */
  function RemoveClass(s: string, k: CharClass): (out: string)
    ensures |out| <= |s|
    ensures forall i :: 0 <= i < |out| ==> !In(k, out[i])
  {
    if s == [] then []
    else if In(k, s[0]) then RemoveClass(s[1..], k)
    else [s[0]] + RemoveClass(s[1..], k)
  }

  /** `s.replace(/^c+|c+$/g, "")` */
  function StripChar(s: string, c: char): (out: string)
    ensures |out| <= |s|
    ensures out == [] || (out[0] != c && out[|out| - 1] != c)
    ensures exists i {:trigger s[i..]} :: 0 <= i <= |s| - |out| && s[i..][..|out|] == out
  {
    var a := DropLeading(s, c);
    var b := DropTrailing(a, c);
    assert s[|s| - |a|..][..|b|] == b;
    b
  }

  function DropLeading(s: string, c: char): (t: string)
    ensures |t| <= |s| && t == s[|s| - |t|..]
    ensures t == [] || t[0] != c
  {
    if s != [] && s[0] == c then DropLeading(s[1..], c) else s
  }

  function DropTrailing(s: string, c: char): (t: string)
    ensures |t| <= |s| && t == s[..|t|]
    ensures t == [] || t[|t| - 1] != c
  {
    if s != [] && s[|s| - 1] == c then DropTrailing(s[..|s| - 1], c) else s
  }

  /** Each occurrence of `a` replaced by `b`. */
  function MapChar(s: string, a: char, b: char): (out: string)
    ensures |out| == |s|
    ensures forall i :: 0 <= i < |s| ==> out[i] == (if s[i] == a then b else s[i])
  {
    if s == [] then [] else [if s[0] == a then b else s[0]] + MapChar(s[1..], a, b)
  }

  /** `str.slice(0, n)` for a non-negative `n`. */
  function Take(s: string, n: nat): (out: string)
    ensures |out| <= n && |out| <= |s| && out == s[..|out|]
    ensures |s| <= n ==> out == s
  {
    if |s| <= n then s else s[..n]
  }

  // ---------------------------------------------------------------------
  // Slug shapes

  /** Lower-case letters, digits and `-` only, with no doubled `-`. */
  predicate DashWords(s: string)
  {
    (forall i :: 0 <= i < |s| ==> IsLowerAlnum(s[i]) || s[i] == '-')
    && (forall i :: 0 <= i < |s| - 1 ==> !(s[i] == '-' && s[i + 1] == '-'))
  }

  /** A channel-safe slug: dash-separated words, no `-` at either end. */
  predicate SlugShaped(s: string)
  {
    DashWords(s) && (s == [] || (s[0] != '-' && s[|s| - 1] != '-'))
  }

  predicate SpaceWords(s: string)
  {
    (forall i :: 0 <= i < |s| ==> IsLowerAlnum(s[i]) || s[i] == ' ')
    && (forall i :: 0 <= i < |s| - 1 ==> !(s[i] == ' ' && s[i + 1] == ' '))
  }

  lemma InfixKeepsSpaceWords(s: string, i: nat, n: nat)
    requires SpaceWords(s) && i + n <= |s|
    ensures SpaceWords(s[i..i + n])
  {
    var t := s[i..i + n];
    forall j | 0 <= j < |t| - 1
      ensures !(t[j] == ' ' && t[j + 1] == ' ')
    {
      assert t[j] == s[i + j] && t[j + 1] == s[i + j + 1];
    }
  }

  lemma InfixKeepsDashWords(s: string, i: nat, n: nat)
    requires DashWords(s) && i + n <= |s|
    ensures DashWords(s[i..][..n])
  {
    var t := s[i..][..n];
    forall j | 0 <= j < |t| - 1
      ensures !(t[j] == '-' && t[j + 1] == '-')
    {
      assert t[j] == s[i + j] && t[j + 1] == s[i + j + 1];
    }
  }

  /** On text without doubled whitespace, replacing runs is replacing characters. */
  lemma AlnumNotWs(c: char)
    requires IsLowerAlnum(c)
    ensures !IsWs(c) && c != '-' && c != ' '
  {
  }

  lemma {:induction false} ReplaceSingleSpaces(s: string)
    requires SpaceWords(s)
    ensures ReplaceRuns(s, Whitespace, '-') == MapChar(s, ' ', '-')
    decreases |s|
  {
    if s != [] {
      var t := s[1..];
      InfixKeepsSpaceWords(s, 1, |s| - 1);
      assert s[1..|s|] == t;
      ReplaceSingleSpaces(t);
      var m := MapChar(t, ' ', '-');
      if s[0] == ' ' {
        if t != [] {
          assert t[0] == s[1];
          AlnumNotWs(t[0]);
        }
        assert DropRun(t, Whitespace) == t;
        assert ReplaceRuns(s, Whitespace, '-') == ['-'] + ReplaceRuns(t, Whitespace, '-');
        assert MapChar(s, ' ', '-') == ['-'] + m;
      } else {
        AlnumNotWs(s[0]);
        assert ReplaceRuns(s, Whitespace, '-') == [s[0]] + ReplaceRuns(t, Whitespace, '-');
        assert MapChar(s, ' ', '-') == [s[0]] + m;
      }
    }
  }

  /**
   * The slug of nameFormat.js and raidAnnounceAdapter.js: lower-case,
   * every run of characters other than `a-z0-9` becomes one space, the
   * result is trimmed, and every run of whitespace becomes `-`.
   */
  function WordSlug(s: string): (out: string)
    ensures SlugShaped(out)
  {
    var a := ReplaceRuns(Lower(s), NotLowerAlnum, ' ');
    var b := Trim(a);
    var out := ReplaceRuns(b, Whitespace, '-');
    WordSlugShaped(a, b);
    out
  }

  lemma WordSlugShaped(a: string, b: string)
    requires forall i :: 0 <= i < |a| ==> a[i] == ' ' || IsLowerAlnum(a[i])
    requires forall i :: 0 <= i < |a| - 1 ==> !(a[i] == ' ' && a[i + 1] == ' ')
    requires b == Trim(a)
    ensures SlugShaped(ReplaceRuns(b, Whitespace, '-'))
  {
    assert SpaceWords(a);
    InfixKeepsSpaceWords(a, TrimOffset(a), |b|);
    ReplaceSingleSpaces(b);
    SpaceWordsToSlug(b);
  }

  /** Single spaces between words, none at either end: turning them into `-` gives a slug. */
  lemma SpaceWordsToSlug(b: string)
    requires SpaceWords(b)
    requires b == [] || (!IsWs(b[0]) && !IsWs(b[|b| - 1]))
    ensures SlugShaped(MapChar(b, ' ', '-'))
  {
    var out := MapChar(b, ' ', '-');
    assert IsWs(' ');
    forall j | 0 <= j < |out|
      ensures IsLowerAlnum(out[j]) || out[j] == '-'
      ensures out[j] == '-' <==> b[j] == ' '
    {
      if IsLowerAlnum(b[j]) {
        AlnumNotWs(b[j]);
      }
    }
    forall j | 0 <= j < |out| - 1
      ensures !(out[j] == '-' && out[j + 1] == '-')
    {
      assert out[j] == '-' ==> b[j] == ' ';
      assert out[j + 1] == '-' ==> b[j + 1] == ' ';
    }
  }

  /**
   * The slug of channels.js and bot.js before truncation: lower-case,
   * every run of characters other than `a-z0-9` becomes `-`, and `-` is
   * stripped from both ends.
   */
  function DashSlug(s: string): (out: string)
    ensures SlugShaped(out)
  {
    var a := ReplaceRuns(Lower(s), NotLowerAlnum, '-');
    var out := StripChar(a, '-');
    DashRunsAreDashWords(Lower(s));
    var i :| 0 <= i <= |a| - |out| && a[i..][..|out|] == out;
    InfixKeepsDashWords(a, i, |out|);
    out
  }

  /** Replacing every run outside `a-z0-9` by `-` leaves dash-separated words. */
  lemma DashRunsAreDashWords(l: string)
    ensures DashWords(ReplaceRuns(l, NotLowerAlnum, '-'))
  {
    var a := ReplaceRuns(l, NotLowerAlnum, '-');
    assert In(NotLowerAlnum, '-');
    forall i | 0 <= i < |a| ensures IsLowerAlnum(a[i]) || a[i] == '-' {
      assert a[i] == '-' || !In(NotLowerAlnum, a[i]);
    }
  }

  /** Truncating a slug keeps it dash-separated words without a leading `-`. */
  lemma TakeOfSlug(s: string, n: nat)
    requires SlugShaped(s)
    ensures DashWords(Take(s, n))
    ensures Take(s, n) == [] || Take(s, n)[0] != '-'
  {
    InfixKeepsDashWords(s, 0, |Take(s, n)|);
    assert s[0..] == s;
  }

  /** Five name fields joined by `-`, as the channel names are built. */
  function JoinDashed(a: string, b: string, c: string, d: string, e: string): (r: string)
    ensures |r| == |a| + |b| + |c| + |d| + |e| + 4
    ensures StartsWith(r, a + "-" + b + "-")
    ensures EndsWith(r, "-" + e)
    ensures r[..|a|] == a && r[|a|] == '-'
    ensures r[|a| + 1..|a| + |b| + 1] == b && r[|a| + |b| + 1] == '-'
    ensures r[|a| + |b| + 2..|a| + |b| + |c| + 2] == c && r[|a| + |b| + |c| + 2] == '-'
    ensures r[|a| + |b| + |c| + 3..|a| + |b| + |c| + |d| + 3] == d && r[|a| + |b| + |c| + |d| + 3] == '-'
    ensures r[|a| + |b| + |c| + |d| + 4..] == e
  {
    var p := a + "-" + b + "-";
    var q := c + "-" + d + "-";
    var r := p + (q + e);
    assert r[..|p|] == p;
    assert r[|p|..] == q + e;
    assert r[|r| - |"-" + e|..] == "-" + e;
    r
  }

  /** The five fields joined by `-`, written out. */
  lemma JoinDashedIs(a: string, b: string, c: string, d: string, e: string)
    ensures JoinDashed(a, b, c, d, e) == a + "-" + b + "-" + c + "-" + d + "-" + e
  {
    var r := JoinDashed(a, b, c, d, e);
    var w := a + "-" + b + "-" + c + "-" + d + "-" + e;
    assert |r| == |w|;
    forall i | 0 <= i < |r|
      ensures r[i] == w[i]
    {
      if i < |a| {
        assert r[i] == r[..|a|][i];
      } else if i == |a| {
      } else if i < |a| + |b| + 1 {
        assert r[i] == r[|a| + 1..|a| + |b| + 1][i - |a| - 1];
      } else if i == |a| + |b| + 1 {
      } else if i < |a| + |b| + |c| + 2 {
        assert r[i] == r[|a| + |b| + 2..|a| + |b| + |c| + 2][i - |a| - |b| - 2];
      } else if i == |a| + |b| + |c| + 2 {
      } else if i < |a| + |b| + |c| + |d| + 3 {
        assert r[i] == r[|a| + |b| + |c| + 3..|a| + |b| + |c| + |d| + 3][i - |a| - |b| - |c| - 3];
      } else if i == |a| + |b| + |c| + |d| + 3 {
      } else {
        assert r[i] == r[|a| + |b| + |c| + |d| + 4..][i - |a| - |b| - |c| - |d| - 4];
      }
    }
  }

  /** Replacing runs of a class the text does not contain changes nothing. */
  lemma {:induction false} ReplaceRunsNoHit(s: string, k: CharClass, r: char)
    requires forall i :: 0 <= i < |s| ==> !In(k, s[i])
    ensures ReplaceRuns(s, k, r) == s
    decreases |s|
  {
    if s != [] {
      ReplaceRunsNoHit(s[1..], k, r);
      assert s == [s[0]] + s[1..];
    }
  }

  /** Text free of class `k` passes through `ReplaceRuns` unchanged, whatever follows it. */
  lemma {:induction false} ReplaceRunsPlainPrefix(w: string, t: string, k: CharClass, r: char)
    requires forall i :: 0 <= i < |w| ==> !In(k, w[i])
    ensures ReplaceRuns(w + t, k, r) == w + ReplaceRuns(t, k, r)
    decreases |w|
  {
    if w == [] {
      assert w + t == t;
    } else {
      assert (w + t)[0] == w[0] && (w + t)[1..] == w[1..] + t;
      ReplaceRunsPlainPrefix(w[1..], t, k, r);
      assert w + ReplaceRuns(t, k, r) == [w[0]] + (w[1..] + ReplaceRuns(t, k, r));
    }
  }

  /** A run of class `k` followed by text that does not start in it is dropped whole. */
  lemma {:induction false} DropRunOfRun(ws: string, t: string, k: CharClass)
    requires forall i :: 0 <= i < |ws| ==> In(k, ws[i])
    requires t == [] || !In(k, t[0])
    ensures DropRun(ws + t, k) == t
    decreases |ws|
  {
    if ws == [] {
      assert ws + t == t;
    } else {
      assert (ws + t)[0] == ws[0] && (ws + t)[1..] == ws[1..] + t;
      DropRunOfRun(ws[1..], t, k);
    }
  }

  /** A maximal run of class-`k` characters, however long, becomes one `r`. */
  lemma ReplaceRunsRun(ws: string, t: string, k: CharClass, r: char)
    requires ws != [] && forall i :: 0 <= i < |ws| ==> In(k, ws[i])
    requires t == [] || !In(k, t[0])
    ensures ReplaceRuns(ws + t, k, r) == [r] + ReplaceRuns(t, k, r)
  {
    assert (ws + t)[0] == ws[0] && (ws + t)[1..] == ws[1..] + t;
    DropRunOfRun(ws[1..], t, k);
  }

  /**
   * What `s.replace(/k+/g, r)` means, one step at a time: a class-free word
   * is kept, the maximal run after it becomes one `r`, and the rest is
   * rewritten the same way.
   */
  lemma ReplaceRunsSplit(w: string, ws: string, t: string, k: CharClass, r: char)
    requires forall i :: 0 <= i < |w| ==> !In(k, w[i])
    requires ws != [] && forall i :: 0 <= i < |ws| ==> In(k, ws[i])
    requires t == [] || !In(k, t[0])
    ensures ReplaceRuns(w + ws + t, k, r) == w + [r] + ReplaceRuns(t, k, r)
  {
    assert w + ws + t == w + (ws + t);
    ReplaceRunsPlainPrefix(w, ws + t, k, r);
    ReplaceRunsRun(ws, t, k, r);
  }

  /** `s.replace(/k/g, "")` works piece by piece. */
  lemma {:induction false} RemoveClassAppend(a: string, b: string, k: CharClass)
    ensures RemoveClass(a + b, k) == RemoveClass(a, k) + RemoveClass(b, k)
    decreases |a|
  {
    if a == [] {
      assert a + b == b;
    } else {
      assert (a + b)[0] == a[0] && (a + b)[1..] == a[1..] + b;
      RemoveClassAppend(a[1..], b, k);
    }
  }

  /** On one character `RemoveClass` deletes it exactly when it is in the class. */
  lemma RemoveClassChar(c: char, k: CharClass)
    ensures RemoveClass([c], k) == (if In(k, c) then [] else [c])
  {
    assert [c][1..] == [];
  }

  /** Collapsing dash runs in dash-and-alphanumeric text keeps it so, with no doubled `-`. */
  lemma {:induction false} CollapseDashesKeepsChars(s: string)
    requires forall i :: 0 <= i < |s| ==> IsLowerAlnum(s[i]) || s[i] == '-'
    ensures DashWords(ReplaceRuns(s, Dash, '-'))
    decreases |s|
  {
    var out := ReplaceRuns(s, Dash, '-');
    if s != [] {
      if s[0] == '-' {
        var t := DropRun(s[1..], Dash);
        assert forall i :: 0 <= i < |t| ==> t[i] == s[1..][|s[1..]| - |t| + i];
        CollapseDashesKeepsChars(t);
      } else {
        CollapseDashesKeepsChars(s[1..]);
      }
    }
  }

  /** Removing a class the text does not contain changes nothing. */
  lemma {:induction false} RemoveClassNoHit(s: string, k: CharClass)
    requires forall i :: 0 <= i < |s| ==> !In(k, s[i])
    ensures RemoveClass(s, k) == s
    decreases |s|
  {
    if s != [] {
      RemoveClassNoHit(s[1..], k);
      assert s == [s[0]] + s[1..];
    }
  }

  /** ASCII letters and digits: the characters both slugs keep. */
  predicate IsAsciiAlnum(c: char)
  {
    'a' <= c <= 'z' || 'A' <= c <= 'Z' || '0' <= c <= '9'
  }

  lemma LowerOfWord(s: string)
    requires forall i :: 0 <= i < |s| ==> IsAsciiAlnum(s[i])
    ensures forall i :: 0 <= i < |Lower(s)| ==> IsLowerAlnum(Lower(s)[i])
  {
  }

  /** A single word of letters and digits slugs to its lower case. */
  lemma WordSlugOfWord(s: string)
    requires s != [] && forall i :: 0 <= i < |s| ==> IsAsciiAlnum(s[i])
    ensures WordSlug(s) == Lower(s)
  {
    var l := Lower(s);
    LowerOfWord(s);
    ReplaceRunsNoHit(l, NotLowerAlnum, ' ');
    AlnumNotWs(l[0]);
    AlnumNotWs(l[|l| - 1]);
    TrimNoOp(l);
    forall i | 0 <= i < |l| ensures !In(Whitespace, l[i]) {
      AlnumNotWs(l[i]);
    }
    ReplaceRunsNoHit(l, Whitespace, '-');
  }

  lemma DashSlugOfWord(s: string)
    requires s != [] && forall i :: 0 <= i < |s| ==> IsAsciiAlnum(s[i])
    ensures DashSlug(s) == Lower(s)
  {
    var l := Lower(s);
    LowerOfWord(s);
    ReplaceRunsNoHit(l, NotLowerAlnum, '-');
    AlnumNotWs(l[0]);
    AlnumNotWs(l[|l| - 1]);
    assert DropLeading(l, '-') == l;
    assert DropTrailing(l, '-') == l;
  }
}
