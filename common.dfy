/**
 * Shared vocabulary for the raid-planner model: optional values, results,
 * the handful of JavaScript value shapes whose truthiness the code tests,
 * and the string and decimal helpers the JavaScript runtime provides.
 */
module Common {

  datatype Option<T> = None | Some(value: T)

  datatype Result<T, E> = Ok(value: T) | Err(error: E)

  /** A JavaScript value, as far as the code inspects it (integers only). */
  datatype Js = Undefined | Null | Bool(b: bool) | Num(n: int) | NaN | Str(s: string) | Obj

  /** JavaScript truthiness. */
  predicate Truthy(v: Js)
  {
    match v
    case Undefined => false
    case Null => false
    case Bool(b) => b
    case Num(n) => n != 0
    case NaN => false
    case Str(s) => s != ""
    case Obj => true
  }

  /** `a || b` */
  function Or(a: Js, b: Js): (r: Js)
    ensures Truthy(a) ==> r == a
    ensures !Truthy(a) ==> r == b
  {
    if Truthy(a) then a else b
  }

  predicate IsNullish(v: Js)
  {
    v.Undefined? || v.Null?
  }

  /** `a ?? b` */
  function Coalesce(a: Js, b: Js): (r: Js)
    ensures !IsNullish(a) ==> r == a
    ensures IsNullish(a) ==> r == b
  {
    if IsNullish(a) then b else a
  }

  /** `String(v)`: a string is itself, every truthy value prints as a non-empty string. */
  function JsString(v: Js): (r: string)
    ensures v.Str? ==> r == v.s
    ensures Truthy(v) ==> r != ""
  {
    match v
    case Undefined => "undefined"
    case Null => "null"
    case Bool(b) => if b then "true" else "false"
    case Num(n) => IntToString(n)
    case NaN => "NaN"
    case Str(s) => s
    case Obj => "[object Object]"
  }

  /** `typeof v === "number"` (NaN included). */
  predicate IsNumber(v: Js)
  {
    v.Num? || v.NaN?
  }

  /** An optional string used with `||`: absent and empty are both falsy. */
  function OrStr(a: Option<string>, b: Option<string>): (r: Option<string>)
    ensures a.Some? && a.value != "" ==> r == a
    ensures !(a.Some? && a.value != "") ==> r == b
  {
    if a.Some? && a.value != "" then a else b
  }

  predicate NonEmpty(a: Option<string>)
  {
    a.Some? && a.value != ""
  }

  // ---------------------------------------------------------------------
  // Characters and strings

  /** The characters JavaScript's `trim` and the regex class `\s` accept. */
  predicate IsWs(c: char)
  {
    c == ' ' || c == '\t' || c == '\n' || c == '\r' || c == '\U{000B}' || c == '\U{000C}'
    || c == '\U{00A0}' || c == '\U{1680}' || ('\U{2000}' <= c <= '\U{200A}')
    || c == '\U{2028}' || c == '\U{2029}' || c == '\U{202F}' || c == '\U{205F}'
    || c == '\U{3000}' || c == '\U{FEFF}'
  }

  predicate IsDigit(c: char)
  {
    '0' <= c <= '9'
  }

  predicate IsLowerAlnum(c: char)
  {
    ('a' <= c <= 'z') || IsDigit(c)
  }

  /** The regex class `\w`. */
  predicate IsWordChar(c: char)
  {
    ('a' <= c <= 'z') || ('A' <= c <= 'Z') || IsDigit(c) || c == '_'
  }

  predicate AllDigits(s: string)
  {
    forall i :: 0 <= i < |s| ==> IsDigit(s[i])
  }

  function LowerChar(c: char): (r: char)
    ensures 'A' <= c <= 'Z' ==> 'a' <= r <= 'z'
    ensures !('A' <= c <= 'Z') ==> r == c
  {
    if 'A' <= c <= 'Z' then (c as int + 32) as char else c
  }

  /** `toLowerCase`, on the ASCII letters. */
  function Lower(s: string): (r: string)
    ensures |r| == |s|
    ensures forall i :: 0 <= i < |s| ==> r[i] == LowerChar(s[i])
  {
    if s == [] then [] else [LowerChar(s[0])] + Lower(s[1..])
  }

  function TrimStart(s: string): (r: string)
    ensures |r| <= |s| && r == s[|s| - |r|..]
    ensures r == [] || !IsWs(r[0])
    ensures forall i :: 0 <= i < |s| - |r| ==> IsWs(s[i])
  {
    if s != [] && IsWs(s[0]) then TrimStart(s[1..]) else s
  }

  function TrimEnd(s: string): (r: string)
    ensures |r| <= |s| && r == s[..|r|]
    ensures r == [] || !IsWs(r[|r| - 1])
    ensures forall i :: |r| <= i < |s| ==> IsWs(s[i])
  {
    if s != [] && IsWs(s[|s| - 1]) then TrimEnd(s[..|s| - 1]) else s
  }

  /** Where `Trim(s)` starts inside `s`. */
  function TrimOffset(s: string): nat
  {
    |s| - |TrimStart(s)|
  }

  /** `trim`: the longest infix of `s` that neither starts nor ends with whitespace. */
  function Trim(s: string): (r: string)
    ensures TrimOffset(s) + |r| <= |s| && r == s[TrimOffset(s)..TrimOffset(s) + |r|]
    ensures r == [] || (!IsWs(r[0]) && !IsWs(r[|r| - 1]))
  {
    var a := TrimStart(s);
    var r := TrimEnd(a);
    SliceOfSlice(s, |s| - |a|, |r|);
    r
  }

  lemma SliceOfSlice(s: string, k: nat, n: nat)
    requires k + n <= |s|
    ensures s[k..][..n] == s[k..k + n]
  {
  }

  lemma TrimNoOp(s: string)
    requires s == [] || (!IsWs(s[0]) && !IsWs(s[|s| - 1]))
    ensures Trim(s) == s
  {
  }

  predicate AllWs(s: string)
  {
    forall i :: 0 <= i < |s| ==> IsWs(s[i])
  }

  lemma {:induction false} TrimStartPadded(pre: string, s: string)
    requires AllWs(pre)
    ensures TrimStart(pre + s) == TrimStart(s)
  {
    if pre != [] {
      var t := pre + s;
      assert t[0] == pre[0] && t[1..] == pre[1..] + s;
      assert TrimStart(t) == TrimStart(t[1..]);
      TrimStartPadded(pre[1..], s);
    } else {
      assert pre + s == s;
    }
  }

  lemma {:induction false} TrimEndPadded(s: string, post: string)
    requires AllWs(post)
    ensures TrimEnd(s + post) == TrimEnd(s)
  {
    if post != [] {
      var t := s + post;
      assert t[|t| - 1] == post[|post| - 1] && t[..|t| - 1] == s + post[..|post| - 1];
      assert TrimEnd(t) == TrimEnd(t[..|t| - 1]);
      TrimEndPadded(s, post[..|post| - 1]);
    } else {
      assert s + post == s;
    }
  }

  lemma {:induction false} TrimStartAppend(s: string, post: string)
    requires TrimStart(s) != []
    ensures TrimStart(s + post) == TrimStart(s) + post
  {
    var t := s + post;
    assert t[0] == s[0];
    if IsWs(s[0]) {
      assert t[1..] == s[1..] + post;
      assert TrimStart(t) == TrimStart(t[1..]) && TrimStart(s) == TrimStart(s[1..]);
      TrimStartAppend(s[1..], post);
    } else {
      assert TrimStart(t) == t && TrimStart(s) == s;
    }
  }

  /** Whitespace around a string does not change what `trim` leaves. */
  lemma TrimPadded(pre: string, s: string, post: string)
    requires AllWs(pre) && AllWs(post)
    ensures Trim(pre + s + post) == Trim(s)
  {
    assert pre + s + post == pre + (s + post);
    TrimStartPadded(pre, s + post);
    if TrimStart(s) == [] {
      TrimStartPadded(s, post);
      TrimStartPadded(post, []);
      assert post + [] == post;
    } else {
      TrimStartAppend(s, post);
      TrimEndPadded(TrimStart(s), post);
    }
  }

  /** Two strings with whitespace in the same places. */
  predicate SameWsShape(x: string, y: string)
  {
    |x| == |y| && forall i :: 0 <= i < |x| ==> (IsWs(x[i]) <==> IsWs(y[i]))
  }

  lemma {:induction false} TrimStartSameShape(x: string, y: string)
    requires SameWsShape(x, y)
    ensures |TrimStart(x)| == |TrimStart(y)|
  {
    if x != [] && IsWs(x[0]) {
      TrimStartSameShape(x[1..], y[1..]);
    }
  }

  lemma {:induction false} TrimEndSameShape(x: string, y: string)
    requires SameWsShape(x, y)
    ensures |TrimEnd(x)| == |TrimEnd(y)|
  {
    if x != [] && IsWs(x[|x| - 1]) {
      TrimEndSameShape(x[..|x| - 1], y[..|y| - 1]);
    }
  }

  /** Strings with whitespace in the same places are trimmed at the same places. */
  lemma TrimSameShape(x: string, y: string)
    requires SameWsShape(x, y)
    ensures TrimOffset(x) == TrimOffset(y) && |Trim(x)| == |Trim(y)|
  {
    TrimStartSameShape(x, y);
    TrimEndSameShape(TrimStart(x), TrimStart(y));
  }

  /** Two strings equal once lower-cased. */
  predicate SameUpToCase(x: string, y: string)
  {
    |x| == |y| && forall i :: 0 <= i < |x| ==> LowerChar(x[i]) == LowerChar(y[i])
  }

  lemma CaseKeepsWsShape(x: string, y: string)
    requires SameUpToCase(x, y)
    ensures SameWsShape(x, y)
  {
    forall i | 0 <= i < |x|
      ensures IsWs(x[i]) <==> IsWs(y[i])
    {
      if IsWs(x[i]) || IsWs(y[i]) {
        assert x[i] == LowerChar(x[i]) && y[i] == LowerChar(y[i]);
      }
    }
  }

  /** Trimming and lower-casing forgets letter case. */
  lemma LowerTrimIgnoresCase(x: string, y: string)
    requires SameUpToCase(x, y)
    ensures Lower(Trim(x)) == Lower(Trim(y))
  {
    CaseKeepsWsShape(x, y);
    TrimSameShape(x, y);
    SliceSameUpToCase(x, y, TrimOffset(x), |Trim(x)|);
    LowerIgnoresCase(Trim(x), Trim(y));
  }

  lemma SliceSameUpToCase(x: string, y: string, o: nat, n: nat)
    requires SameUpToCase(x, y) && o + n <= |x|
    ensures SameUpToCase(x[o..o + n], y[o..o + n])
  {
    var a, b := x[o..o + n], y[o..o + n];
    assert forall j :: 0 <= j < n ==> a[j] == x[o + j] && b[j] == y[o + j];
  }

  lemma LowerIgnoresCase(x: string, y: string)
    requires SameUpToCase(x, y)
    ensures Lower(x) == Lower(y)
  {
    assert forall i :: 0 <= i < |x| ==> Lower(x)[i] == Lower(y)[i];
  }

  predicate StartsWith(s: string, p: string)
  {
    |p| <= |s| && s[..|p|] == p
  }

  predicate EndsWith(s: string, p: string)
  {
    |p| <= |s| && s[|s| - |p|..] == p
  }

  /** `s.includes(k)` */
  predicate Contains(s: string, k: string)
    decreases |s|
  {
    StartsWith(s, k) || (s != [] && Contains(s[1..], k))
  }

  /** `s.split(c)` for a one-character separator: never empty. */
  function Split(s: string, c: char): (r: seq<string>)
    ensures |r| >= 1
    ensures forall i :: 0 <= i < |r| ==> c !in r[i]
  {
    if s == [] then [""]
    else if s[0] == c then [""] + Split(s[1..], c)
    else
      var t := Split(s[1..], c);
      [[s[0]] + t[0]] + t[1..]
  }

  /** `parts.join(sep)` */
  function Join(parts: seq<string>, sep: string): string
  {
    if |parts| == 0 then ""
    else if |parts| == 1 then parts[0]
    else parts[0] + sep + Join(parts[1..], sep)
  }

  lemma {:induction false} SplitNoSeparator(s: string, c: char)
    requires c !in s
    ensures Split(s, c) == [s]
  {
    if s != [] {
      SplitNoSeparator(s[1..], c);
      assert [s[0]] + s[1..] == s;
    }
  }

  lemma {:induction false} SplitPrefix(a: string, b: string, c: char)
    requires c !in a
    ensures Split(a + [c] + b, c) == [a] + Split(b, c)
  {
    if a == [] {
      assert a + [c] + b == [c] + b;
    } else {
      assert (a + [c] + b)[1..] == a[1..] + [c] + b;
      SplitPrefix(a[1..], b, c);
      assert [a[0]] + a[1..] == a;
    }
  }

  /** Three parts joined by a separator none of them holds split back into the three. */
  lemma SplitThree(a: string, b: string, c: string, sep: char)
    requires sep !in a && sep !in b && sep !in c
    ensures Split(a + [sep] + b + [sep] + c, sep) == [a, b, c]
  {
    SplitNoSeparator(c, sep);
    SplitPrefix(b, c, sep);
    assert a + [sep] + b + [sep] + c == a + [sep] + (b + [sep] + c);
    SplitPrefix(a, b + [sep] + c, sep);
  }

  /** Splitting a join on a separator the parts do not contain gives the parts back. */
  lemma {:induction false} SplitJoin(parts: seq<string>, c: char)
    requires |parts| >= 1
    requires forall i :: 0 <= i < |parts| ==> c !in parts[i]
    ensures Split(Join(parts, [c]), c) == parts
  {
    if |parts| == 1 {
      SplitNoSeparator(parts[0], c);
    } else {
      SplitJoin(parts[1..], c);
      SplitPrefix(parts[0], Join(parts[1..], [c]), c);
      assert [parts[0]] + parts[1..] == parts;
    }
  }

  lemma {:induction false} JoinNoChar(parts: seq<string>, sep: string, c: char)
    requires c !in sep
    requires forall i :: 0 <= i < |parts| ==> c !in parts[i]
    ensures c !in Join(parts, sep)
  {
    if |parts| > 1 {
      JoinNoChar(parts[1..], sep, c);
    }
  }

  function TrimAll(parts: seq<string>): (r: seq<string>)
    ensures |r| == |parts|
    ensures forall i :: 0 <= i < |parts| ==> r[i] == Trim(parts[i])
  {
    if parts == [] then [] else [Trim(parts[0])] + TrimAll(parts[1..])
  }

  /** `.filter(Boolean)` on strings. */
  function NonEmptyOnly(parts: seq<string>): (r: seq<string>)
    ensures forall i :: 0 <= i < |r| ==> r[i] != "" && r[i] in parts
    ensures forall i :: 0 <= i < |parts| && parts[i] != "" ==> parts[i] in r
  {
    if parts == [] then []
    else if parts[0] == "" then NonEmptyOnly(parts[1..])
    else [parts[0]] + NonEmptyOnly(parts[1..])
  }

  /** `text.split(',').map((s) => s.trim()).filter(Boolean)` */
  function CsvItems(text: string): (r: seq<string>)
    ensures forall i :: 0 <= i < |r| ==> r[i] != "" && ',' !in r[i] && Trim(r[i]) == r[i]
    ensures text == "" ==> r == []
  {
    var parts := Split(text, ',');
    CleanParts(parts, ',');
    if text == "" then EmptyCsv(); NonEmptyOnly(TrimAll(parts))
    else NonEmptyOnly(TrimAll(parts))
  }

  /** An empty list splits into one empty piece, which the filter drops. */
  lemma EmptyCsv()
    ensures NonEmptyOnly(TrimAll(Split("", ','))) == []
  {
    assert Split("", ',') == [""];
    assert Trim("") == "";
    assert TrimAll([""]) == [""];
    assert NonEmptyOnly([""]) == NonEmptyOnly([]);
  }

  /** Trimmed pieces of a split keep neither the separator nor outer whitespace. */
  lemma CleanParts(parts: seq<string>, c: char)
    requires forall i :: 0 <= i < |parts| ==> c !in parts[i]
    ensures var r := NonEmptyOnly(TrimAll(parts));
      forall i :: 0 <= i < |r| ==> c !in r[i] && Trim(r[i]) == r[i]
  {
    var t := TrimAll(parts);
    var r := NonEmptyOnly(t);
    forall i | 0 <= i < |r|
      ensures c !in r[i] && Trim(r[i]) == r[i]
    {
      var x := r[i];
      assert x in t;
      var j :| 0 <= j < |t| && t[j] == x;
      assert x == Trim(parts[j]);
      TrimInfix(parts[j]);
      TrimIdempotent(parts[j]);
    }
  }

  /** A trimmed string is an infix of the string, so it has no character the string lacks. */
  lemma TrimInfix(s: string)
    ensures forall c :: c in Trim(s) ==> c in s
  {
    var o := TrimOffset(s);
    var t := Trim(s);
    forall c | c in t
      ensures c in s
    {
      var k :| 0 <= k < |t| && t[k] == c;
      assert s[o + k] == c;
    }
  }

  lemma TrimIdempotent(s: string)
    ensures Trim(Trim(s)) == Trim(s)
  {
    TrimNoOp(Trim(s));
  }

  /** The items of a list written as "a,b,c" are that list again. */
  lemma {:induction false} CsvItemsOfJoin(roles: seq<string>)
    requires |roles| >= 1
    requires forall i :: 0 <= i < |roles| ==> roles[i] != "" && ',' !in roles[i]
    requires forall i :: 0 <= i < |roles| ==> !IsWs(roles[i][0]) && !IsWs(roles[i][|roles[i]| - 1])
    ensures CsvItems(Join(roles, ",")) == roles
  {
    SplitJoin(roles, ',');
    assert Split(Join(roles, ","), ',') == roles;
    TrimAllNoOp(roles);
    NonEmptyOnlyNoOp(roles);
  }

  lemma {:induction false} TrimAllNoOp(parts: seq<string>)
    requires forall i :: 0 <= i < |parts| ==> parts[i] != "" && !IsWs(parts[i][0]) && !IsWs(parts[i][|parts[i]| - 1])
    ensures TrimAll(parts) == parts
  {
    if parts != [] {
      TrimNoOp(parts[0]);
      TrimAllNoOp(parts[1..]);
    }
  }

  lemma {:induction false} NonEmptyOnlyNoOp(parts: seq<string>)
    requires forall i :: 0 <= i < |parts| ==> parts[i] != ""
    ensures NonEmptyOnly(parts) == parts
  {
    if parts != [] {
      NonEmptyOnlyNoOp(parts[1..]);
    }
  }

  function Repeat(c: char, n: nat): (r: string)
    ensures |r| == n
    ensures forall i :: 0 <= i < n ==> r[i] == c
  {
    if n == 0 then "" else [c] + Repeat(c, n - 1)
  }

  // ---------------------------------------------------------------------
  // Decimal numbers

  function DigitChar(d: nat): char
    requires d < 10
  {
    "0123456789"[d]
  }

  function DigitValue(c: char): nat
  {
    if IsDigit(c) then (c as int - '0' as int) as nat else 0
  }

  /** `String(n)` for a natural number. */
  function NatToString(n: nat): (r: string)
    ensures |r| >= 1 && AllDigits(r)
    decreases n
  {
    if n < 10 then [DigitChar(n)] else NatToString(n / 10) + [DigitChar(n % 10)]
  }

  /** `String(i)` for an integer. */
  function IntToString(i: int): string
  {
    if i < 0 then "-" + NatToString(-i) else NatToString(i)
  }

  /** The value of a string of decimal digits. */
  function DigitsValue(s: string): nat
  {
    if s == [] then 0 else DigitsValue(s[..|s| - 1]) * 10 + DigitValue(s[|s| - 1])
  }

  lemma {:induction false} DigitsValueOfNatToString(n: nat)
    ensures DigitsValue(NatToString(n)) == n
    decreases n
  {
    var s := NatToString(n);
    if n < 10 {
      assert DigitValue(DigitChar(n)) == n;
    } else {
      DigitsValueOfNatToString(n / 10);
      assert s[..|s| - 1] == NatToString(n / 10);
      assert DigitValue(DigitChar(n % 10)) == n % 10;
    }
  }

  /** Distinct numbers print differently. */
  lemma NatToStringInjective(a: nat, b: nat)
    requires NatToString(a) == NatToString(b)
    ensures a == b
  {
    DigitsValueOfNatToString(a);
    DigitsValueOfNatToString(b);
  }

  /** `String(n).padStart(2, "0")` */
  function Pad2(n: nat): (r: string)
    ensures n < 100 ==> |r| == 2 && AllDigits(r)
    ensures |r| >= 2
  {
    var s := NatToString(n);
    assert n >= 10 ==> NatToString(n) == NatToString(n / 10) + [DigitChar(n % 10)];
    if |s| < 2 then "0" + s else s
  }

  /** Code-unit lexicographic order, the stand-in for `localeCompare`. */
  predicate StrLe(a: string, b: string)
  {
    a == [] || (b != [] && (a[0] < b[0] || (a[0] == b[0] && StrLe(a[1..], b[1..]))))
  }

  lemma {:induction false} StrLeTotal(a: string, b: string)
    ensures StrLe(a, b) || StrLe(b, a)
  {
    if a != [] && b != [] && a[0] == b[0] {
      StrLeTotal(a[1..], b[1..]);
    }
  }

  lemma {:induction false} StrLeTransitive(a: string, b: string, c: string)
    ensures StrLe(a, b) && StrLe(b, c) ==> StrLe(a, c)
  {
    if a != [] && b != [] && c != [] && a[0] == b[0] == c[0] {
      StrLeTransitive(a[1..], b[1..], c[1..]);
    }
  }

  /** The outcome of JavaScript's `Number(...)`. */
  datatype NumVal = Finite(v: int) | NotANumber

  /**
   * `Number(s)` for a string: surrounding whitespace is ignored, the empty
   * string is 0, an optionally signed run of decimal digits is its value,
   * anything else is NaN.
   */
  function NumberOf(s: string): NumVal
  {
    var t := Trim(s);
    if t == [] then Finite(0)
    else if AllDigits(t) then Finite(DigitsValue(t))
    else if t[0] == '-' && |t| > 1 && AllDigits(t[1..]) then Finite(-(DigitsValue(t[1..]) as int))
    else if t[0] == '+' && |t| > 1 && AllDigits(t[1..]) then Finite(DigitsValue(t[1..]))
    else NotANumber
  }

  /** `Number(v)` for a value of any type. */
  function JsNumber(v: Js): NumVal
  {
    match v
    case Undefined => NotANumber
    case Null => Finite(0)
    case Bool(b) => Finite(if b then 1 else 0)
    case Num(n) => Finite(n)
    case NaN => NotANumber
    case Str(s) => NumberOf(s)
    case Obj => NotANumber
  }

  lemma NumberOfDigits(s: string)
    requires s != [] && AllDigits(s)
    ensures NumberOf(s) == Finite(DigitsValue(s))
  {
    assert IsDigit(s[0]) && IsDigit(s[|s| - 1]);
    TrimNoOp(s);
  }

  lemma NumberOfNegative(s: string)
    requires |s| > 1 && s[0] == '-' && AllDigits(s[1..])
    ensures NumberOf(s) == Finite(-(DigitsValue(s[1..]) as int))
  {
    assert IsDigit(s[1..][|s| - 2]);
    TrimNoOp(s);
    assert !AllDigits(s) by { assert !IsDigit(s[0]); }
  }

  /** Text with a dash after its first character and no surrounding whitespace is NaN. */
  lemma NumberOfInnerDash(s: string, k: nat)
    requires 1 <= k < |s| && s[k] == '-'
    requires !IsWs(s[0]) && !IsWs(s[|s| - 1])
    ensures NumberOf(s).NotANumber?
  {
    TrimNoOp(s);
    assert !IsDigit(s[k]);
    assert s[1..][k - 1] == '-';
  }

  /** A printed integer is digits after an optional minus sign. */
  lemma IntToStringChars(v: int)
    ensures forall i :: 0 <= i < |IntToString(v)| ==> IntToString(v)[i] == '-' || IsDigit(IntToString(v)[i])
  {
    var s := IntToString(v);
    if v < 0 {
      var d := NatToString(-v);
      assert s == "-" + d;
      forall i | 1 <= i < |s|
        ensures IsDigit(s[i])
      {
        assert s[i] == d[i - 1];
      }
    }
  }

  /** `Number(String(v))` is `v`. */
  lemma NumberOfIntToString(v: int)
    ensures NumberOf(IntToString(v)) == Finite(v)
  {
    if v < 0 {
      NumberOfNegativeInt(v);
    } else {
      DigitsValueOfNatToString(v);
      NumberOfDigits(NatToString(v));
    }
  }

  lemma NumberOfNegativeInt(v: int)
    requires v < 0
    ensures NumberOf(IntToString(v)) == Finite(v)
  {
    var n: nat := -v;
    DigitsValueOfNatToString(n);
    NumberOfMinus(IntToString(v), NatToString(n), v);
  }

  lemma NumberOfMinus(s: string, d: string, v: int)
    requires d != [] && AllDigits(d) && s == "-" + d && DigitsValue(d) == -v
    ensures NumberOf(s) == Finite(v)
  {
    assert s[1..] == d;
    NumberOfNegative(s);
  }

  function TakeDigits(s: string): (r: string)
    ensures |r| <= |s| && r == s[..|r|] && AllDigits(r)
    ensures |r| < |s| ==> !IsDigit(s[|r|])
  {
    if s != [] && IsDigit(s[0]) then [s[0]] + TakeDigits(s[1..]) else ""
  }

  /**
   * `parseInt(s, 10)`: leading whitespace, an optional sign and the longest
   * run of digits that follows; None when there is no digit (NaN).
   */
  function ParseIntPrefix(s: string): (r: Option<int>)
    ensures r.None? <==> TakeDigits(SkipSign(TrimStart(s))) == []
  {
    var t := TrimStart(s);
    var d := TakeDigits(SkipSign(t));
    if d == [] then None
    else if t[0] == '-' then Some(-(DigitsValue(d) as int))
    else Some(DigitsValue(d))
  }

  function SkipSign(t: string): string
  {
    if t != [] && (t[0] == '-' || t[0] == '+') then t[1..] else t
  }
}
