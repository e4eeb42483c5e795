/**
 * The authentication debugging helpers of utils/debug.js: the DEBUG_AUTH
 * switch, masking of secrets and the header whitelist. The timestamped
 * console output of `dbgAuth` is not part of this model.
 */
module Debug {
  import opened Common

  /** `isDebugAuth()`: DEBUG_AUTH is exactly "1", "true" or "yes". */
  predicate IsDebugAuth(flag: Option<string>)
  {
    flag == Some("1") || flag == Some("true") || flag == Some("yes")
  }

  /** The switch is case-sensitive and off when the variable is unset. */
  lemma DebugAuthExact(flag: Option<string>)
    ensures IsDebugAuth(flag) ==> flag.Some? && |flag.value| <= 4 && flag.value[0] in "1ty"
    ensures !IsDebugAuth(None) && !IsDebugAuth(Some("TRUE")) && !IsDebugAuth(Some("on"))
  {
  }

  // ---------------------------------------------------------------------
  // mask

  /** `s.slice(-k)`: since -0 is 0, a zero count gives the whole string. */
  function SliceFromEnd(s: string, k: nat): (r: string)
    requires k <= |s|
    ensures k > 0 ==> r == s[|s| - k..]
    ensures k == 0 ==> r == s
  {
    if k == 0 then s else s[|s| - k..]
  }

  /** `mask(str, keep)` as written. */
  function MaskAsWritten(v: Js, keep: nat): (r: Js)
    ensures !(v.Str? && v.s != "") ==> r == v
    ensures v.Str? && v.s != "" && |v.s| <= 2 * keep ==> r == Str(Repeat('*', |v.s|))
    ensures v.Str? && |v.s| > 2 * keep ==> r.Str? && StartsWith(r.s, v.s[..keep]) && EndsWith(r.s, SliceFromEnd(v.s, keep))
  {
    if !Truthy(v) || !v.Str? then v
    else
      var s := v.s;
      if |s| <= keep * 2 then Str(Repeat('*', |s|))
      else
        var r := s[..keep] + Repeat('*', |s| - keep * 2) + SliceFromEnd(s, keep);
        assert r[..keep] == s[..keep];
        assert r[|r| - |SliceFromEnd(s, keep)|..] == SliceFromEnd(s, keep);
        Str(r)
  }

  /** With nothing to keep, the string comes back behind a row of stars: twice as long. */
  lemma MaskZeroKeepDoubles(s: string)
    requires s != ""
    ensures MaskAsWritten(Str(s), 0) == Str(Repeat('*', |s|) + s)
    ensures |MaskAsWritten(Str(s), 0).s| == 2 * |s|
  {
    assert s[..0] + Repeat('*', |s|) + s == Repeat('*', |s|) + s;
  }

  /**
   * `mask(str, keep)` as evidently intended: a non-string or empty value
   * comes back unchanged; a short string becomes all stars; otherwise the
   * first and last `keep` characters stay and the middle becomes stars.
   */
  function Mask(v: Js, keep: nat): (r: Js)
    ensures !(v.Str? && v.s != "") ==> r == v
    ensures v.Str? && v.s != "" ==> r.Str? && |r.s| == |v.s|
    ensures v.Str? && v.s != "" && |v.s| <= 2 * keep ==> forall i :: 0 <= i < |v.s| ==> r.s[i] == '*'
    ensures v.Str? && |v.s| > 2 * keep ==>
      forall i :: 0 <= i < |v.s| ==> r.s[i] == (if keep <= i < |v.s| - keep then '*' else v.s[i])
  {
    if !Truthy(v) || !v.Str? then v
    else
      var s := v.s;
      if |s| <= keep * 2 then Str(Repeat('*', |s|))
      else Str(s[..keep] + Repeat('*', |s| - keep * 2) + s[|s| - keep..])
  }

  /** The two agree whenever at least one character is kept at each end. */
  lemma MaskAgrees(v: Js, keep: nat)
    requires keep >= 1
    ensures MaskAsWritten(v, keep) == Mask(v, keep)
  {
  }

  // ---------------------------------------------------------------------
  // pickHeaders

  /** The headers worth logging, in the order they are looked at. */
  const HeaderKeys: seq<string> := ["host", "origin", "referer", "cookie", "authorization", "user-agent"]

  /** `headers?.[k]` is truthy. */
  predicate Present(headers: Option<map<string, Js>>, k: string)
  {
    headers.Some? && k in headers.value && Truthy(headers.value[k])
  }

  /** `pickHeaders(headers)`: exactly the whitelisted headers with a truthy value, unchanged. */
  method PickHeaders(headers: Option<map<string, Js>>) returns (h: map<string, Js>)
    ensures forall k :: k in h <==> k in HeaderKeys && Present(headers, k)
    ensures forall k :: k in h ==> Present(headers, k) && h[k] == headers.value[k]
  {
    h := map[];
    var i := 0;
    while i < |HeaderKeys|
      invariant 0 <= i <= |HeaderKeys|
      invariant forall k :: k in h <==> k in HeaderKeys[..i] && Present(headers, k)
      invariant forall k :: k in h ==> Present(headers, k) && h[k] == headers.value[k]
    {
      var k := HeaderKeys[i];
      if Present(headers, k) {
        h := h[k := headers.value[k]];
      }
      assert HeaderKeys[..i + 1] == HeaderKeys[..i] + [k];
      i := i + 1;
    }
    assert HeaderKeys[..i] == HeaderKeys;
  }
}
