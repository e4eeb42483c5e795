/**
 * Translation lookup of the front end (i118n/I18nProvider.jsx): a key is
 * a dotted path into the current language's message tree, falling back to
 * the English tree and then to the key itself; a string found this way has
 * its `{name}` placeholders filled from the variables. The message tables
 * themselves and the choice of the initial language are not part of this
 * model: the tables are a parameter.
 */
module I18n {
  import opened Common

  // ---------------------------------------------------------------------
  // format

  /** The longest prefix of `\w` characters. */
  function WordRun(s: string): (w: string)
    ensures |w| <= |s| && w == s[..|w|]
    ensures forall i :: 0 <= i < |w| ==> IsWordChar(w[i])
    ensures |w| < |s| ==> !IsWordChar(s[|w|])
  {
    if s != [] && IsWordChar(s[0]) then [s[0]] + WordRun(s[1..]) else ""
  }

  /** The key of a `{key}` placeholder opening `s`, when one does. */
  function PlaceholderAt(s: string): (k: Option<string>)
    ensures k.Some? ==> |k.value| >= 1 && |k.value| + 2 <= |s|
    ensures k.Some? ==> s[..|k.value| + 2] == "{" + k.value + "}"
    ensures k.Some? ==> forall i :: 0 <= i < |k.value| ==> IsWordChar(k.value[i])
    ensures s == [] || s[0] != '{' ==> k.None?
  {
    if s != [] && s[0] == '{' then
      var w := WordRun(s[1..]);
      if w != [] && |w| + 1 < |s| && s[|w| + 1] == '}' then
        assert s[..|w| + 2] == "{" + w + "}" by {
          assert s[1..][..|w|] == s[1..|w| + 1];
        }
        Some(w)
      else None
    else None
  }

  /** `vars?.[key] ?? ""`, printed. */
  function Replacement(vars: map<string, Js>, key: string): (r: string)
    ensures key !in vars ==> r == ""
    ensures key in vars && !IsNullish(vars[key]) ==> r == JsString(vars[key])
  {
    if key in vars && !IsNullish(vars[key]) then JsString(vars[key]) else ""
  }

  /**
   * `format(str, vars)`: one left-to-right pass replacing each `{word}`;
   * the replacements are not scanned again.
   */
  function Format(s: string, vars: map<string, Js>): (r: string)
    ensures '{' !in s ==> r == s
    decreases |s|
  {
    if s == [] then []
    else
      match PlaceholderAt(s)
      case Some(k) => Replacement(vars, k) + Format(s[|k| + 2..], vars)
      case None => [s[0]] + Format(s[1..], vars)
  }

  /** Text without an opening brace is copied as it is, and scanning resumes after it. */
  lemma {:induction false} FormatPlainPrefix(a: string, b: string, vars: map<string, Js>)
    requires '{' !in a
    ensures Format(a + b, vars) == a + Format(b, vars)
    decreases |a|
  {
    if a != [] {
      var s := a + b;
      assert s[0] == a[0] && a[0] in a;
      assert PlaceholderAt(s) == None;
      assert s[1..] == a[1..] + b;
      FormatPlainPrefix(a[1..], b, vars);
      assert Format(s, vars) == [s[0]] + Format(s[1..], vars);
      assert [a[0]] + a[1..] == a;
    } else {
      assert a + b == b;
    }
  }

  /** A placeholder is replaced by its variable's text (nothing when it is unset), and scanning resumes after it. */
  lemma FormatPlaceholder(key: string, rest: string, vars: map<string, Js>)
    requires key != "" && forall i :: 0 <= i < |key| ==> IsWordChar(key[i])
    ensures Format("{" + key + "}" + rest, vars) == Replacement(vars, key) + Format(rest, vars)
  {
    var s := "{" + key + "}" + rest;
    assert s[1..] == key + "}" + rest;
    WordRunOf(key, "}" + rest);
    assert s[1..] == key + ("}" + rest);
    assert PlaceholderAt(s) == Some(key);
    assert s[|key| + 2..] == rest;
  }

  lemma {:induction false} WordRunOf(w: string, t: string)
    requires forall i :: 0 <= i < |w| ==> IsWordChar(w[i])
    requires t == [] || !IsWordChar(t[0])
    ensures WordRun(w + t) == w
    decreases |w|
  {
    if w != [] {
      assert (w + t)[1..] == w[1..] + t;
      WordRunOf(w[1..], t);
    } else {
      assert w + t == t;
    }
  }

  /** A substituted value is not scanned again, even when it looks like a placeholder. */
  lemma NoRescan(vars: map<string, Js>)
    requires "a" in vars && vars["a"] == Str("{a}")
    ensures Format("{a}", vars) == "{a}"
  {
    FormatPlaceholder("a", "", vars);
    assert "{" + "a" + "}" + "" == "{a}";
    assert Format("", vars) == "";
    assert Replacement(vars, "a") == "{a}";
  }

  // ---------------------------------------------------------------------
  // getNested

  /** A message tree: a text, or named sub-trees. */
  datatype Msg = Text(s: string) | Dict(entries: map<string, Msg>)

  /**
   * One step of the walk: `acc && acc[part] != null ? acc[part] : undefined`,
   * on objects. The properties a string has in JavaScript (its character
   * indexes and `length`) and those every object inherits are not modelled:
   * here a step into a text always fails.
   */
  function Child(acc: Option<Msg>, part: string): (r: Option<Msg>)
    ensures r.Some? <==> acc.Some? && acc.value.Dict? && part in acc.value.entries
    ensures r.Some? ==> r.value == acc.value.entries[part]
  {
    if acc.Some? && acc.value.Dict? && part in acc.value.entries then Some(acc.value.entries[part]) else None
  }

  /** `parts.reduce(step, acc)` */
  function Walk(acc: Option<Msg>, parts: seq<string>): (r: Option<Msg>)
    ensures acc.None? ==> r.None?
    decreases |parts|
  {
    if parts == [] then acc else Walk(Child(acc, parts[0]), parts[1..])
  }

  /** Walking a path in two pieces is walking it whole. */
  lemma {:induction false} WalkAppend(acc: Option<Msg>, p: seq<string>, q: seq<string>)
    ensures Walk(acc, p + q) == Walk(Walk(acc, p), q)
    decreases |p|
  {
    if p != [] {
      assert (p + q)[0] == p[0] && (p + q)[1..] == p[1..] + q;
      WalkAppend(Child(acc, p[0]), p[1..], q);
      assert Walk(acc, p + q) == Walk(Child(acc, p[0]), p[1..] + q);
      assert Walk(acc, p) == Walk(Child(acc, p[0]), p[1..]);
    } else {
      assert p + q == q;
    }
  }

  /** `getNested(obj, path)` */
  function GetNested(root: Option<Msg>, path: string): (r: Option<Msg>)
    ensures root.None? ==> r.None?
    ensures '.' !in path ==> r == Child(root, path)
  {
    if '.' !in path then
      SplitNoSeparator(path, '.');
      assert Walk(root, [path]) == Walk(Child(root, path), []);
      Walk(root, Split(path, '.'))
    else
      Walk(root, Split(path, '.'))
  }

  /** A key without dots is a lookup in the top level. */
  lemma GetNestedFlat(m: map<string, Msg>, key: string)
    requires '.' !in key
    ensures GetNested(Some(Dict(m)), key) == (if key in m then Some(m[key]) else None)
  {
    SplitNoSeparator(key, '.');
    assert Walk(Some(Dict(m)), [key]) == Walk(Child(Some(Dict(m)), key), []);
  }

  /** "a.b" looks up b inside a. */
  lemma GetNestedTwoLevels(root: Option<Msg>, a: string, b: string)
    requires '.' !in a && '.' !in b
    ensures GetNested(root, a + "." + b) == Child(Child(root, a), b)
  {
    SplitPrefix(a, b, '.');
    SplitNoSeparator(b, '.');
    assert a + "." + b == a + ['.'] + b;
    assert Split(a + "." + b, '.') == [a, b];
    assert Walk(root, [a, b]) == Walk(Child(root, a), [b]);
    assert [a, b][1..] == [b];
    assert Walk(Child(root, a), [b]) == Walk(Child(Child(root, a), b), []);
  }

  // ---------------------------------------------------------------------
  // t

  predicate MsgTruthy(m: Msg)
  {
    m.Dict? || m.s != ""
  }

  /** `MESSAGES[lang] || MESSAGES.en` */
  function Dictionary(messages: map<string, Msg>, lang: string): (r: Option<Msg>)
    ensures lang in messages && MsgTruthy(messages[lang]) ==> r == Some(messages[lang])
    ensures !(lang in messages && MsgTruthy(messages[lang])) ==> r == (if "en" in messages then Some(messages["en"]) else None)
  {
    if lang in messages && MsgTruthy(messages[lang]) then Some(messages[lang])
    else if "en" in messages then Some(messages["en"])
    else None
  }

  /** The value before formatting: the language's entry, else the English one, else the key. */
  function Found(messages: map<string, Msg>, lang: string, key: string): (v: Msg)
  {
    var own := GetNested(Dictionary(messages, lang), key);
    var en := GetNested(if "en" in messages then Some(messages["en"]) else None, key);
    if own.Some? then own.value else if en.Some? then en.value else Text(key)
  }

  /** `t(key, vars)`: a text found is formatted, a sub-tree is returned as it is. */
  function T(messages: map<string, Msg>, lang: string, key: string, vars: map<string, Js>): (r: Msg)
    ensures Found(messages, lang, key).Dict? ==> r == Found(messages, lang, key)
    ensures Found(messages, lang, key).Text? ==> r == Text(Format(Found(messages, lang, key).s, vars))
  {
    var v := Found(messages, lang, key);
    if v.Text? then Text(Format(v.s, vars)) else v
  }

  /**
   * The fallback chain: the current language wins; a key it lacks comes
   * from English; a key neither has comes back formatted as it is.
   */
  lemma FallbackChain(messages: map<string, Msg>, lang: string, key: string)
    ensures GetNested(Dictionary(messages, lang), key).Some? ==>
      Found(messages, lang, key) == GetNested(Dictionary(messages, lang), key).value
    ensures (GetNested(Dictionary(messages, lang), key).None? && "en" in messages
      && GetNested(Some(messages["en"]), key).Some?) ==>
      Found(messages, lang, key) == GetNested(Some(messages["en"]), key).value
    ensures GetNested(Dictionary(messages, lang), key).None? && ("en" !in messages || GetNested(Some(messages["en"]), key).None?) ==>
      Found(messages, lang, key) == Text(key)
  {
  }

  /** A key found nowhere and free of braces is its own translation. */
  lemma MissingKeyIsItself(messages: map<string, Msg>, lang: string, key: string, vars: map<string, Js>)
    requires '{' !in key
    requires GetNested(Dictionary(messages, lang), key).None?
    requires "en" !in messages || GetNested(Some(messages["en"]), key).None?
    ensures T(messages, lang, key, vars) == Text(key)
  {
  }
}
