/**
 * Reading configuration from the environment (config/env.js): every value
 * is cleaned of byte-order marks, surrounding whitespace and one layer of
 * matching quotes; `required` refuses a value that cleans to nothing and
 * `optional` falls back to a default only when the variable is unset.
 * Loading the .env file itself is not part of this model: the environment
 * is a map from names to strings. In the program, `loadDotenvOnce` has
 * already cleaned every value once before `required` and `optional` clean
 * it again; the map here holds the values as `required` and `optional`
 * receive them, so a raw .env value goes through `Clean` twice there and
 * once here (for a value wrapped in two layers of quotes the two differ).
 */
module Env {
  import opened Common

  const Bom: char := '\U{FEFF}'

  /** `s.replace(/﻿/g, '')` */
  function DropBom(s: string): (r: string)
    ensures Bom !in r
    ensures Bom !in s ==> r == s
  {
    if s == [] then []
    else (if s[0] == Bom then [] else [s[0]]) + DropBom(s[1..])
  }

  /** Starts and ends with the same quote character, `"` or `'` (a lone quote counts). */
  predicate Quoted(v: string)
  {
    |v| >= 1 && ((v[0] == '"' && v[|v| - 1] == '"') || (v[0] == '\'' && v[|v| - 1] == '\''))
  }

  /** `v.slice(1, -1)` */
  function Unquote(v: string): (r: string)
    requires |v| >= 1
    ensures |v| >= 2 ==> r == v[1..|v| - 1]
    ensures |v| == 1 ==> r == ""
  {
    if |v| >= 2 then v[1..|v| - 1] else ""
  }

  /** A trimmed infix of a string without byte-order marks has none either, and is trimmed. */
  lemma TrimKeepsNoBom(s: string)
    requires Bom !in s
    ensures Bom !in Trim(s) && Trim(Trim(s)) == Trim(s)
  {
    TrimInfix(s);
    TrimIdempotent(s);
  }

  /** Removing the quotes adds no byte-order mark. */
  lemma UnquoteKeepsNoBom(v: string)
    requires |v| >= 1 && Bom !in v
    ensures Bom !in Unquote(v)
  {
    var u := Unquote(v);
    forall k | 0 <= k < |u| ensures u[k] != Bom { assert u[k] == v[k + 1]; }
  }

  /** `clean(val)`: unset stays unset; otherwise no byte-order mark, no outer whitespace. */
  function Clean(val: Option<string>): (r: Option<string>)
    ensures r.None? <==> val.None?
    ensures r.Some? ==> Bom !in r.value && Trim(r.value) == r.value
  {
    if val.None? then None
    else
      var d := DropBom(val.value);
      var v := Trim(d);
      TrimKeepsNoBom(d);
      if Quoted(v) then
        var u := Unquote(v);
        UnquoteKeepsNoBom(v);
        TrimKeepsNoBom(u);
        Some(Trim(u))
      else Some(v)
  }

  /** A value that is already clean and not quoted comes back as it is. */
  lemma CleanKeepsPlain(s: string)
    requires Bom !in s && Trim(s) == s && !Quoted(s)
    ensures Clean(Some(s)) == Some(s)
  {
  }

  /**
   * Exactly one layer of matching quotes goes, and the inside is trimmed;
   * quotes nested inside that layer stay.
   */
  lemma CleanUnquotesOnce(s: string, q: char)
    requires q == '"' || q == '\''
    requires Bom !in s
    ensures Clean(Some([q] + s + [q])) == Some(Trim(s))
  {
    var w := [q] + s + [q];
    assert DropBom(w) == w by {
      assert Bom !in w by {
        forall k | 0 <= k < |w| ensures w[k] != Bom {
          if 0 < k < |w| - 1 { assert w[k] == s[k - 1]; }
        }
      }
    }
    TrimNoOp(w);
    assert Quoted(w);
    assert Unquote(w) == s;
  }

  /** Mismatched quotes are not removed. */
  lemma CleanKeepsMismatched(s: string)
    requires Bom !in s
    ensures Clean(Some("\"" + s + "'")) == Some("\"" + s + "'")
  {
    var w := "\"" + s + "'";
    assert DropBom(w) == w by {
      assert Bom !in w by {
        forall k | 0 <= k < |w| ensures w[k] != Bom {
          if 0 < k < |w| - 1 { assert w[k] == s[k - 1]; }
        }
      }
    }
    TrimNoOp(w);
    assert !Quoted(w);
  }

  /** `process.env[name]` */
  function Lookup(env: map<string, string>, name: string): (r: Option<string>)
    ensures r.Some? <==> name in env
    ensures name in env ==> r.value == env[name]
  {
    if name in env then Some(env[name]) else None
  }

  /**
   * `required(name, hint)`: the cleaned value, or the error naming the
   * variable (and the hint on a second line, when there is one) when it is
   * unset or cleans to the empty string.
   */
  function Required(env: map<string, string>, name: string, hint: string): (r: Result<string, string>)
    ensures r.Ok? <==> Clean(Lookup(env, name)).Some? && Clean(Lookup(env, name)).value != ""
    ensures r.Ok? ==> Some(r.value) == Clean(Lookup(env, name))
    ensures r.Err? ==> StartsWith(r.error, "[ENV] Missing required variable: " + name)
    ensures r.Err? && hint == "" ==> r.error == "[ENV] Missing required variable: " + name
    ensures r.Err? ==> r.error == "[ENV] Missing required variable: " + name + (if hint != "" then "\n" + hint else "")
  {
    var v := Clean(Lookup(env, name));
    if v.None? || v.value == "" then
      var msg := "[ENV] Missing required variable: " + name;
      Err(msg + (if hint != "" then "\n" + hint else ""))
    else Ok(v.value)
  }

  /** `optional(name, def)`: the cleaned value whenever the variable is set, even to "". */
  function Optional(env: map<string, string>, name: string, def: Option<string>): (r: Option<string>)
    ensures name !in env ==> r == def
    ensures name in env ==> r == Clean(Some(env[name])) && r.Some?
  {
    var v := Clean(Lookup(env, name));
    if v.Some? then v else def
  }

  /** A variable set to blanks is refused by `required` but kept, as "", by `optional`. */
  lemma BlankVariable(env: map<string, string>, name: string, def: Option<string>)
    requires name in env && Trim(env[name]) == "" && Bom !in env[name]
    ensures Required(env, name, "").Err?
    ensures Optional(env, name, def) == Some("")
  {
    assert DropBom(env[name]) == env[name];
    assert !Quoted("");
  }

  /** The guild id: GUILD_ID, else DISCORD_GUILD_ID, else VITE_GUILD_ID, else "". */
  function GuildId(env: map<string, string>): (r: Option<string>)
    ensures r.Some?
    ensures "GUILD_ID" in env ==> r == Clean(Some(env["GUILD_ID"]))
    ensures "GUILD_ID" !in env && "DISCORD_GUILD_ID" in env ==> r == Clean(Some(env["DISCORD_GUILD_ID"]))
    ensures "GUILD_ID" !in env && "DISCORD_GUILD_ID" !in env && "VITE_GUILD_ID" !in env ==> r == Some("")
  {
    Optional(env, "GUILD_ID", Optional(env, "DISCORD_GUILD_ID", Optional(env, "VITE_GUILD_ID", Some(""))))
  }
}
