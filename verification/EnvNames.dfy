/** From environment variable names to assignments, and the name a path is set by. */
module EnvNames {
  import opened Common
  import opened Text
  import opened EnvConfig

  // -- variable names --------------------------------------------------------------------------

  const ENV_PREFIX := "YAYA_"
  const ENV_DELIM := "__"

  function LowerChar(ch: char): char {
    if 'A' <= ch <= 'Z' then ch + 32 as char else ch
  }

  function Lower(s: string): string {
    seq(|s|, i requires 0 <= i < |s| => LowerChar(s[i]))
  }

  function Split(s: string): seq<string>
    decreases |s|
  {
    var i := Find(s, ENV_DELIM);
    if i == -1 then [s] else [s[..i]] + Split(s[i + 2..])
  }

  function NonEmptyLower(parts: seq<string>): seq<string> {
    if parts == [] then []
    else (if parts[0] == "" then [] else [Lower(parts[0])]) + NonEmptyLower(parts[1..])
  }

  /** What one variable contributes, if anything: declared fields and names without
      the delimiter belong to another source. */
  function Parsed(declared: set<string>, name: string, value: string): (r: Option<Assign>)
    ensures r.Some? ==> ValidAssign(r.value)
  {
    if !(ENV_PREFIX <= name) then None else
    var stripped := name[|ENV_PREFIX|..];
    var i := Find(stripped, ENV_DELIM);
    if i == -1 then None else
    var ns := Lower(stripped[..i]);
    if ns in declared then None else
    var parts := NonEmptyLower(Split(stripped[i + 2..]));
    Some(if parts == [] then Touch(ns) else Puts([ns] + parts, value))
  }

  function Assigns(declared: set<string>, env: seq<(string, string)>): (r: seq<Assign>)
    ensures forall i | 0 <= i < |r| :: ValidAssign(r[i])
  {
    if env == [] then [] else
    var (name, value) := env[|env| - 1];
    var a := Parsed(declared, name, value);
    Assigns(declared, env[..|env| - 1]) + if a.Some? then [a.value] else []
  }

  lemma AssignsAppend(declared: set<string>, env: seq<(string, string)>, v: (string, string))
    ensures var a := Parsed(declared, v.0, v.1);
      Assigns(declared, env + [v]) == if a.Some? then Assigns(declared, env) + [a.value] else Assigns(declared, env)
  {
    assert (env + [v])[..|env|] == env;
  }

  lemma NestedAppend(assigns: seq<Assign>, a: Assign)
    requires forall i | 0 <= i < |assigns| :: ValidAssign(assigns[i])
    requires ValidAssign(a)
    ensures Nested(assigns + [a]) == Applied(Nested(assigns), a)
  {
    assert (assigns + [a])[..|assigns|] == assigns;
  }

  /** The settings source: one pass over the environment. */
  method NestedEnvExtras(declared: set<string>, env: seq<(string, string)>) returns (result: Dict)
    ensures result == Nested(Assigns(declared, env))
  {
    hide Parsed, Insert;
    result := Empty;
    Prefixes(env, 0);
    for n := 0 to |env|
      invariant result == Nested(Assigns(declared, env[..n]))
    {
      Prefixes(env, n);
      var (name, value) := env[n];
      AssignsAppend(declared, env[..n], env[n]);
      var a := Parsed(declared, name, value);
      if a.Some? {
        NestedAppend(Assigns(declared, env[..n]), a.value);
        result := Applied(result, a.value);
      }
    }
  }

  // -- the name a path is set by ---------------------------------------------------------------

  /** A part that survives the trip through a variable name. */
  predicate PlainPart(part: string) {
    && part != "" && Lower(part) == part
    && part[|part| - 1] != '_' && Find(part, ENV_DELIM) == -1
  }

  predicate PlainPath(path: seq<string>) {
    forall i | 0 <= i < |path| :: PlainPart(path[i])
  }

  function UpperChar(ch: char): char {
    if 'a' <= ch <= 'z' then ch - 32 as char else ch
  }

  function Upper(s: string): string {
    seq(|s|, i requires 0 <= i < |s| => UpperChar(s[i]))
  }

  function Joined(parts: seq<string>): string
    requires parts != []
  {
    if |parts| == 1 then Upper(parts[0]) else Upper(parts[0]) + ENV_DELIM + Joined(parts[1..])
  }

  lemma LowerUpper(part: string)
    requires Lower(part) == part
    ensures Lower(Upper(part)) == part
  {
    forall i | 0 <= i < |part| ensures Lower(Upper(part))[i] == part[i] {
      assert Lower(part)[i] == part[i];
    }
  }

  lemma UpperDelim(part: string, k: int)
    ensures At(Upper(part), ENV_DELIM, k) <==> At(part, ENV_DELIM, k)
  {
    if 0 <= k && k + 2 <= |part| {
      assert Upper(part)[k..k + 2] == [UpperChar(part[k]), UpperChar(part[k + 1])];
      assert part[k..k + 2] == [part[k], part[k + 1]];
    }
  }

  /** Behind a plain part the delimiter is found exactly where the part ends. */
  lemma DelimAtEnd(part: string, rest: string)
    requires PlainPart(part)
    ensures Find(Upper(part), ENV_DELIM) == -1
    ensures Find(Upper(part) + ENV_DELIM + rest, ENV_DELIM) == |part|
  {
    var u := Upper(part);
    var s := u + ENV_DELIM + rest;
    forall k ensures !At(u, ENV_DELIM, k) {
      UpperDelim(part, k);
    }
    assert s[|u|..|u| + 2] == ENV_DELIM;
    assert At(s, ENV_DELIM, |u|);
    forall k | 0 <= k < |u| ensures !At(s, ENV_DELIM, k) {
      if k + 1 < |u| {
        assert s[k..k + 2] == u[k..k + 2];
        assert !At(u, ENV_DELIM, k);
      } else {
        assert s[k] == UpperChar(part[k]) && s[k..k + 2][0] == s[k];
      }
    }
  }

  lemma {:induction false} SplitJoined(parts: seq<string>)
    requires parts != [] && PlainPath(parts)
    ensures NonEmptyLower(Split(Joined(parts))) == parts
    decreases |parts|
  {
    hide PlainPart;
    var u := Upper(parts[0]);
    UpperNotEmpty(parts[0]);
    LowerUpper(parts[0]);
    if |parts| == 1 {
      DelimAtEnd(parts[0], "");
      assert [u][1..] == [];
      assert parts == [parts[0]];
    } else {
      var rest := Joined(parts[1..]);
      DelimAtEnd(parts[0], rest);
      SplitJoined(parts[1..]);
      var s := u + ENV_DELIM + rest;
      assert s[..|u|] == u && s[|u| + 2..] == rest;
      assert ([u] + Split(rest))[1..] == Split(rest);
      assert parts == [parts[0]] + parts[1..];
    }
  }

  lemma UpperNotEmpty(part: string)
    requires PlainPart(part)
    ensures Upper(part) != "" && |Upper(part)| == |part| && Lower(part) == part
  {
  }

  function EnvName(path: seq<string>): string
    requires path != []
  {
    ENV_PREFIX + Joined(path)
  }

  /** Empty parts are skipped, the others count in order and in lower case. */
  lemma PartsAre(a: seq<string>, part: string)
    ensures NonEmptyLower([]) == []
    ensures NonEmptyLower([part] + a) == (if part == "" then [] else [Lower(part)]) + NonEmptyLower(a)
    ensures |Lower(part)| == |part|
    ensures forall i | 0 <= i < |part| ::
      Lower(part)[i] == if 'A' <= part[i] <= 'Z' then part[i] - 'A' + 'a' else part[i]
  {
    assert ([part] + a)[1..] == a;
  }

  /** Names are written in upper case, with the prefix and the delimiter. */
  lemma ANameIs(part: string)
    ensures |Upper(part)| == |part|
    ensures forall i | 0 <= i < |part| ::
      Upper(part)[i] == if 'a' <= part[i] <= 'z' then part[i] - 'a' + 'A' else part[i]
    ensures EnvName(["llm_openai", "api_key"]) == "YAYA_" + "LLM_OPENAI" + "__" + "API_KEY"
  {
    var path := ["llm_openai", "api_key"];
    assert path[1..] == ["api_key"];
    assert Upper("llm_openai") == "LLM_OPENAI";
    assert Upper("api_key") == "API_KEY";
    assert Joined(["api_key"]) == "API_KEY";
    assert Joined(path) == "LLM_OPENAI" + "__" + "API_KEY";
    assert "YAYA_" + ("LLM_OPENAI" + "__" + "API_KEY") == "YAYA_" + "LLM_OPENAI" + "__" + "API_KEY";
  }

  /** What is left to another source: names of another prefix, names without the delimiter,
      and namespaces that are declared settings, however they are written. */
  lemma IgnoredIff(declared: set<string>, name: string, value: string)
    ensures Parsed(declared, name, value) == None <==>
      || !("YAYA_" <= name)
      || Find(name[5..], "__") == -1
      || Lower(name[5..][..Find(name[5..], "__")]) in declared
  {
  }

  /** Setting the variable named after a path of plain parts assigns to that path. */
  lemma NameRoundTrip(declared: set<string>, path: seq<string>, value: string)
    requires |path| >= 2 && PlainPath(path) && path[0] !in declared
    ensures Parsed(declared, EnvName(path), value) == Some(Puts(path, value))
  {
    hide PlainPart, Find, Split;
    var u, rest := Upper(path[0]), Joined(path[1..]);
    UpperNotEmpty(path[0]);
    LowerUpper(path[0]);
    DelimAtEnd(path[0], rest);
    SplitJoined(path[1..]);
    var s := u + ENV_DELIM + rest;
    assert EnvName(path)[5..] == s;
    assert s[..|u|] == u && s[|u| + 2..] == rest;
    assert path == [path[0]] + path[1..];
  }
}
