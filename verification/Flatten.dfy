/** Flattening nested dictionaries into dotted keys, and the scoped view that undoes it. */
module Flatten {
  import opened Common
  import opened Text
  import opened EnvConfig
  import opened EnvNames
  import opened Writes
  import Tape

  type Flat = map<string, Tape.Json>
  type LeafAt = (seq<string>, string)

  function FlattenTree(prefix: string, t: Tree, out: Flat): Flat
    decreases t
  {
    match t
    case Leaf(v) => out[prefix := Tape.Str(v)]
    case Node(kids) => FlattenDict(prefix, kids, out)
  }

  function FlattenDict(prefix: string, d: Dict, out: Flat): Flat
    decreases d
  {
    match d
    case Empty => out
    case Entry(k, t, rest) => FlattenDict(prefix, rest, FlattenTree(prefix + "." + k, t, out))
  }

  /** The plugin part of a flattened configuration. */
  function FlattenExtras(base: Flat, extras: Dict): Flat {
    FlattenDict("plugin", extras, base)
  }

  // -- the leaves, and the keys they are written under ----------------------------------------

  function LeavesTree(t: Tree): seq<LeafAt> {
    match t
    case Leaf(v) => [([], v)]
    case Node(kids) => LeavesDict(kids)
  }

  function LeavesDict(d: Dict): seq<LeafAt> {
    match d
    case Empty => []
    case Entry(k, t, rest) => Under(k, LeavesTree(t)) + LeavesDict(rest)
  }

  function Under(k: string, ls: seq<LeafAt>): seq<LeafAt> {
    seq(|ls|, i requires 0 <= i < |ls| => ([k] + ls[i].0, ls[i].1))
  }

  function Dotted(prefix: string, path: seq<string>): string
    decreases |path|
  {
    if path == [] then prefix else Dotted(prefix + "." + path[0], path[1..])
  }

  function Keyed(prefix: string, ls: seq<LeafAt>): seq<(string, Tape.Json)> {
    seq(|ls|, i requires 0 <= i < |ls| => (Dotted(prefix, ls[i].0), Tape.Str(ls[i].1)))
  }

  lemma KeyedUnder(prefix: string, k: string, ls: seq<LeafAt>)
    ensures Keyed(prefix, Under(k, ls)) == Keyed(prefix + "." + k, ls)
  {
    forall i | 0 <= i < |ls| ensures Dotted(prefix, [k] + ls[i].0) == Dotted(prefix + "." + k, ls[i].0) {
      assert ([k] + ls[i].0)[1..] == ls[i].0;
    }
  }

  lemma KeyedConcat(prefix: string, a: seq<LeafAt>, b: seq<LeafAt>)
    ensures Keyed(prefix, a + b) == Keyed(prefix, a) + Keyed(prefix, b)
  {
  }

  lemma {:induction false} TreeIsLeaves(prefix: string, t: Tree, out: Flat)
    ensures FlattenTree(prefix, t, out) == WriteAll(out, Keyed(prefix, LeavesTree(t)))
    decreases t
  {
    if t.Leaf? {
      assert Keyed(prefix, LeavesTree(t)) == [(prefix, Tape.Str(t.value))];
      assert Keyed(prefix, LeavesTree(t))[1..] == [];
    } else {
      DictIsLeaves(prefix, t.kids, out);
    }
  }

  /** Flattening writes the leaves in order, each under its dotted path. */
  lemma {:induction false} DictIsLeaves(prefix: string, d: Dict, out: Flat)
    ensures FlattenDict(prefix, d, out) == WriteAll(out, Keyed(prefix, LeavesDict(d)))
    decreases d
  {
    if d.Entry? {
      TreeIsLeaves(prefix + "." + d.key, d.tree, out);
      KeyedUnder(prefix, d.key, LeavesTree(d.tree));
      KeyedConcat(prefix, Under(d.key, LeavesTree(d.tree)), LeavesDict(d.rest));
      WriteAllConcat(out, Keyed(prefix + "." + d.key, LeavesTree(d.tree)), Keyed(prefix, LeavesDict(d.rest)));
      DictIsLeaves(prefix, d.rest, WriteAll(out, Keyed(prefix + "." + d.key, LeavesTree(d.tree))));
    }
  }

  lemma InUnder(k: string, ls: seq<LeafAt>, path: seq<string>, v: string)
    ensures (path, v) in Under(k, ls) <==> path != [] && path[0] == k && (path[1..], v) in ls
  {
    if (path, v) in Under(k, ls) {
      var i :| 0 <= i < |ls| && Under(k, ls)[i] == (path, v);
      assert path == [k] + ls[i].0 && path[1..] == ls[i].0;
      assert ls[i] == (path[1..], v);
    }
    if path != [] && path[0] == k && (path[1..], v) in ls {
      var i :| 0 <= i < |ls| && ls[i] == (path[1..], v);
      assert path == [k] + path[1..];
      assert Under(k, ls)[i] == (path, v);
    }
  }

  lemma {:induction false} LeavesAreLookups(d: Dict, path: seq<string>, v: string)
    requires NoTwins(d)
    ensures (path, v) in LeavesDict(d) <==> Lookup(d, path) == Some(v)
  {
    if d.Entry? {
      InUnder(d.key, LeavesTree(d.tree), path, v);
      LeavesAreLookups(d.rest, path, v);
      if path != [] && path[0] == d.key {
        if d.tree.Leaf? {
          assert (path[1..], v) in [([], d.tree.value)] <==> path[1..] == [] && v == d.tree.value;
        } else {
          LeavesAreLookups(d.tree.kids, path[1..], v);
        }
      }
    }
  }

  // -- dotted keys can be read back -------------------------------------------------------------

  predicate DotFree(path: seq<string>) {
    forall i | 0 <= i < |path| :: '.' !in path[i]
  }

  function DotJoin(path: seq<string>): string
    requires path != []
  {
    if |path| == 1 then path[0] else path[0] + "." + DotJoin(path[1..])
  }

  lemma {:induction false} DottedIsJoin(prefix: string, path: seq<string>)
    requires path != []
    ensures Dotted(prefix, path) == prefix + "." + DotJoin(path)
    decreases |path|
  {
    var p := prefix + "." + path[0];
    if |path| == 1 {
      assert Dotted(p, path[1..]) == p;
    } else {
      DottedIsJoin(p, path[1..]);
      Regroup4(prefix, path[0], DotJoin(path[1..]));
    }
  }

  lemma Regroup4(a: string, b: string, c: string)
    ensures (a + "." + b) + "." + c == a + "." + (b + "." + c)
  {
  }

  lemma FirstDot(a: string, b: string, u: string, w: string)
    requires '.' !in a && '.' !in b
    requires a + "." + u == b + "." + w
    ensures a == b && u == w
  {
    var s, t := a + "." + u, b + "." + w;
    assert s[|a|] == '.' && t[|b|] == '.';
    assert forall k | 0 <= k < |a| :: s[k] == a[k];
    assert forall k | 0 <= k < |b| :: t[k] == b[k];
    assert s[..|a|] == a && t[..|b|] == b;
    assert s[|a| + 1..] == u && t[|b| + 1..] == w;
  }

  lemma {:induction false} HasDot(path: seq<string>)
    requires path != [] && DotFree(path)
    ensures '.' in DotJoin(path) <==> |path| > 1
  {
    if |path| > 1 {
      assert DotJoin(path)[|path[0]|] == '.';
    }
  }

  /** Joined dot-free paths are told apart. */
  lemma {:induction false} DotJoinInjective(p: seq<string>, q: seq<string>)
    requires p != [] && q != [] && DotFree(p) && DotFree(q) && DotJoin(p) == DotJoin(q)
    ensures p == q
    decreases |p|
  {
    HasDot(p);
    HasDot(q);
    if |p| > 1 {
      FirstDot(p[0], q[0], DotJoin(p[1..]), DotJoin(q[1..]));
      DotJoinInjective(p[1..], q[1..]);
      assert p == [p[0]] + p[1..] && q == [q[0]] + q[1..];
    }
  }

  // -- the scoped view --------------------------------------------------------------------------

  function ScopedKeys(keys: set<string>, prefix: string): set<string> {
    set k | k in keys && prefix <= k :: k[|prefix|..]
  }

  /** What a view with this prefix shows: the keys under it, prefix stripped. */
  function Scoped(cache: Flat, prefix: string): Flat {
    map r | r in ScopedKeys(cache.Keys, prefix) && prefix + r in cache :: cache[prefix + r]
  }

  lemma ScopedGet(cache: Flat, prefix: string, r: string)
    ensures r in Scoped(cache, prefix) <==> prefix + r in cache
    ensures r in Scoped(cache, prefix) ==> Scoped(cache, prefix)[r] == cache[prefix + r]
  {
    if prefix + r in cache {
      assert (prefix + r)[|prefix|..] == r;
      assert r in ScopedKeys(cache.Keys, prefix);
    }
  }

  function PluginPrefix(ns: string): string {
    "plugin" + "." + ns + "."
  }

  lemma PluginKey(ns: string, r: string)
    ensures PluginPrefix(ns) + r == "plugin" + "." + (ns + "." + r)
  {
  }

  lemma DotJoinMore(path: seq<string>)
    requires |path| >= 2
    ensures DotJoin(path) == path[0] + "." + DotJoin(path[1..])
  {
  }

  // -- what every variable leaves in the flattened configuration ----------------------------------

  /** The key a variable ends up under. */
  function KeyOf(path: seq<string>): string {
    Dotted("plugin", path)
  }

  /** Environments that nesting keeps whole. */
  ghost predicate Whole(assigns: seq<Assign>) {
    && (forall i | 0 <= i < |assigns| :: ValidAssign(assigns[i]))
    && DistinctPaths(assigns) && PrefixFree(assigns)
  }

  /** No two variables with different values share a key. */
  ghost predicate KeysApart(assigns: seq<Assign>) {
    forall a, b | a in assigns && b in assigns && a.Puts? && b.Puts? && KeyOf(a.path) == KeyOf(b.path) ::
      a.value == b.value
  }

  predicate Has(a: Assign, key: string, v: string) {
    a.Puts? && KeyOf(a.path) == key && a.value == v
  }

  ghost predicate Own(assigns: seq<Assign>, key: string, v: string) {
    exists a :: a in assigns && Has(a, key, v)
  }

  predicate Found(out: Flat, a: Assign) {
    a.Puts? ==> KeyOf(a.path) in out && out[KeyOf(a.path)] == Tape.Str(a.value)
  }

  lemma WholeIsValid(assigns: seq<Assign>)
    requires Whole(assigns)
    ensures forall i | 0 <= i < |assigns| :: ValidAssign(assigns[i])
  {
  }

  /** Leaves are assignments, and every assignment is a leaf. */
  lemma LeafIsAssigned(assigns: seq<Assign>, path: seq<string>, v: string)
    requires Whole(assigns) && path != []
    ensures (path, v) in LeavesDict(Nested(assigns)) <==> Puts(path, v) in assigns
  {
    hide Lookup, Nested, LastWriter, Comparable, LeavesDict;
    NestedIsLastWriter(assigns, path);
    LeavesAreLookups(Nested(assigns), path, v);
    if LastWriter(assigns, path) == Some(v) {
      LastWriterIsThere(assigns, path);
    }
    if Puts(path, v) in assigns {
      var i :| 0 <= i < |assigns| && assigns[i] == Puts(path, v);
      Kept(assigns, i);
    }
  }

  lemma LeavesHavePaths(assigns: seq<Assign>, path: seq<string>, v: string)
    requires Whole(assigns) && (path, v) in LeavesDict(Nested(assigns))
    ensures path != [] && Puts(path, v) in assigns
  {
    hide Nested, LeavesDict;
    NestedIsLastWriter(assigns, [""]);
    LeavesAreLookups(Nested(assigns), [], v);
    if path != [] {
      LeafIsAssigned(assigns, path, v);
    }
  }

  lemma SameTail(a: string, u: string, w: string)
    requires a + u == a + w
    ensures u == w
  {
    assert (a + u)[|a|..] == u && (a + w)[|a|..] == w;
  }

  /** The writes of a flattening are assignments, each under its key, ... */
  lemma WriteIsOwned(assigns: seq<Assign>, ws: seq<(string, Tape.Json)>, i: nat)
    requires Whole(assigns) && ws == Keyed("plugin", LeavesDict(Nested(assigns))) && i < |ws|
    ensures ws[i].1.Str? && Own(assigns, ws[i].0, ws[i].1.s)
  {
    hide Nested, LeavesDict, Dotted, Whole;
    WholeIsValid(assigns);
    var l := LeavesDict(Nested(assigns))[i];
    assert l == (l.0, l.1);
    LeavesHavePaths(assigns, l.0, l.1);
    assert Has(Puts(l.0, l.1), ws[i].0, ws[i].1.s);
  }

  /** ... and every assignment is among them. */
  lemma OwnIsWritten(assigns: seq<Assign>, ws: seq<(string, Tape.Json)>, key: string, v: string)
    requires Whole(assigns) && ws == Keyed("plugin", LeavesDict(Nested(assigns))) && Own(assigns, key, v)
    ensures Writes.Writes(ws, key)
  {
    hide Nested, LeavesDict, Dotted, Whole;
    WholeIsValid(assigns);
    var a :| a in assigns && Has(a, key, v);
    PathNotEmpty(assigns, a);
    assert a == Puts(a.path, v);
    LeafIsAssigned(assigns, a.path, v);
    var ls := LeavesDict(Nested(assigns));
    var i :| 0 <= i < |ls| && ls[i] == (a.path, v);
    assert ws[i].0 == key;
  }

  lemma PathNotEmpty(assigns: seq<Assign>, a: Assign)
    requires Whole(assigns) && a in assigns && a.Puts?
    ensures a.path != []
  {
  }

  /** What stands under one key. */
  lemma KeyHolds(base: Flat, assigns: seq<Assign>, key: string, v: string)
    requires Whole(assigns) && KeysApart(assigns)
    ensures var out := FlattenExtras(base, Nested(assigns));
      && (Own(assigns, key, v) ==> key in out && out[key] == Tape.Str(v))
      && (key !in base && key in out ==> out[key].Str? && Own(assigns, key, out[key].s))
  {
    hide Nested, LeavesDict, Dotted, FlattenDict, WriteAll, Whole, Writes.Writes, Keyed, KeyOf, Own, KeysApart;
    WholeIsValid(assigns);
    var ws := Keyed("plugin", LeavesDict(Nested(assigns)));
    DictIsLeaves("plugin", Nested(assigns), base);
    if Own(assigns, key, v) {
      OwnIsWritten(assigns, ws, key, v);
    }
    if Writes.Writes(ws, key) {
      var i := AWrite(ws, key);
      WriteIsOwned(assigns, ws, i);
      forall j | 0 <= j < |ws| && ws[j].0 == key ensures ws[j].1 == ws[i].1 {
        WriteIsOwned(assigns, ws, j);
        OneOwner(assigns, key, ws[i].1.s, ws[j].1.s);
      }
      Written(base, ws, key, ws[i].1);
      if Own(assigns, key, v) {
        OneOwner(assigns, key, ws[i].1.s, v);
      }
    } else {
      Untouched(base, ws, key);
    }
  }

  lemma AWrite(ws: seq<(string, Tape.Json)>, key: string) returns (i: nat)
    requires Writes.Writes(ws, key)
    ensures i < |ws| && ws[i].0 == key
  {
    i :| 0 <= i < |ws| && ws[i].0 == key;
  }

  lemma OneOwner(assigns: seq<Assign>, key: string, v: string, w: string)
    requires KeysApart(assigns) && Own(assigns, key, v) && Own(assigns, key, w)
    ensures v == w
  {
    hide KeyOf;
    var a :| a in assigns && Has(a, key, v);
    var b :| b in assigns && Has(b, key, w);
  }

  /** The exact condition: every variable is found under its dotted path with its own
      value if and only if no two variables with different values share a key. */
  lemma EveryVariableFoundIff(base: Flat, assigns: seq<Assign>)
    requires Whole(assigns)
    ensures (forall a | a in assigns :: Found(FlattenExtras(base, Nested(assigns)), a)) <==> KeysApart(assigns)
  {
    hide Nested, FlattenExtras, Whole, KeyOf;
    WholeIsValid(assigns);
    var out := FlattenExtras(base, Nested(assigns));
    if KeysApart(assigns) {
      forall a | a in assigns ensures Found(out, a) {
        if a.Puts? {
          assert Has(a, KeyOf(a.path), a.value);
          KeyHolds(base, assigns, KeyOf(a.path), a.value);
        }
      }
    }
  }

  // -- the view of a namespace ---------------------------------------------------------------------

  ghost predicate NoPluginKeys(base: Flat) {
    forall k | k in base :: !("plugin." <= k)
  }

  lemma PluginPrefixStarts(ns: string, r: string)
    ensures "plugin." <= PluginPrefix(ns) + r
  {
  }

  /** From the environment to a plugin's view and back, for every environment whose keys
      stay apart: the view of a namespace holds a value under `r` exactly if some variable's
      dotted path is the namespace's prefix and `r`, and holds that variable's value. */
  lemma ViewIsWhatWasSet(base: Flat, assigns: seq<Assign>, ns: string, r: string, v: string)
    requires Whole(assigns) && KeysApart(assigns) && NoPluginKeys(base)
    ensures var s := Scoped(FlattenExtras(base, Nested(assigns)), PluginPrefix(ns));
      && (r in s && s[r] == Tape.Str(v) <==> Own(assigns, PluginPrefix(ns) + r, v))
      && (r in s ==> s[r].Str?)
  {
    hide Nested, FlattenExtras, Scoped, Whole, KeysApart, PluginPrefix;
    WholeIsValid(assigns);
    var out := FlattenExtras(base, Nested(assigns));
    var key := PluginPrefix(ns) + r;
    PluginPrefixStarts(ns, r);
    ScopedGet(out, PluginPrefix(ns), r);
    KeyHolds(base, assigns, key, v);
  }

  predicate Assigned(a: Assign, ns: string, r: string, v: string) {
    a.Puts? && |a.path| >= 2 && a.path[0] == ns && DotJoin(a.path[1..]) == r && a.value == v
  }

  /** Environments without a dot inside a part. */
  ghost predicate Clean(assigns: seq<Assign>) {
    Whole(assigns) && forall a | a in assigns && a.Puts? :: DotFree(a.path)
  }

  lemma KeyOfPath(ns: string, r: string, path: seq<string>, v: string)
    requires |path| >= 2 && '.' !in ns && DotFree(path)
    ensures KeyOf(path) == PluginPrefix(ns) + r <==> Assigned(Puts(path, v), ns, r, v)
  {
    DottedIsJoin("plugin", path);
    PluginKey(ns, r);
    DotJoinMore(path);
    var tail := DotJoin(path[1..]);
    if KeyOf(path) == PluginPrefix(ns) + r {
      SameTail("plugin" + ".", path[0] + "." + tail, ns + "." + r);
      FirstDot(path[0], ns, tail, r);
    }
  }

  lemma CleanPath(assigns: seq<Assign>, a: Assign)
    requires Clean(assigns) && a in assigns && a.Puts?
    ensures |a.path| >= 2 && DotFree(a.path)
  {
  }

  /** Without dots the keys stay apart, ... */
  lemma CleanKeysApart(assigns: seq<Assign>)
    requires Clean(assigns)
    ensures KeysApart(assigns)
  {
    hide Dotted, DotJoin, Clean;
    forall a, b | a in assigns && b in assigns && a.Puts? && b.Puts? && KeyOf(a.path) == KeyOf(b.path)
      ensures a.value == b.value
    {
      CleanPath(assigns, a);
      CleanPath(assigns, b);
      DottedIsJoin("plugin", a.path);
      DottedIsJoin("plugin", b.path);
      SameTail("plugin" + ".", DotJoin(a.path), DotJoin(b.path));
      DotJoinInjective(a.path, b.path);
      SamePathSameAssign(assigns, a, b);
    }
  }

  lemma SamePathSameAssign(assigns: seq<Assign>, a: Assign, b: Assign)
    requires Clean(assigns) && a in assigns && b in assigns && a.Puts? && b.Puts? && a.path == b.path
    ensures a == b
  {
    hide Comparable;
    var i :| 0 <= i < |assigns| && assigns[i] == a;
    var j :| 0 <= j < |assigns| && assigns[j] == b;
  }

  /** ... and the view of a namespace is exactly what was assigned in it. */
  lemma ViewIsNamespace(base: Flat, assigns: seq<Assign>, ns: string, r: string, v: string)
    requires Clean(assigns) && NoPluginKeys(base) && '.' !in ns
    ensures var s := Scoped(FlattenExtras(base, Nested(assigns)), PluginPrefix(ns));
      && (r in s && s[r] == Tape.Str(v) <==> exists a :: a in assigns && Assigned(a, ns, r, v))
      && (r in s ==> s[r].Str?)
  {
    hide Nested, FlattenExtras, Scoped, PluginPrefix, KeyOf, Clean, Assigned;
    CleanIsWhole(assigns);
    CleanKeysApart(assigns);
    ViewIsWhatWasSet(base, assigns, ns, r, v);
    forall a | a in assigns ensures Has(a, PluginPrefix(ns) + r, v) <==> Assigned(a, ns, r, v) {
      SameOwner(assigns, a, ns, r, v);
    }
  }

  lemma SameOwner(assigns: seq<Assign>, a: Assign, ns: string, r: string, v: string)
    requires Clean(assigns) && a in assigns && '.' !in ns
    ensures Has(a, PluginPrefix(ns) + r, v) <==> Assigned(a, ns, r, v)
  {
    hide KeyOf, PluginPrefix, Clean;
    if a.Puts? {
      CleanPath(assigns, a);
      KeyOfPath(ns, r, a.path, a.value);
    }
  }

  lemma CleanIsWhole(assigns: seq<Assign>)
    requires Clean(assigns)
    ensures Whole(assigns) && forall i | 0 <= i < |assigns| :: ValidAssign(assigns[i])
  {
  }

  /** The order in which the environment lists its variables does not matter. */
  lemma OrderDoesNotMatter(base: Flat, a: seq<Assign>, b: seq<Assign>, ns: string, r: string)
    requires Whole(a) && Whole(b) && KeysApart(a) && NoPluginKeys(base)
    requires forall x :: x in a <==> x in b
    ensures var s := Scoped(FlattenExtras(base, Nested(a)), PluginPrefix(ns));
      var t := Scoped(FlattenExtras(base, Nested(b)), PluginPrefix(ns));
      (r in s <==> r in t) && (r in s ==> s[r] == t[r])
  {
    hide Whole, Scoped, FlattenExtras, Nested, PluginPrefix, KeyOf;
    WholeIsValid(a);
    WholeIsValid(b);
    var s := Scoped(FlattenExtras(base, Nested(a)), PluginPrefix(ns));
    var t := Scoped(FlattenExtras(base, Nested(b)), PluginPrefix(ns));
    var v := if r in s && s[r].Str? then s[r].s else if r in t && t[r].Str? then t[r].s else "";
    ViewIsWhatWasSet(base, a, ns, r, v);
    ViewIsWhatWasSet(base, b, ns, r, v);
    SameOwners(a, b, PluginPrefix(ns) + r, v);
    SameOwners(b, a, PluginPrefix(ns) + r, v);
  }

  lemma SameOwners(a: seq<Assign>, b: seq<Assign>, key: string, v: string)
    requires forall x :: x in a ==> x in b
    ensures Own(a, key, v) ==> Own(b, key, v)
  {
    hide Has;
  }

  /** A variable named after a path of plain parts is what the plugin reads there. */
  lemma VariableReachesPlugin(declared: set<string>, base: Flat, env: seq<(string, string)>, path: seq<string>,
      value: string)
    requires Whole(Assigns(declared, env)) && KeysApart(Assigns(declared, env))
    requires |path| >= 2 && PlainPath(path) && path[0] !in declared
    requires (EnvName(path), value) in env
    ensures var s := Scoped(FlattenExtras(base, Nested(Assigns(declared, env))), PluginPrefix(path[0]));
      DotJoin(path[1..]) in s && s[DotJoin(path[1..])] == Tape.Str(value)
  {
    hide Whole, Scoped, FlattenExtras, Nested, PluginPrefix, Assigns, DotJoin, EnvName, Parsed, KeyOf;
    NameRoundTrip(declared, path, value);
    var i :| 0 <= i < |env| && env[i] == (EnvName(path), value);
    AssignsHas(declared, env, i);
    var assigns := Assigns(declared, env);
    var key := PluginPrefix(path[0]) + DotJoin(path[1..]);
    KeyInNamespace(path);
    assert Has(Puts(path, value), key, value);
    KeyHolds(base, assigns, key, value);
    ScopedGet(FlattenExtras(base, Nested(assigns)), PluginPrefix(path[0]), DotJoin(path[1..]));
  }

  lemma KeyInNamespace(path: seq<string>)
    requires |path| >= 2
    ensures KeyOf(path) == PluginPrefix(path[0]) + DotJoin(path[1..])
  {
    DottedIsJoin("plugin", path);
    PluginKey(path[0], DotJoin(path[1..]));
    DotJoinMore(path);
  }

  lemma {:induction false} AssignsHas(declared: set<string>, env: seq<(string, string)>, i: nat)
    requires i < |env| && Parsed(declared, env[i].0, env[i].1).Some?
    ensures Parsed(declared, env[i].0, env[i].1).value in Assigns(declared, env)
    decreases |env|
  {
    hide Parsed;
    var n := |env| - 1;
    if i < n {
      assert env[..n][i] == env[i];
      AssignsHas(declared, env[..n], i);
    }
  }

  /** With a dot inside a part two different paths share a key, and one value is gone. */
  lemma DotsCollide(v: string, w: string)
    requires v != w
    ensures var assigns := [Puts(["ns", "a.b"], v), Puts(["ns", "a", "b"], w)];
      var s := Scoped(FlattenExtras(map[], Nested(assigns)), PluginPrefix("ns"));
      && DistinctPaths(assigns) && PrefixFree(assigns) && AllKept(assigns)
      && s == map["a.b" := Tape.Str(w)]
  {
    var p, q := ["ns", "a.b"], ["ns", "a", "b"];
    var assigns := [Puts(p, v), Puts(q, w)];
    assert p[1] != q[1];
    assert !Comparable(p, q);
    AllKeptIffPrefixFree(assigns);
    TwoNested(v, w);
    TwoFlattened(v, w);
    var out := FlattenExtras(map[], Nested(assigns));
    var inner := "plugin" + "." + "ns";
    var s := Scoped(out, PluginPrefix("ns"));
    assert PluginPrefix("ns") + "a.b" == inner + "." + "a.b";
    forall r ensures r in s <==> r == "a.b" {
      ScopedGet(out, PluginPrefix("ns"), r);
      if r in s {
        SameTail(PluginPrefix("ns"), r, "a.b");
      }
    }
    ScopedGet(out, PluginPrefix("ns"), "a.b");
  }

  lemma SameKey()
    ensures ("plugin" + "." + "ns" + "." + "a") + "." + "b" == "plugin" + "." + "ns" + "." + "a.b"
  {
  }

  function Inner(v: string, w: string): Dict {
    Entry("a.b", Leaf(v), Entry("a", Node(Entry("b", Leaf(w), Empty)), Empty))
  }

  lemma TwoFlattened(v: string, w: string)
    ensures FlattenExtras(map[], Entry("ns", Node(Inner(v, w)), Empty)) ==
      map["plugin" + "." + "ns" + "." + "a.b" := Tape.Str(w)]
  {
    var inner := "plugin" + "." + "ns";
    SameKey();
    var b := Entry("b", Leaf(w), Empty);
    var one: Flat := map[inner + "." + "a.b" := Tape.Str(v)];
    assert FlattenDict(inner + "." + "a", b, one) == one[inner + "." + "a" + "." + "b" := Tape.Str(w)];
    assert FlattenDict(inner, Entry("a", Node(b), Empty), one) == one[inner + "." + "a.b" := Tape.Str(w)];
    assert FlattenDict(inner, Inner(v, w), map[]) == FlattenDict(inner, Entry("a", Node(b), Empty), one);
    assert FlattenTree(inner, Node(Inner(v, w)), map[]) == map[inner + "." + "a.b" := Tape.Str(w)];
    assert FlattenDict("plugin", Entry("ns", Node(Inner(v, w)), Empty), map[])
        == FlattenDict("plugin", Empty, FlattenTree(inner, Node(Inner(v, w)), map[]));
  }

  lemma OtherKey(d: Dict, key: string, sub: Tree)
    requires d.Entry? && d.rest == Empty && d.key != key
    ensures KidsAt(d, key) == Empty
    ensures Set(d, key, sub) == Entry(d.key, d.tree, Entry(key, sub, Empty))
  {
    assert Get(d.rest, key).None?;
  }

  lemma TwoNested(v: string, w: string)
    ensures Nested([Puts(["ns", "a.b"], v), Puts(["ns", "a", "b"], w)]) == Entry("ns", Node(Inner(v, w)), Empty)
  {
    var a, b := Puts(["ns", "a.b"], v), Puts(["ns", "a", "b"], w);
    assert [] + [a] == [a] && [a] + [b] == [a, b];
    NestedAppend([], a);
    NestedAppend([a], b);
    assert a.path[1..] == ["a.b"] && b.path[1..] == ["a", "b"] && b.path[1..][1..] == ["b"];
    assert "a.b" != "a" by { assert |"a.b"| != |"a"|; }
    var first := Entry("a.b", Leaf(v), Empty);
    var d := Insert(Empty, a.path, v);
    assert d == Entry("ns", Node(first), Empty);
    assert Insert(Empty, ["b"], w) == Entry("b", Leaf(w), Empty);
    var p := ["a", "b"];
    assert p[1..] == ["b"];
    var sub := Node(Entry("b", Leaf(w), Empty));
    OtherKey(first, p[0], sub);
    assert Insert(first, p, w) == Set(first, p[0], sub);
    assert Insert(d, b.path, w) == Entry("ns", Node(Inner(v, w)), Empty);
  }
}
