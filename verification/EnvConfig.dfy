/** `YAYA_<NS>__<KEY>...` environment variables: nested into dictionaries, then
    flattened into dotted keys. */
module EnvConfig {
  import opened Common

  // -- nested dictionaries, in insertion order -----------------------------------------------

  datatype Tree = Leaf(value: string) | Node(kids: Dict)
  datatype Dict = Empty | Entry(key: string, tree: Tree, rest: Dict)

  function Get(d: Dict, key: string): Option<Tree> {
    match d
    case Empty => None
    case Entry(k, t, rest) => if k == key then Some(t) else Get(rest, key)
  }

  /** `d[key] = tree`: in place when the key is there, else at the end. */
  function Set(d: Dict, key: string, tree: Tree): Dict {
    match d
    case Empty => Entry(key, tree, Empty)
    case Entry(k, t, rest) => if k == key then Entry(k, tree, rest) else Entry(k, t, Set(rest, key, tree))
  }

  predicate NoTwins(d: Dict) {
    match d
    case Empty => true
    case Entry(k, t, rest) => Get(rest, k).None? && (t.Node? ==> NoTwins(t.kids)) && NoTwins(rest)
  }

  lemma SetGet(d: Dict, key: string, tree: Tree, other: string)
    ensures Get(Set(d, key, tree), other) == if other == key then Some(tree) else Get(d, other)
  {
  }

  lemma SetKeepsNoTwins(d: Dict, key: string, tree: Tree)
    requires NoTwins(d) && (tree.Node? ==> NoTwins(tree.kids))
    ensures NoTwins(Set(d, key, tree))
  {
    if d.Entry? && d.key != key {
      SetGet(d.rest, key, tree, d.key);
    }
  }

  lemma GetKeepsNoTwins(d: Dict, key: string)
    requires NoTwins(d)
    ensures var t := Get(d, key); t.Some? && t.value.Node? ==> NoTwins(t.value.kids)
  {
  }

  // -- one assignment ------------------------------------------------------------------------

  function KidsAt(d: Dict, key: string): Dict {
    var t := Get(d, key);
    if t.Some? && t.value.Node? then t.value.kids else Empty
  }

  /** Walk to the last part, replacing whatever is no dictionary, and assign there. */
  function Insert(d: Dict, path: seq<string>, value: string): Dict
    requires path != []
    decreases |path|
  {
    Set(d, path[0], if |path| == 1 then Leaf(value) else Node(Insert(KidsAt(d, path[0]), path[1..], value)))
  }

  function Lookup(d: Dict, path: seq<string>): Option<string>
    decreases |path|
  {
    if path == [] then None else
    var t := Get(d, path[0]);
    if t.None? then None
    else if t.value.Leaf? then (if |path| == 1 then Some(t.value.value) else None)
    else Lookup(t.value.kids, path[1..])
  }

  predicate Comparable(p: seq<string>, q: seq<string>) {
    p <= q || q <= p
  }

  lemma ComparableTails(p: seq<string>, q: seq<string>)
    requires p != [] && q != []
    ensures Comparable(p, q) <==> p[0] == q[0] && Comparable(p[1..], q[1..])
    ensures p == q <==> p[0] == q[0] && p[1..] == q[1..]
  {
    assert p == [p[0]] + p[1..] && q == [q[0]] + q[1..];
  }

  /** An assignment shows at its own path, hides every path above and below it and
      leaves all others alone. */
  lemma {:induction false} InsertLookup(d: Dict, p: seq<string>, value: string, q: seq<string>)
    requires p != [] && q != []
    ensures Lookup(Insert(d, p, value), q) ==
      if q == p then Some(value) else if Comparable(p, q) then None else Lookup(d, q)
    decreases |p|
  {
    hide Comparable;
    ComparableTails(p, q);
    var sub := if |p| == 1 then Leaf(value) else Node(Insert(KidsAt(d, p[0]), p[1..], value));
    SetGet(d, p[0], sub, q[0]);
    if p[0] == q[0] {
      if |p| == 1 || |q| == 1 {
        EmptyTail(p[1..], q[1..]);
      } else {
        InsertLookup(KidsAt(d, p[0]), p[1..], value, q[1..]);
      }
    }
  }

  lemma EmptyTail(p: seq<string>, q: seq<string>)
    requires p == [] || q == []
    ensures Comparable(p, q)
  {
  }

  lemma {:induction false} InsertKeepsNoTwins(d: Dict, path: seq<string>, value: string)
    requires path != [] && NoTwins(d)
    ensures NoTwins(Insert(d, path, value))
    decreases |path|
  {
    GetKeepsNoTwins(d, path[0]);
    if |path| > 1 {
      InsertKeepsNoTwins(KidsAt(d, path[0]), path[1..], value);
      SetKeepsNoTwins(d, path[0], Node(Insert(KidsAt(d, path[0]), path[1..], value)));
    } else {
      SetKeepsNoTwins(d, path[0], Leaf(value));
    }
  }

  // -- many assignments ----------------------------------------------------------------------

  /** A variable's effect: the namespace alone, or a path below it with a value. */
  datatype Assign = Touch(ns: string) | Puts(path: seq<string>, value: string)

  predicate ValidAssign(a: Assign) {
    a.Puts? ==> |a.path| >= 2
  }

  function Applied(d: Dict, a: Assign): Dict
    requires ValidAssign(a)
  {
    match a
    case Touch(ns) => if Get(d, ns).Some? then d else Set(d, ns, Node(Empty))
    case Puts(path, value) => Insert(d, path, value)
  }

  /** A variable that names a namespace alone makes sure the namespace is there, and changes
      nothing else. */
  lemma TouchIs(d: Dict, ns: string, other: string)
    ensures Get(Applied(d, Touch(ns)), ns) == if Get(d, ns).Some? then Get(d, ns) else Some(Node(Empty))
    ensures other != ns ==> Get(Applied(d, Touch(ns)), other) == Get(d, other)
  {
    SetGet(d, ns, Node(Empty), ns);
    SetGet(d, ns, Node(Empty), other);
  }

  function Nested(assigns: seq<Assign>): Dict
    requires forall i | 0 <= i < |assigns| :: ValidAssign(assigns[i])
  {
    if assigns == [] then Empty else Applied(Nested(assigns[..|assigns| - 1]), assigns[|assigns| - 1])
  }

  /** The reference: the last assignment to this path, unless a later one went to a
      path above or below it. */
  function LastWriter(assigns: seq<Assign>, path: seq<string>): Option<string> {
    if assigns == [] then None else
    var a := assigns[|assigns| - 1];
    if a.Puts? && Comparable(a.path, path) then (if a.path == path then Some(a.value) else None)
    else LastWriter(assigns[..|assigns| - 1], path)
  }

  lemma TouchLookup(d: Dict, ns: string, path: seq<string>)
    requires path != []
    ensures Lookup(Applied(d, Touch(ns)), path) == Lookup(d, path)
  {
    if Get(d, ns).None? {
      SetGet(d, ns, Node(Empty), path[0]);
    }
  }

  /** Nesting keeps exactly what the last writer of each path left. */
  lemma {:induction false} NestedIsLastWriter(assigns: seq<Assign>, path: seq<string>)
    requires forall i | 0 <= i < |assigns| :: ValidAssign(assigns[i])
    requires path != []
    ensures NoTwins(Nested(assigns))
    ensures Lookup(Nested(assigns), path) == LastWriter(assigns, path)
  {
    hide Comparable, Lookup, Insert, NoTwins;
    if assigns != [] {
      var n := |assigns| - 1;
      var before, a := assigns[..n], assigns[n];
      NestedIsLastWriter(before, path);
      if a.Touch? {
        TouchLookup(Nested(before), a.ns, path);
        if Get(Nested(before), a.ns).None? {
          EmptyNoTwins();
          SetKeepsNoTwins(Nested(before), a.ns, Node(Empty));
        }
      } else {
        Reflexive(path);
        InsertLookup(Nested(before), a.path, a.value, path);
        InsertKeepsNoTwins(Nested(before), a.path, a.value);
      }
    } else {
      EmptyNoTwins();
      assert Lookup(Empty, path) == None by { NothingThere(path); }
    }
  }

  lemma EmptyNoTwins()
    ensures NoTwins(Empty)
  {
  }

  lemma NothingThere(path: seq<string>)
    ensures Lookup(Empty, path) == None
  {
  }

  // -- when every variable keeps its value -----------------------------------------------------

  ghost predicate PrefixFree(assigns: seq<Assign>) {
    forall i, j | 0 <= i < j < |assigns| && assigns[i].Puts? && assigns[j].Puts? ::
      !Comparable(assigns[i].path, assigns[j].path)
  }

  ghost predicate DistinctPaths(assigns: seq<Assign>) {
    forall i, j | 0 <= i < j < |assigns| && assigns[i].Puts? && assigns[j].Puts? ::
      assigns[i].path != assigns[j].path
  }

  ghost predicate AllKept(assigns: seq<Assign>)
    requires forall i | 0 <= i < |assigns| :: ValidAssign(assigns[i])
  {
    forall i | 0 <= i < |assigns| && assigns[i].Puts? ::
      Lookup(Nested(assigns), assigns[i].path) == Some(assigns[i].value)
  }

  /** A comparable later assignment to another path is what hides an earlier one. */
  lemma {:induction false} Hidden(assigns: seq<Assign>, i: nat, j: nat)
    requires i < j < |assigns| && assigns[i].Puts? && assigns[j].Puts?
    requires DistinctPaths(assigns) && Comparable(assigns[i].path, assigns[j].path)
    ensures LastWriter(assigns, assigns[i].path) == None
  {
    hide Comparable;
    var n := |assigns| - 1;
    if j == n {
      Symmetric(assigns[i].path, assigns[j].path);
    } else {
      assert assigns[..n][i] == assigns[i] && assigns[..n][j] == assigns[j];
      Hidden(assigns[..n], i, j);
    }
  }

  lemma Symmetric(p: seq<string>, q: seq<string>)
    ensures Comparable(p, q) == Comparable(q, p)
  {
  }

  lemma Reflexive(p: seq<string>)
    ensures Comparable(p, p)
  {
  }

  lemma {:induction false} Kept(assigns: seq<Assign>, i: nat)
    requires i < |assigns| && assigns[i].Puts? && PrefixFree(assigns)
    ensures LastWriter(assigns, assigns[i].path) == Some(assigns[i].value)
  {
    hide Comparable;
    var n := |assigns| - 1;
    if i == n {
      Reflexive(assigns[i].path);
    } else {
      if assigns[n].Puts? {
        Symmetric(assigns[i].path, assigns[n].path);
      }
      assert assigns[..n][i] == assigns[i];
      Kept(assigns[..n], i);
    }
  }

  /** With pairwise distinct paths, every variable's value survives nesting if and only
      if no path lies above another. */
  lemma AllKeptIffPrefixFree(assigns: seq<Assign>)
    requires forall i | 0 <= i < |assigns| :: ValidAssign(assigns[i])
    requires DistinctPaths(assigns)
    ensures AllKept(assigns) <==> PrefixFree(assigns)
  {
    hide Comparable, LastWriter, Lookup, Nested;
    forall i | 0 <= i < |assigns| && assigns[i].Puts?
      ensures Lookup(Nested(assigns), assigns[i].path) == LastWriter(assigns, assigns[i].path)
      ensures PrefixFree(assigns) ==> LastWriter(assigns, assigns[i].path) == Some(assigns[i].value)
    {
      NestedIsLastWriter(assigns, assigns[i].path);
      if PrefixFree(assigns) {
        Kept(assigns, i);
      }
    }
    if !PrefixFree(assigns) {
      var i, j :| 0 <= i < j < |assigns| && assigns[i].Puts? && assigns[j].Puts?
        && Comparable(assigns[i].path, assigns[j].path);
      Hidden(assigns, i, j);
    }
  }

  /** Every value in the nested dictionary came from some variable. */
  lemma {:induction false} LastWriterIsThere(assigns: seq<Assign>, path: seq<string>)
    requires LastWriter(assigns, path).Some?
    ensures Puts(path, LastWriter(assigns, path).value) in assigns
  {
    hide Comparable;
    var n := |assigns| - 1;
    if !(assigns[n].Puts? && Comparable(assigns[n].path, path)) {
      LastWriterIsThere(assigns[..n], path);
    }
  }
}
