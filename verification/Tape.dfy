/** Tape entries and the JSON values they carry. */
module Tape {
  datatype Json =
    | Null
    | Bool(b: bool)
    | Num(n: int)
    | Str(s: string)
    | Arr(items: seq<Json>)
    | Obj(fields: map<string, Json>)

  type Dict = map<string, Json>

  /** The entry kinds the readers know; any other string is `Other`. */
  datatype Kind = Message | ToolCall | ToolResult | Event | Anchor | Other(name: string)

  datatype Entry = Entry(id: int, kind: Kind, payload: Dict, meta: Dict)

  /** The renderings the code leaves to Python: `str(x)` and `json.dumps(x)`. */
  datatype Codec = Codec(str: Json -> string, dumps: Json -> string)

  function Get(d: Dict, key: string, default: Json): Json {
    if key in d then d[key] else default
  }

  predicate Truthy(j: Json) {
    match j
    case Null => false
    case Bool(b) => b
    case Num(n) => n != 0
    case Str(s) => s != ""
    case Arr(items) => items != []
    case Obj(fields) => fields != map[]
  }

  /** The dictionaries in a list; anything else is dropped. */
  function DictsIn(j: Json): seq<Dict> {
    if j.Arr? then DictsOf(j.items) else []
  }

  function DictsOf(items: seq<Json>): seq<Dict> {
    if items == [] then []
    else (if items[0].Obj? then [items[0].fields] else []) + DictsOf(items[1..])
  }

  /** An anchor the compaction run wrote. */
  predicate IsCompaction(e: Entry) {
    && e.kind.Anchor?
    && var state := Get(e.payload, "state", Null);
       state.Obj? && Get(state.fields, "kind", Null) == Str("compaction")
  }

  /** The system message a compaction anchor stands for. */
  function Summary(c: Codec, e: Entry): Dict
    requires IsCompaction(e)
  {
    var value := Get(e.payload["state"].fields, "summary", Str(""));
    var text := if value.Str? then value.s else c.str(value);
    map["role" := Str("system"),
        "content" := Str(if text != "" then "[compacted history]\n" + text else "[compacted history]")]
  }

  /** Where a reader cuts the tape. */
  datatype Boundary = AtCompaction | AtAnyAnchor | AtAnchorNamed(c: Codec, name: string)

  predicate Cuts(b: Boundary, e: Entry) {
    match b
    case AtCompaction => IsCompaction(e)
    case AtAnyAnchor => e.kind.Anchor?
    case AtAnchorNamed(c, name) => e.kind.Anchor? && c.str(Get(e.payload, "name", Null)) == name
  }

  /** Index of the last entry that cuts, or -1. */
  function LastCut(b: Boundary, es: seq<Entry>): (k: int)
    ensures -1 <= k < |es|
    ensures k != -1 ==> Cuts(b, es[k])
    ensures forall i | k < i < |es| :: !Cuts(b, es[i])
  {
    if es == [] then -1
    else if Cuts(b, es[|es| - 1]) then |es| - 1
    else LastCut(b, es[..|es| - 1])
  }

  lemma LastCutIs(b: Boundary, es: seq<Entry>, k: int)
    requires -1 <= k < |es| && (k != -1 ==> Cuts(b, es[k]))
    requires forall i | k < i < |es| :: !Cuts(b, es[i])
    ensures LastCut(b, es) == k
  {
  }

  /** The entries behind the last one that cuts: the longest suffix without any. */
  function Behind(b: Boundary, es: seq<Entry>): seq<Entry> {
    var k := LastCut(b, es);
    if k == -1 then es else es[k + 1..]
  }

  lemma LastCutAppend(b: Boundary, es: seq<Entry>, e: Entry)
    ensures LastCut(b, es + [e]) == if Cuts(b, e) then |es| else LastCut(b, es)
  {
    hide Cuts;
    assert (es + [e])[..|es|] == es;
  }

  lemma DropAppend(es: seq<Entry>, e: Entry, n: nat)
    requires n <= |es|
    ensures (es + [e])[n..] == es[n..] + [e]
  {
  }

  lemma BehindAppend(b: Boundary, es: seq<Entry>, e: Entry)
    ensures LastCut(b, es + [e]) == if Cuts(b, e) then |es| else LastCut(b, es)
    ensures Behind(b, es + [e]) == if Cuts(b, e) then [] else Behind(b, es) + [e]
  {
    hide Cuts;
    LastCutAppend(b, es, e);
    if !Cuts(b, e) && LastCut(b, es) != -1 {
      DropAppend(es, e, LastCut(b, es) + 1);
    }
  }

  lemma DropSum(pre: seq<Entry>, post: seq<Entry>)
    ensures (pre + post)[|pre|..] == post
  {
  }

  /** A tape around its last cut. */
  lemma BehindSplit(b: Boundary, pre: seq<Entry>, a: Entry, post: seq<Entry>)
    requires Cuts(b, a)
    requires forall i | 0 <= i < |post| :: !Cuts(b, post[i])
    ensures var es := pre + [a] + post; LastCut(b, es) == |pre| && es[|pre|] == a && Behind(b, es) == post
    ensures LastCut(b, post) == -1 && Behind(b, post) == post
  {
    hide Cuts;
    var es := pre + [a] + post;
    DropSum(pre + [a], post);
    forall i | |pre| < i < |es| ensures !Cuts(b, es[i]) {
      assert es[i] == post[i - |pre| - 1];
    }
    LastCutIs(b, es, |pre|);
    LastCutIs(b, post, -1);
  }
}
