/** Queries over a tape: kind filter, anchor cut and limit. */
module TapeStore {
  import opened Common
  import opened Tape

  // -- queries -------------------------------------------------------------------------

  datatype Query = Query(kinds: set<Kind>, afterLast: bool, afterAnchor: Option<string>, limit: Option<int>)

  function OfKinds(es: seq<Entry>, kinds: set<Kind>): seq<Entry> {
    if es == [] then [] else
    OfKinds(es[..|es| - 1], kinds) + if es[|es| - 1].kind in kinds then [es[|es| - 1]] else []
  }

  function LastN(es: seq<Entry>, n: nat): seq<Entry> {
    if n == 0 then [] else if |es| <= n then es else es[|es| - n..]
  }

  function Selected(es: seq<Entry>, q: Query): seq<Entry> {
    if q.kinds == {} then es else OfKinds(es, q.kinds)
  }

  function Windowed(c: Codec, es: seq<Entry>, q: Query): seq<Entry> {
    if q.afterLast then Behind(AtAnyAnchor, es)
    else if q.afterAnchor.None? then es
    else if LastCut(AtAnchorNamed(c, q.afterAnchor.value), es) == -1 then []
    else Behind(AtAnchorNamed(c, q.afterAnchor.value), es)
  }

  function Limited(es: seq<Entry>, limit: Option<int>): seq<Entry> {
    if limit.Some? && limit.value >= 0 then LastN(es, limit.value) else es
  }

  /** The answer to a query: the kind filter first, then the part behind the
      anchor asked for, then the last entries of that. */
  function Answer(c: Codec, es: seq<Entry>, q: Query): seq<Entry> {
    Limited(Windowed(c, Selected(es, q), q), q.limit)
  }

  method FilterKinds(es: seq<Entry>, kinds: set<Kind>) returns (out: seq<Entry>)
    ensures out == OfKinds(es, kinds)
  {
    out := [];
    Prefixes(es, 0);
    for i := 0 to |es|
      invariant out == OfKinds(es[..i], kinds)
    {
      Prefixes(es, i);
      assert es[..i + 1][..i] == es[..i];
      if es[i].kind in kinds {
        out := out + [es[i]];
      }
    }
  }

  lemma NothingBehind(b: Boundary)
    ensures LastCut(b, []) == -1 && Behind(b, []) == []
  {
  }

  method PruneBehind(b: Boundary, es: seq<Entry>, startSeen: bool) returns (out: seq<Entry>)
    ensures out == if !startSeen && LastCut(b, es) == -1 then [] else Behind(b, es)
  {
    hide Cuts, LastCut, Behind;
    NothingBehind(b);
    out := [];
    var seen := startSeen;
    Prefixes(es, 0);
    for i := 0 to |es|
      invariant seen == (startSeen || LastCut(b, es[..i]) != -1)
      invariant out == if seen then Behind(b, es[..i]) else []
    {
      Prefixes(es, i);
      BehindAppend(b, es[..i], es[i]);
      if Cuts(b, es[i]) {
        seen := true;
        out := [];
      } else if seen {
        out := out + [es[i]];
      }
    }
  }

  method ApplyQuery(c: Codec, es: seq<Entry>, q: Query) returns (out: seq<Entry>)
    ensures out == Answer(c, es, q)
  {
    hide Behind, LastCut;
    out := es;
    if q.kinds != {} {
      out := FilterKinds(out, q.kinds);
    }
    if q.afterLast {
      out := PruneBehind(AtAnyAnchor, out, true);
    } else if q.afterAnchor.Some? {
      out := PruneBehind(AtAnchorNamed(c, q.afterAnchor.value), out, false);
    }
    if q.limit.Some? && q.limit.value >= 0 {
      var n := q.limit.value;
      out := if n == 0 then [] else if |out| <= n then out else out[|out| - n..];
    }
  }

  predicate IsSuffix(s: seq<Entry>, es: seq<Entry>) {
    |s| <= |es| && s == es[|es| - |s|..]
  }

  /** With no kind filter, asking for what follows the last anchor gives the
      longest suffix of the tape without an anchor, cut to its last entries. */
  lemma AfterLastIsLongestSuffix(c: Codec, es: seq<Entry>, q: Query, s: seq<Entry>)
    requires q.kinds == {} && q.afterLast
    ensures var b := Behind(AtAnyAnchor, es);
      && IsSuffix(Answer(c, es, q), b)
      && |Answer(c, es, q)| == (if q.limit.Some? && 0 <= q.limit.value < |b| then q.limit.value else |b|)
      && IsSuffix(b, es) && (forall i | 0 <= i < |b| :: !b[i].kind.Anchor?)
      && (IsSuffix(s, es) && (forall i | 0 <= i < |s| :: !s[i].kind.Anchor?) ==> |s| <= |b|)
  {
    var k := LastCut(AtAnyAnchor, es);
    if IsSuffix(s, es) && k != -1 && |s| > |es| - k - 1 {
      assert s[k - (|es| - |s|)] == es[k];
    }
  }

  /** An anchor by this name, as the store compares them. */
  predicate IsAnchorNamed(c: Codec, e: Entry, name: string) {
    e.kind.Anchor? && c.str(if "name" in e.payload then e.payload["name"] else Null) == name
  }

  /** Asked for what follows a named anchor, without a kind filter or a limit, the store
      answers with what stands behind the last anchor of that name, or with nothing if there
      is none; asked for everything, with everything. */
  lemma AfterNamedAnchor(c: Codec, es: seq<Entry>, name: string, k: int)
    requires -1 <= k < |es| && (k >= 0 ==> IsAnchorNamed(c, es[k], name))
    requires forall i | k < i < |es| :: !IsAnchorNamed(c, es[i], name)
    ensures Answer(c, es, Query({}, false, Some(name), None)) == if k == -1 then [] else es[k + 1..]
    ensures Answer(c, es, Query({}, false, None, None)) == es
  {
    LastCutIs(AtAnchorNamed(c, name), es, k);
  }

  lemma {:induction false} NoAnchorOfKinds(es: seq<Entry>, kinds: set<Kind>)
    requires Anchor !in kinds
    ensures forall i | 0 <= i < |OfKinds(es, kinds)| :: !OfKinds(es, kinds)[i].kind.Anchor?
  {
    if es != [] {
      NoAnchorOfKinds(es[..|es| - 1], kinds);
    }
  }

  /** A kind filter that leaves out anchors leaves nothing to cut at: "after the
      last anchor" then answers with every entry of those kinds, however old. */
  lemma KindFilterHidesAnchors(c: Codec, es: seq<Entry>, q: Query)
    requires q.kinds != {} && Anchor !in q.kinds && q.afterLast
    ensures Answer(c, es, q) == Limited(OfKinds(es, q.kinds), q.limit)
  {
    NoAnchorOfKinds(es, q.kinds);
    LastCutIs(AtAnyAnchor, OfKinds(es, q.kinds), -1);
  }

  lemma {:induction false} OfKindsConcat(a: seq<Entry>, b: seq<Entry>, kinds: set<Kind>)
    ensures OfKinds(a + b, kinds) == OfKinds(a, kinds) + OfKinds(b, kinds)
  {
    if b == [] {
      assert a + b == a;
    } else {
      var n := |b| - 1;
      assert (a + b)[..|a + b| - 1] == a + b[..n];
      OfKindsConcat(a, b[..n], kinds);
    }
  }

  lemma {:induction false} StillNoAnchor(es: seq<Entry>, kinds: set<Kind>)
    requires forall i | 0 <= i < |es| :: !es[i].kind.Anchor?
    ensures forall i | 0 <= i < |OfKinds(es, kinds)| :: !OfKinds(es, kinds)[i].kind.Anchor?
  {
    if es != [] {
      StillNoAnchor(es[..|es| - 1], kinds);
    }
  }

  /** The exact condition: cutting what the kind filter left is filtering what stands
      behind the last anchor if and only if the filter keeps anchors, or there is none,
      or it keeps nothing up to the last one. */
  lemma KindFilterCutsRightIff(es: seq<Entry>, kinds: set<Kind>)
    ensures var k := LastCut(AtAnyAnchor, es);
      Behind(AtAnyAnchor, OfKinds(es, kinds)) == OfKinds(Behind(AtAnyAnchor, es), kinds)
      <==> Anchor in kinds || k == -1 || OfKinds(es[..k + 1], kinds) == []
  {
    hide LastCut;
    var k := LastCut(AtAnyAnchor, es);
    if k == -1 {
      StillNoAnchor(es, kinds);
      LastCutIs(AtAnyAnchor, OfKinds(es, kinds), -1);
    } else {
      var pre, post := es[..k + 1], es[k + 1..];
      assert es == pre + post;
      OfKindsConcat(pre, post, kinds);
      StillNoAnchor(post, kinds);
      var left := OfKinds(post, kinds);
      if Anchor in kinds {
        assert pre[..k] == es[..k];
        assert OfKinds(pre, kinds) == OfKinds(es[..k], kinds) + [es[k]];
        BehindSplit(AtAnyAnchor, OfKinds(es[..k], kinds), es[k], left);
      } else {
        NoAnchorOfKinds(es, kinds);
        LastCutIs(AtAnyAnchor, OfKinds(es, kinds), -1);
        assert OfKinds(pre, kinds) + left == left <==> OfKinds(pre, kinds) == [] by {
          assert |OfKinds(pre, kinds) + left| == |OfKinds(pre, kinds)| + |left|;
        }
      }
    }
  }
}
