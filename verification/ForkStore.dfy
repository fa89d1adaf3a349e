/** A fork: the parent's tape read-only underneath, writes into a child of its own. */
module ForkStore {
  import opened Common
  import opened Tape
  import opened TapeStore

  /** What a query against a fork answers: the parent's answer, then the whole child,
      because the child is asked without the query's filters. */
  function Fetched(c: Codec, parent: seq<Entry>, child: seq<Entry>, q: Query): seq<Entry> {
    Answer(c, parent, q) + child
  }

  const Everything := Query({}, false, None, None)
  const SinceLastAnchor := Query({}, true, None, None)

  predicate NoAnchor(es: seq<Entry>) {
    forall i | 0 <= i < |es| :: !es[i].kind.Anchor?
  }

  lemma BehindHasNoAnchor(es: seq<Entry>)
    ensures NoAnchor(Behind(AtAnyAnchor, es))
  {
  }

  lemma NoAnchorSum(a: seq<Entry>, b: seq<Entry>)
    ensures NoAnchor(a + b) <==> NoAnchor(a) && NoAnchor(b)
  {
    if NoAnchor(a + b) {
      assert forall i | 0 <= i < |a| :: a[i] == (a + b)[i];
      assert forall i | 0 <= i < |b| :: b[i] == (a + b)[|a| + i];
    }
  }

  lemma {:induction false} BehindSum(a: seq<Entry>, b: seq<Entry>)
    requires NoAnchor(b)
    ensures Behind(AtAnyAnchor, a + b) == Behind(AtAnyAnchor, a) + b
  {
    if b == [] {
      assert a + b == a && Behind(AtAnyAnchor, a) + b == Behind(AtAnyAnchor, a);
    } else {
      var n := |b| - 1;
      BehindSum(a, b[..n]);
      assert a + b == (a + b[..n]) + [b[n]];
      BehindAppend(AtAnyAnchor, a + b[..n], b[n]);
      assert Behind(AtAnyAnchor, a) + b[..n] + [b[n]] == Behind(AtAnyAnchor, a) + b;
    }
  }

  /** Read as a whole a fork is the parent followed by the child. "Since the last anchor"
      means on a fork what it means on that whole exactly as long as nobody has written an
      anchor to the fork: a compaction of a fork, for one, leaves its window as long as
      before. */
  lemma ForkReads(c: Codec, parent: seq<Entry>, child: seq<Entry>)
    ensures Fetched(c, parent, child, Everything) == Answer(c, parent + child, Everything)
    ensures NoAnchor(child) <==>
      Fetched(c, parent, child, SinceLastAnchor) == Answer(c, parent + child, SinceLastAnchor)
  {
    hide Behind, NoAnchor;
    if NoAnchor(child) {
      BehindSum(parent, child);
    } else {
      BehindHasNoAnchor(parent + child);
      NoAnchorSum(Behind(AtAnyAnchor, parent), child);
    }
  }

  class ForkOverlayStore {
    /** The parent's tape as it stands; its own writers may grow it. */
    var parent: seq<Entry>
    var child: seq<Entry>

    constructor (parent: seq<Entry>)
      ensures this.parent == parent && child == []
    {
      this.parent, child := parent, [];
    }

    method Append(e: Entry)
      modifies `child
      ensures child == old(child) + [e]
    {
      child := child + [e];
    }

    method Reset()
      modifies `child
      ensures child == []
    {
      child := [];
    }

    method FetchAll(c: Codec, q: Query) returns (out: seq<Entry>)
      ensures out == Fetched(c, parent, child, q)
      ensures q == Everything ==> out == parent + child
    {
      var entries := ApplyQuery(c, parent, q);
      out := entries + child;
    }
  }
}
