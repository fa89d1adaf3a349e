/** Several compactions of one session at once: when each ordinary entry is in exactly one
    summary, and when not. */
module CompactionOverlap {
  import opened Common
  import opened Tape
  import opened Compaction

  /** Each ordinary entry is in exactly one window summarised, or cut off while its
      summariser runs, or in the tail. */
  predicate EachOnce(s: State) {
    multiset(Covered(s)) == multiset(Ordinary(s.tape))
  }

  predicate AlwaysOnce(s: State, ops: seq<Op>)
    requires Allowed(s, ops)
    decreases |ops|
  {
    EachOnce(s) && (ops == [] || AlwaysOnce(Apply(s, ops[0]), ops[1..]))
  }

  /** The store numbers entries upwards. */
  predicate Numbered(es: seq<Entry>, last: nat) {
    && (forall i, j | 0 <= i < j < |es| :: es[i].id < es[j].id)
    && (forall i | 0 <= i < |es| :: es[i].id <= last)
  }

  ghost predicate Good(s: State) {
    Inv(s) && Numbered(Tail(s.tape), |s.tape|)
  }

  // -- windows as bags ---------------------------------------------------------------------------

  function Bag(ws: seq<seq<Entry>>): multiset<Entry> {
    multiset(Flat(ws))
  }

  lemma BagAppend(ws: seq<seq<Entry>>, w: seq<Entry>)
    ensures Bag(ws + [w]) == Bag(ws) + multiset(w) && Bag([]) == multiset{}
  {
    FlatAppend(ws, w);
  }

  lemma WindowBagAppend(held: seq<Held>, h: Held, detached: bool)
    ensures Bag(Windows(held + [h], detached)) ==
      Bag(Windows(held, detached)) + if h.detached == detached then multiset(h.window) else multiset{}
  {
    hide Bag, Windows;
    WindowsAppend(held, h, detached);
    BagAppend(Windows(held, detached), h.window);
    assert Windows(held, detached) + [] == Windows(held, detached);
  }

  lemma LastHeld(held: seq<Held>)
    requires held != []
    ensures held == held[..|held| - 1] + [held[|held| - 1]]
  {
  }

  /** Taking one window away. */
  lemma {:induction false} WindowBagWithout(held: seq<Held>, i: nat, detached: bool)
    requires i < |held|
    ensures Bag(Windows(held, detached)) ==
      Bag(Windows(WithoutAt(held, i), detached))
      + if held[i].detached == detached then multiset(held[i].window) else multiset{}
  {
    hide Bag, Windows;
    var n := |held| - 1;
    LastHeld(held);
    WindowBagAppend(held[..n], held[n], detached);
    if i == n {
      assert WithoutAt(held, i) == held[..n];
    } else {
      WindowBagWithout(held[..n], i, detached);
      assert WithoutAt(held, i) == WithoutAt(held[..n], i) + [held[n]];
      WindowBagAppend(WithoutAt(held[..n], i), held[n], detached);
    }
  }

  /** Cutting all of them off. */
  lemma {:induction false} DetachedBag(held: seq<Held>)
    ensures Windows(Detached(held), false) == []
    ensures Bag(Windows(Detached(held), true)) == Bag(Windows(held, true)) + Bag(Windows(held, false))
  {
    hide Bag, Windows;
    if held == [] {
      WindowsAppend([], Held([], true), true);
      WindowsAppend([], Held([], true), false);
      BagAppend([], []);
    } else {
      var n := |held| - 1;
      LastHeld(held);
      DetachedBag(held[..n]);
      assert Detached(held) == Detached(held[..n]) + [Held(held[n].window, true)];
      WindowsAppend(Detached(held[..n]), Held(held[n].window, true), false);
      WindowBagAppend(Detached(held[..n]), Held(held[n].window, true), true);
      WindowBagAppend(held[..n], held[n], true);
      WindowBagAppend(held[..n], held[n], false);
    }
  }

  lemma CoveredBag(s: State)
    ensures multiset(Covered(s)) == Bag(s.done) + Bag(Windows(s.held, true)) + multiset(Tail(s.tape))
  {
    hide Tail, Windows, Flat;
  }

  // -- what an anchor needs ---------------------------------------------------------------------------

  /** Beginnings of the tail, none of them empty. */
  predicate Heads(ws: seq<seq<Entry>>, tail: seq<Entry>) {
    forall i | 0 <= i < |ws| :: ws[i] != [] && ws[i] <= tail
  }

  lemma {:induction false} AheadAreHeads(held: seq<Held>, tail: seq<Entry>)
    requires forall h | h in held :: h.window != [] && (!h.detached ==> h.window <= tail)
    ensures Heads(Windows(held, false), tail)
  {
    if held != [] {
      var n := |held| - 1;
      AheadAreHeads(held[..n], tail);
      assert held[n] in held;
    }
  }

  lemma {:induction false} FirstInEach(ws: seq<seq<Entry>>, tail: seq<Entry>)
    requires Heads(ws, tail) && tail != []
    ensures Bag(ws)[tail[0]] >= |ws|
  {
    hide Bag;
    if ws == [] {
      BagAppend([], []);
    } else {
      var n := |ws| - 1;
      FirstInEach(ws[..n], tail);
      assert ws == ws[..n] + [ws[n]] && ws[n][0] == tail[0];
      BagAppend(ws[..n], ws[n]);
      assert tail[0] in ws[n];
    }
  }

  lemma FirstOnce(tail: seq<Entry>, last: nat)
    requires Numbered(tail, last) && tail != []
    ensures multiset(tail)[tail[0]] == 1
  {
    assert tail == [tail[0]] + tail[1..];
    assert tail[0] !in tail[1..];
  }

  /** The windows under way make up the tail exactly if one of them is all of it and there
      is no other: a second one would hold the first entry again. */
  lemma BagIsTailIff(ws: seq<seq<Entry>>, tail: seq<Entry>, last: nat)
    requires Heads(ws, tail) && Numbered(tail, last)
    ensures Bag(ws) == multiset(tail) <==> ws == if tail == [] then [] else [tail]
  {
    hide Bag;
    BagAppend([], tail);
    assert [] + [tail] == [tail];
    TailOfHeads(ws, tail);
    if tail != [] && Bag(ws) == multiset(tail) {
      FirstInEach(ws, tail);
      FirstOnce(tail, last);
      assert tail[0] in multiset(tail) && ws != [];
      var w := ws[0];
      BagAppend([], w);
      assert ws == [] + [w];
      assert |multiset(w)| == |w| && |multiset(tail)| == |tail|;
      assert w <= tail && w == tail;
    }
  }

  lemma TailOfHeads(ws: seq<seq<Entry>>, tail: seq<Entry>)
    requires Heads(ws, tail)
    ensures ws != [] ==> tail != []
  {
    if ws != [] {
      assert ws[0] != [] && ws[0] <= tail;
    }
  }

  // -- one step ---------------------------------------------------------------------------------------

  lemma Grown(tape: seq<Entry>, e: Entry)
    requires Numbered(Tail(tape), |tape|) && !e.kind.Anchor?
    ensures Numbered(Tail(Put(tape, e)), |tape| + 1)
  {
    hide Tail, Ordinary, IsHandoff;
    PutEffect(tape, e);
  }

  lemma StaysGood(s: State, op: Op)
    requires Good(s) && Enabled(s, op)
    ensures Good(Apply(s, op))
  {
    hide Tail, Ordinary, Handoff, CompactionState, Put, IsHandoff;
    match op
    case Append(e) =>
      Grown(s.tape, e);
      PutEffect(s.tape, e);
      PutLength(s.tape, e);
    case ForeignAnchor(name, state) => HandoffEffect(s.tape, name, state);
    case Complete(i, summary, tokensBefore) =>
      HandoffEffect(s.tape, "compaction", CompactionState(summary, tokensBefore));
    case _ =>
  }

  lemma PutLength(tape: seq<Entry>, e: Entry)
    ensures |Put(tape, e)| == |tape| + 1
  {
  }

  lemma AnchorBalance(s: State, op: Op)
    requires Enabled(s, op) && (op.ForeignAnchor? || op.Complete?)
    ensures var t := Apply(s, op);
      && multiset(Covered(t)) + multiset(Tail(s.tape)) == multiset(Covered(s)) + Bag(Windows(s.held, false))
      && Ordinary(t.tape) == Ordinary(s.tape)
  {
    hide Tail, Ordinary, Handoff, CompactionState, Windows, Covered, Bag, Detached, WithoutAt;
    var t := Apply(s, op);
    CoveredBag(s);
    CoveredBag(t);
    if op.ForeignAnchor? {
      HandoffEffect(s.tape, op.name, op.state);
      DetachedBag(s.held);
    } else {
      HandoffEffect(s.tape, "compaction", CompactionState(op.summary, op.tokensBefore));
      DetachedBag(WithoutAt(s.held, op.i));
      WindowBagWithout(s.held, op.i, true);
      WindowBagWithout(s.held, op.i, false);
      BagAppend(s.done, s.held[op.i].window);
    }
  }

  lemma AnchorStep(s: State, op: Op)
    requires Good(s) && EachOnce(s) && Enabled(s, op) && (op.ForeignAnchor? || op.Complete?)
    ensures EachOnce(Apply(s, op)) <==> Ready(s)
  {
    hide Tail, Ordinary, Covered, Bag, Windows, Apply;
    AnchorBalance(s, op);
    AheadAreHeads(s.held, Tail(s.tape));
    BagIsTailIff(Windows(s.held, false), Tail(s.tape), |s.tape|);
    Balanced(multiset(Covered(Apply(s, op))), multiset(Tail(s.tape)), multiset(Covered(s)),
      Bag(Windows(s.held, false)));
  }

  lemma Balanced<T>(a: multiset<T>, b: multiset<T>, c: multiset<T>, d: multiset<T>)
    requires a + b == c + d
    ensures a == c <==> b == d
  {
    assert forall x :: a[x] + b[x] == (a + b)[x] == c[x] + d[x];
  }

  lemma FailStepOnce(s: State, i: nat)
    requires Good(s) && EachOnce(s) && i < |s.held|
    ensures EachOnce(Apply(s, Fail(i))) <==> !s.held[i].detached
  {
    hide Tail, Ordinary, Covered, Bag, Windows, WithoutAt;
    CoveredBag(s);
    CoveredBag(Apply(s, Fail(i)));
    WindowBagWithout(s.held, i, true);
    assert s.held[i] in s.held && s.held[i].window[0] in multiset(s.held[i].window);
  }

  lemma AppendStepOnce(s: State, e: Entry)
    requires EachOnce(s) && !e.kind.Anchor?
    ensures EachOnce(Apply(s, Append(e)))
  {
    hide Tail, Ordinary, Covered, Bag, Windows, Put, IsHandoff;
    PutEffect(s.tape, e);
    CoveredBag(s);
    CoveredBag(Apply(s, Append(e)));
  }

  lemma BeginStepOnce(s: State)
    requires EachOnce(s)
    ensures EachOnce(Apply(s, Begin))
  {
    hide Tail, Ordinary, Covered, Bag, Windows;
    CoveredBag(s);
    CoveredBag(Apply(s, Begin));
    WindowBagAppend(s.held, Held(Tail(s.tape), false), true);
  }

  lemma StepOnceIff(s: State, op: Op)
    requires Good(s) && EachOnce(s) && Enabled(s, op)
    ensures EachOnce(Apply(s, op)) <==> Keeps(s, op)
  {
    hide EachOnce, Good, Ready;
    match op
    case Append(e) => AppendStepOnce(s, e);
    case Begin => BeginStepOnce(s);
    case Fail(i) => FailStepOnce(s, i);
    case _ => AnchorStep(s, op);
  }

  // -- whole runs ---------------------------------------------------------------------------------------

  lemma {:induction false} RunOnceIff(s: State, ops: seq<Op>)
    requires Good(s) && EachOnce(s) && Allowed(s, ops)
    ensures AlwaysOnce(s, ops) <==> AllKept(s, ops)
    decreases |ops|
  {
    hide Good, EachOnce, Apply, Enabled, Keeps;
    if ops != [] {
      StepOnceIff(s, ops[0]);
      StaysGood(s, ops[0]);
      if Keeps(s, ops[0]) {
        RunOnceIff(Apply(s, ops[0]), ops[1..]);
      } else {
        NotOnce(Apply(s, ops[0]), ops[1..]);
      }
    }
  }

  lemma NotOnce(s: State, ops: seq<Op>)
    requires Allowed(s, ops) && !EachOnce(s)
    ensures !AlwaysOnce(s, ops)
  {
  }

  lemma FreshIsGood()
    ensures Good(Fresh) && EachOnce(Fresh)
  {
  }

  /** The exact condition, over every interleaving of writers, foreign anchors and any number
      of compactions under way at once: at every moment each ordinary entry is in exactly one
      window or the tail if and only if every anchor was written when all of the tail had been
      handed to one compaction and to no other, and no cut-off window failed. */
  lemma EachOnceIff(ops: seq<Op>)
    requires Allowed(Fresh, ops)
    ensures AlwaysOnce(Fresh, ops) <==> AllKept(Fresh, ops)
  {
    hide AlwaysOnce, AllKept, Allowed, Good, EachOnce;
    FreshIsGood();
    RunOnceIff(Fresh, ops);
  }

  // -- two at once ---------------------------------------------------------------------------------------

  /** Two compactions of the same tail under way. */
  function TwoBegun(e: Entry): (s: State)
    requires e.kind.Message?
    ensures s.held == [Held([e.(id := 1)], false), Held([e.(id := 1)], false)] && s.done == []
  {
    hide Tail, Ordinary, Put, IsHandoff;
    NothingYet();
    PutEffect([], e);
    MessageIsNoMark(e);
    var s := Apply(Fresh, Append(e));
    assert Tail(s.tape) == [e.(id := 1)];
    Apply(Apply(s, Begin), Begin)
  }

  lemma MessageIsNoMark(e: Entry)
    ensures e.kind.Message? ==> !IsHandoff(e)
  {
  }

  lemma TwoAreNotReady(s: State, w: seq<Entry>)
    requires s.held == [Held(w, false), Held(w, false)]
    ensures !Ready(s) && Detached(WithoutAt(s.held, 0)) == [Held(w, true)]
  {
    hide Tail;
    var h := Held(w, false);
    assert s.held == [h] + [h];
    WindowsAppend([h], h, false);
    AtMostOne([h], false);
    assert WithoutAt(s.held, 0) == [h];
  }

  /** Two compactions of the same tail: both summaries are written, and the entry is in
      both windows. */
  lemma TwoAtOnceSummariseTwice(e: Entry, first: string, second: string)
    requires e.kind.Message?
    ensures !Keeps(TwoBegun(e), Complete(0, first, 0))
    ensures var t := Apply(TwoBegun(e), Complete(0, first, 0));
      t.held == [Held([e.(id := 1)], true)] && Apply(t, Complete(0, second, 0)).done == [[e.(id := 1)], [e.(id := 1)]]
  {
    hide TwoBegun, Tail, Handoff, CompactionState, Ready, WithoutAt, Detached;
    TwoAreNotReady(TwoBegun(e), [e.(id := 1)]);
  }
}
