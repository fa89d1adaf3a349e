/** A session whose tape grows in place, and the two halves of a compaction: up to
    the await of the summariser, and behind it. */
module CompactionSession {
  import opened Common
  import opened Tape
  import opened Compaction
  import TapeStore

  /** The estimate as the loop computes it. */
  method EstimateTokens(c: Codec, es: seq<Entry>) returns (tokens: nat)
    ensures tokens == EstimateTextTokens(c, es)
  {
    var chars: nat := 0;
    Prefixes(es, 0);
    for i := 0 to |es|
      invariant chars == Chars(c, es[..i])
    {
      Prefixes(es, i);
      assert es[..i + 1][..i] == es[..i];
      chars := chars + |EntryText(c, es[i])|;
    }
    tokens := chars / 4;
  }

  class Session {
    var tape: seq<Entry>
    /** History: the windows under way and the windows summarised. */
    ghost var held: seq<Held>
    ghost var done: seq<seq<Entry>>

    ghost function View(): State reads this {
      State(tape, held, done)
    }

    constructor ()
      ensures View() == Fresh
    {
      tape, held, done := [], [], [];
    }

    method AppendEntry(e: Entry)
      requires !e.kind.Anchor?
      modifies this
      ensures View() == Apply(old(View()), Append(e))
    {
      tape := tape + [e.(id := |tape| + 1)];
    }

    method WriteHandoff(name: string, state: Dict)
      modifies `tape
      ensures tape == Handoff(old(tape), name, state)
    {
      tape := tape + [AnchorEntry(name, state).(id := |tape| + 1)];
      tape := tape + [HandoffMark(name, state).(id := |tape| + 1)];
    }

    method StampOrRename(name: string, state: Dict)
      modifies this
      ensures View() == Apply(old(View()), ForeignAnchor(name, state))
    {
      WriteHandoff(name, state);
      held := Detached(held);
    }

    method AfterLastAnchor(c: Codec) returns (out: seq<Entry>)
      ensures out == Tail(tape)
    {
      hide IsHandoff, Behind;
      var entries := TapeStore.ApplyQuery(c, tape, TapeStore.Query({}, true, None, None));
      assert entries == Behind(AtAnyAnchor, tape);
      out := [];
      Prefixes(entries, 0);
      for i := 0 to |entries|
        invariant out == WithoutHandoffs(entries[..i])
      {
        Prefixes(entries, i);
        WithoutHandoffsAppend(entries[..i], entries[i]);
        if !IsHandoff(entries[i]) {
          out := out + [entries[i]];
        }
      }
    }

    /** Up to the await: an empty window ends the run with nothing written. */
    method CompactUntilAwait(c: Codec) returns (window: seq<Entry>, tokensBefore: nat)
      modifies this
      ensures View() == Apply(old(View()), Begin)
      ensures window == Tail(old(tape)) && tokensBefore == EstimateTextTokens(c, window)
    {
      window := AfterLastAnchor(c);
      tokensBefore := EstimateTokens(c, window);
      if window != [] {
        held := held + [Held(window, false)];
      }
    }

    /** Behind the await, whatever was written meanwhile and whoever else compacts: an
        anchor with the summary, or the summariser's error passed on with the tape left
        alone. */
    method CompactAfterAwait(c: Codec, ghost i: nat, tokensBefore: nat, outcome: Option<string>)
        returns (tokensAfter: Option<nat>)
      requires i < |held|
      modifies this
      ensures outcome.Some? ==>
        && View() == Apply(old(View()), Complete(i, outcome.value, tokensBefore))
        && tokensAfter == Some(0)
      ensures outcome.None? ==> View() == Apply(old(View()), Fail(i)) && tape == old(tape) && tokensAfter == None
    {
      hide Tail, Ordinary, Handoff, CompactionState, AnchorEntry, HandoffMark;
      if outcome.None? {
        held := WithoutAt(held, i);
        return None;
      }
      HandoffEffect(tape, "compaction", CompactionState(outcome.value, tokensBefore));
      WriteHandoff("compaction", CompactionState(outcome.value, tokensBefore));
      done := done + [held[i].window];
      held := Detached(WithoutAt(held, i));
      var tail := AfterLastAnchor(c);
      var tokens := EstimateTokens(c, tail);
      tokensAfter := Some(tokens);
    }
  }
}
