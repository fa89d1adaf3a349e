/** The chunk-by-chunk `<think>` filter of the streaming LLM provider:
    its transition functions, the class that runs them in place, and how the
    dispatcher assembles the final text from it. */
module ThinkFilter {
  import opened Text
  import opened ThinkReference

  datatype State = State(buf: string, inside: bool, stripped: bool)

  const Fresh := State("", false, false)

  /** The last `m` characters of `buf` could be the start of a close tag. */
  predicate CouldClose(buf: string, m: nat) {
    m <= |buf| && StartsWith(CLOSE, buf[|buf| - m..])
  }

  /** The longest suffix of `buf`, of at most `n` characters, that could be the
      start of a close tag. */
  function KeepUpTo(buf: string, n: nat): (k: nat)
    requires n <= |buf|
    ensures k <= n
  {
    if n == 0 || CouldClose(buf, n) then n else KeepUpTo(buf, n - 1)
  }

  lemma KeepIsLongest(buf: string, n: nat)
    requires n <= |buf|
    ensures CouldClose(buf, KeepUpTo(buf, n))
    ensures forall m | KeepUpTo(buf, n) < m <= n :: !CouldClose(buf, m)
  {
  }

  function Min(a: nat, b: nat): nat { if a < b then a else b }

  function Keep(buf: string): nat {
    KeepUpTo(buf, Min(|CLOSE| - 1, |buf|))
  }

  function InsideStep(s: State): (r: (State, bool))
    requires s.inside
    ensures r.1 ==> |r.0.buf| < |s.buf|
  {
    var c := Find(s.buf, CLOSE);
    if c == -1 then (s.(buf := s.buf[|s.buf| - Keep(s.buf)..]), false)
    else (State(s.buf[c + |CLOSE|..], false, true), true)
  }

  function OutsideStep(s: State): (r: (State, string, bool))
    requires !s.inside && s.buf != ""
    ensures r.2 ==> |r.0.buf| < |s.buf|
  {
    var lt := Find(s.buf, "<");
    if lt == -1 then (s.(buf := ""), s.buf, false)
    else
      var head, tail := s.buf[..lt], s.buf[lt..];
      if |tail| < |OPEN| then
        if StartsWith(OPEN, tail) then (s.(buf := tail), head, false)
        else (s.(buf := ""), head + tail, false)
      else if StartsWith(tail, OPEN) then (s.(buf := tail[|OPEN|..], inside := true), head, true)
      else (s.(buf := tail[1..]), head + tail[..1], true)
  }

  /** The `while` loop of `feed`, on values. */
  function Loop(s: State): (r: (State, string))
    decreases |s.buf|
  {
    if s.buf == "" then (s, "")
    else if s.inside then
      var (s', more) := InsideStep(s);
      if more then Loop(s') else (s', "")
    else
      var (s', out, more) := OutsideStep(s);
      if more then
        var (s'', out') := Loop(s');
        (s'', out + out')
      else (s', out)
  }

  function FeedChunk(s: State, chunk: string): (State, string) {
    Loop(s.(buf := s.buf + chunk))
  }

  function FeedAll(s: State, chunks: seq<string>): (State, string)
    decreases |chunks|
  {
    if chunks == [] then (s, "") else
    var (s', out) := FeedChunk(s, chunks[0]);
    var (s'', out') := FeedAll(s', chunks[1..]);
    (s'', out + out')
  }

  function Flushed(s: State): string {
    if s.inside then "" else s.buf
  }

  /** Everything a stream of chunks shows: every `feed`, then `flush`. */
  function Shown(chunks: seq<string>): string {
    var (s, out) := FeedAll(Fresh, chunks);
    out + Flushed(s)
  }

  /** The `text` of the final `llm.call.response`. */
  function FinalText(chunks: seq<string>): string {
    var (s, _) := FeedAll(Fresh, chunks);
    if s.stripped then Trim(Shown(chunks)) else Shown(chunks)
  }

  /** What `feed` may leave in the buffer: a proper prefix of the tag awaited. */
  predicate Waiting(s: State) {
    var tag := if s.inside then CLOSE else OPEN;
    |s.buf| < |tag| && StartsWith(tag, s.buf)
  }

  lemma {:induction false} LoopWaits(s: State)
    ensures Waiting(Loop(s).0)
    decreases |s.buf|
  {
    if s.buf == "" {
    } else if s.inside {
      KeepIsLongest(s.buf, Min(|CLOSE| - 1, |s.buf|));
      if InsideStep(s).1 {
        LoopWaits(InsideStep(s).0);
      }
    } else if OutsideStep(s).2 {
      LoopWaits(OutsideStep(s).0);
    }
  }

  /** An empty chunk changes nothing, so the provider may skip it. */
  lemma FeedEmpty(s: State)
    requires Waiting(s)
    ensures FeedChunk(s, "") == (s, "")
  {
    assert s.buf + "" == s.buf;
    if s.buf != "" {
      if s.inside {
        assert s.buf[|s.buf| - |s.buf|..] == s.buf;
      } else {
        assert s.buf[0] == OPEN[0];
        assert At(s.buf, "<", 0);
      }
    }
  }

  /** The `for` loop of `_step_inside`: the last hit wins. */
  method PartialClose(buf: string) returns (keep: nat)
    ensures keep == Keep(buf)
  {
    keep := 0;
    for n := 1 to Min(|CLOSE|, |buf| + 1)
      invariant keep == KeepUpTo(buf, n - 1)
    {
      if CouldClose(buf, n) {
        keep := n;
      }
    }
  }

  /** The filter as the provider keeps it: one object updated in place. */
  class StreamThinkFilter {
    var buf: string
    var inThink: bool
    var strippedAny: bool

    ghost function View(): State reads this {
      State(buf, inThink, strippedAny)
    }

    constructor ()
      ensures View() == Fresh
    {
      buf, inThink, strippedAny := "", false, false;
    }

    method Feed(chunk: string) returns (visible: string, retained: string)
      modifies this
      ensures (View(), visible) == FeedChunk(old(View()), chunk)
      ensures retained == visible
    {
      buf := buf + chunk;
      ghost var start := View();
      visible := "";
      assert "" + Loop(start).1 == Loop(start).1;
      while buf != ""
        invariant Loop(start) == (Loop(View()).0, visible + Loop(View()).1)
        decreases |buf|
      {
        ghost var s, shown := View(), visible;
        if inThink {
          var more := this.StepInside();
          if !more {
            assert Loop(s) == (View(), "");
            assert shown + "" == shown;
            return visible, visible;
          }
          assert Loop(s) == Loop(View());
        } else {
          var part, more := this.StepOutside();
          visible := visible + part;
          if !more {
            assert Loop(s) == (View(), part);
            return visible, visible;
          }
          assert Loop(s) == (Loop(View()).0, part + Loop(View()).1);
          assert shown + (part + Loop(View()).1) == shown + part + Loop(View()).1;
        }
      }
      assert visible + "" == visible;
      return visible, visible;
    }

    method StepInside() returns (more: bool)
      requires inThink
      modifies this
      ensures (View(), more) == InsideStep(old(View()))
    {
      var closeIdx := Find(buf, CLOSE);
      if closeIdx == -1 {
        var keep := PartialClose(buf);
        buf := if keep > 0 then buf[|buf| - keep..] else "";
        return false;
      }
      buf := buf[closeIdx + |CLOSE|..];
      inThink := false;
      strippedAny := true;
      return true;
    }

    method StepOutside() returns (part: string, more: bool)
      requires !inThink && buf != ""
      modifies this
      ensures (View(), part, more) == OutsideStep(old(View()))
    {
      part := "";
      var lt := Find(buf, "<");
      if lt == -1 {
        part, buf := buf, "";
        return part, false;
      }
      if lt > 0 {
        part := buf[..lt];
        buf := buf[lt..];
      }
      if |buf| < |OPEN| {
        if StartsWith(OPEN, buf) {
          return part, false;
        }
        part := part + buf;
        buf := "";
        return part, false;
      }
      if StartsWith(buf, OPEN) {
        buf := buf[|OPEN|..];
        inThink := true;
        return part, true;
      }
      part := part + buf[..1];
      buf := buf[1..];
      return part, true;
    }

    method Flush() returns (visible: string, retained: string)
      modifies this
      ensures visible == retained == Flushed(old(View()))
      ensures View() == old(View()).(buf := "")
    {
      if inThink {
        buf := "";
        return "", "";
      }
      var tail := buf;
      buf := "";
      return tail, tail;
    }
  }

  /** The streaming part of the provider's dispatch: feed every content chunk,
      drain the filter, and strip the aggregate if a span was removed. */
  method Dispatch(chunks: seq<string>) returns (text: string, deltas: string)
    ensures text == FinalText(chunks)
    ensures deltas == Shown(chunks)
  {
    var filter := new StreamThinkFilter();
    var aggregated := "";
    deltas := "";
    assert chunks[0..] == chunks && "" + FeedAll(Fresh, chunks).1 == FeedAll(Fresh, chunks).1;
    for i := 0 to |chunks|
      invariant FeedAll(Fresh, chunks)
             == (FeedAll(filter.View(), chunks[i..]).0, aggregated + FeedAll(filter.View(), chunks[i..]).1)
      invariant deltas == aggregated
      invariant Waiting(filter.View())
      invariant fresh(filter)
    {
      ghost var before := filter.View();
      assert chunks[i..][1..] == chunks[i + 1..];
      if chunks[i] != "" {
        LoopWaits(before.(buf := before.buf + chunks[i]));
        var visible, retained := filter.Feed(chunks[i]);
        ghost var later := FeedAll(filter.View(), chunks[i + 1..]).1;
        assert aggregated + (retained + later) == (aggregated + retained) + later;
        aggregated := aggregated + retained;
        deltas := deltas + visible;
      } else {
        FeedEmpty(before);
        ghost var later := FeedAll(before, chunks[i + 1..]).1;
        assert "" + later == later;
      }
    }
    assert aggregated + "" == aggregated;
    var tail, kept := filter.Flush();
    aggregated := aggregated + kept;
    deltas := deltas + tail;
    text := if filter.strippedAny then Trim(aggregated) else aggregated;
  }
}
