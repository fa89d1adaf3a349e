/** What the streaming filter shows, for every way of cutting a text into
    chunks, compared with the one-pass reference and the regular expression. */
module ThinkTheorems {
  import opened Common
  import opened Text
  import opened ThinkReference
  import opened ThinkFilter

  /** What the reference still shows when the filter is in state `s` and `rest`
      is yet to come. */
  function ToShow(s: State, rest: string): string {
    if s.inside then RefIn(s.buf + rest) else RefOut(s.buf + rest)
  }

  predicate EndsInside(s: State, rest: string) {
    if s.inside then EndsInsideFromIn(s.buf + rest) else EndsInsideFromOut(s.buf + rest)
  }

  predicate WillStrip(s: State, rest: string) {
    s.stripped || if s.inside then Find(s.buf + rest, CLOSE) != -1 else ClosesASpan(s.buf + rest)
  }

  predicate Safe(s: State, rest: string) {
    if s.inside then SafeIn(s.buf + rest) else SafeOut(s.buf + rest)
  }

  /** `part` was shown and nothing the reference depends on was lost. */
  predicate Exact(s: State, part: string, s': State, rest: string) {
    && ToShow(s, rest) == part + ToShow(s', rest)
    && EndsInside(s, rest) == EndsInside(s', rest)
    && WillStrip(s, rest) == WillStrip(s', rest)
    && (Safe(s, rest) ==> Safe(s', rest))
  }

  // -- single steps -----------------------------------------------------------

  lemma InsideStepExact(s: State, rest: string)
    requires s.inside
    ensures Exact(s, "", InsideStep(s).0, rest)
  {
    hide At;
    var c := Find(s.buf, CLOSE);
    if c == -1 {
      InsideDropExact(s, rest);
    } else {
      PrefixFind(s.buf, rest, CLOSE);
      SliceOfSum(s.buf, rest, c + |CLOSE|);
    }
    var shown := ToShow(InsideStep(s).0, rest);
    assert "" + shown == shown;
  }

  lemma InsideDropExact(s: State, rest: string)
    requires s.inside && Find(s.buf, CLOSE) == -1
    ensures var s' := InsideStep(s).0;
      && ToShow(s, rest) == ToShow(s', rest)
      && EndsInside(s, rest) == EndsInside(s', rest)
      && WillStrip(s, rest) == WillStrip(s', rest)
      && Safe(s, rest) == Safe(s', rest)
  {
    hide At;
    var drop := |s.buf| - Keep(s.buf);
    forall i | 0 <= i < drop ensures !At(s.buf + rest, CLOSE, i) {
      NoCloseDropped(s.buf, rest, i);
    }
    InSkip(s.buf + rest, drop);
    SliceOfSum(s.buf, rest, drop);
  }

  /** A close tag that starts in the buffer and ends behind it starts in the kept bytes. */
  lemma StraddlingCloseIsKept(buf: string, rest: string, i: nat)
    requires At(buf + rest, CLOSE, i) && i < |buf| < i + |CLOSE|
    ensures i >= |buf| - Keep(buf)
  {
    TagCoversRest(buf, rest, CLOSE, i);
    assert CouldClose(buf, |buf| - i);
    KeepIsLongest(buf, Min(|CLOSE| - 1, |buf|));
  }

  /** No close tag starts in the bytes the filter drops inside a span. */
  lemma NoCloseDropped(buf: string, rest: string, i: nat)
    requires Find(buf, CLOSE) == -1 && i < |buf| - Keep(buf)
    ensures !At(buf + rest, CLOSE, i)
  {
    var t := buf + rest;
    if i + |CLOSE| <= |buf| {
      assert buf[i..i + |CLOSE|] == t[i..i + |CLOSE|];
      assert !At(buf, CLOSE, i);
    } else if At(t, CLOSE, i) {
      StraddlingCloseIsKept(buf, rest, i);
    }
  }

  lemma PrefixFind(buf: string, rest: string, p: string)
    requires Find(buf, p) != -1
    ensures Find(buf + rest, p) == Find(buf, p)
  {
    var c, t := Find(buf, p), buf + rest;
    assert t[c..c + |p|] == buf[c..c + |p|];
    assert At(t, p, c);
    assert t[..|buf|] == buf;
    FindInPrefix(t, p, |buf|);
  }

  /** The buffer is too short to decide on, and starts with a `<` that is no
      open tag: the filter shows all of it at once. */
  predicate ShortFlush(s: State) {
    && !s.inside && s.buf != ""
    && var lt := Find(s.buf, "<");
       lt != -1 && |s.buf| - lt < |OPEN| && !StartsWith(OPEN, s.buf[lt..])
  }

  lemma HeadSkip(s: State, rest: string, k: nat)
    requires !s.inside && k <= |s.buf|
    requires forall i | 0 <= i < k :: !At(s.buf + rest, OPEN, i)
    ensures Exact(s, s.buf[..k], s.(buf := s.buf[k..]), rest)
  {
    var t := s.buf + rest;
    SliceOfSum(s.buf, rest, k);
    OutSkip(t, k);
    if SafeOut(t) {
      SafeSkip(t, k);
    }
  }

  lemma BeforeLt(s: State, rest: string)
    requires !s.inside
    ensures var lt := Find(s.buf, "<");
      var k := if lt == -1 then |s.buf| else lt;
      Exact(s, s.buf[..k], s.(buf := s.buf[k..]), rest)
  {
    var lt := Find(s.buf, "<");
    var k := if lt == -1 then |s.buf| else lt;
    var u := s.buf[..k];
    forall i | 0 <= i < k ensures u[i] != '<' {
      assert s.buf[i..i + 1] == [s.buf[i]];
      assert !At(s.buf, "<", i);
    }
    assert s.buf + rest == u + (s.buf[k..] + rest);
    NoTagWithoutLt(u, s.buf[k..] + rest, OPEN);
    HeadSkip(s, rest, k);
  }

  lemma ExactCompose(s: State, p: string, m: State, q: string, s': State, rest: string)
    requires Exact(s, p, m, rest) && Exact(m, q, s', rest)
    ensures Exact(s, p + q, s', rest)
  {
    Regroup(p, q, ToShow(s', rest));
  }

  /** A step from text before a decidable `<` is that text, then the step at the `<`. */
  lemma OutsideStepSplit(s: State, lt: nat)
    requires !s.inside && Find(s.buf, "<") == lt && lt + |OPEN| <= |s.buf|
    ensures var m := s.(buf := s.buf[lt..]);
      m.buf[0] == '<' && OutsideStep(s) == (OutsideStep(m).0, s.buf[..lt] + OutsideStep(m).1, true)
  {
    var m := s.(buf := s.buf[lt..]);
    AtChar(s.buf, "<", lt, 0);
    assert m.buf[0..1] == "<" && Find(m.buf, "<") == 0;
    assert m.buf[0..] == m.buf && m.buf[..0] == "";
    assert "" + m.buf[..1] == m.buf[..1];
    assert s.buf[..lt] + "" == s.buf[..lt];
  }

  lemma OutsideStepExact(s: State, rest: string)
    requires !s.inside && s.buf != "" && !ShortFlush(s)
    ensures Exact(s, OutsideStep(s).1, OutsideStep(s).0, rest)
  {
    BeforeLt(s, rest);
    var lt := Find(s.buf, "<");
    if lt == -1 {
      assert s.buf[..|s.buf|] == s.buf && s.buf[|s.buf|..] == "";
    } else if lt + |OPEN| <= |s.buf| {
      OutsideStepSplit(s, lt);
      var m := s.(buf := s.buf[lt..]);
      AtLt(m, rest);
      ExactCompose(s, s.buf[..lt], m, OutsideStep(m).1, OutsideStep(m).0, rest);
    }
  }

  /** A `<` with enough text behind it to tell whether it opens a span. */
  lemma AtLt(m: State, rest: string)
    requires !m.inside && |m.buf| >= |OPEN| && m.buf[0] == '<'
    ensures OutsideStep(m).1 == if StartsWith(m.buf, OPEN) then "" else "<"
    ensures Exact(m, OutsideStep(m).1, OutsideStep(m).0, rest)
  {
    var t := m.buf + rest;
    assert m.buf[0..1] == "<" && Find(m.buf, "<") == 0;
    assert m.buf[0..] == m.buf && m.buf[..0] == "";
    assert t[0..|OPEN|] == m.buf[..|OPEN|];
    if StartsWith(m.buf, OPEN) {
      OutConsume(t);
      SliceOfSum(m.buf, rest, |OPEN|);
    } else {
      HeadSkip(m, rest, 1);
    }
  }

  // -- the short flush ----------------------------------------------------------

  lemma FlushShowsBuffer(s: State)
    requires ShortFlush(s)
    ensures OutsideStep(s) == (s.(buf := ""), s.buf, false)
  {
    var lt := Find(s.buf, "<");
    assert s.buf[..lt] + s.buf[lt..] == s.buf;
  }

  /** A flushed buffer cannot start the first open tag: it starts one, if at all,
      behind its first `<`, and the tag reaches beyond it. */
  lemma FlushedTagStraddles(s: State, rest: string)
    requires ShortFlush(s)
    ensures var lt, q := Find(s.buf, "<"), Find(s.buf + rest, OPEN);
      q != -1 && q < |s.buf| ==> lt < q <= lt + 5 && |s.buf| < q + |OPEN| <= |s.buf + rest|
  {
    var t := s.buf + rest;
    var lt, q := Find(s.buf, "<"), Find(t, OPEN);
    if q != -1 && q < |s.buf| {
      AtChar(t, OPEN, q, 0);
      assert s.buf[q..q + 1] == "<";
      assert At(s.buf, "<", q);
      if |s.buf| < q + |OPEN| {
        TagCoversRest(s.buf, rest, OPEN, q);
      }
    }
  }

  /** A tag that reaches over the end of `buf` covers the end of `buf`. */
  lemma TagCoversRest(buf: string, rest: string, tag: string, i: nat)
    requires At(buf + rest, tag, i) && i <= |buf| < i + |tag|
    ensures StartsWith(tag, buf[i..])
  {
    forall k | 0 <= k < |buf| - i ensures buf[i..][k] == tag[k] {
      AtChar(buf + rest, tag, i, k);
    }
  }

  lemma SafeFlushExact(s: State, rest: string)
    requires ShortFlush(s) && SafeOut(s.buf + rest)
    ensures Exact(s, OutsideStep(s).1, OutsideStep(s).0, rest)
  {
    FlushShowsBuffer(s);
    FlushedTagStraddles(s, rest);
    var t, lt := s.buf + rest, Find(s.buf, "<");
    AtChar(s.buf, "<", lt, 0);
    assert t[lt] == '<';
    assert Find(t, OPEN) == -1 || Find(t, OPEN) >= |s.buf|;
    HeadSkip(s, rest, |s.buf|);
    assert s.buf[..|s.buf|] == s.buf && s.buf[|s.buf|..] == "";
  }

  /** Both readings around an open tag that a flush at `|buf|` cuts through. */
  lemma CutTag(buf: string, rest: string, q: nat, k: nat)
    requires Find(buf + rest, OPEN) == q && q < |buf|
    requires |buf| + k == q + |OPEN| && k <= |rest|
    ensures RefOut(buf + rest) == buf[..q] + RefIn(rest[k..])
    ensures RefOut(rest) == rest[..k] + RefOut(rest[k..])
    ensures EndsInsideFromOut(buf + rest) == EndsInsideFromIn(rest[k..])
    ensures EndsInsideFromOut(rest) == EndsInsideFromOut(rest[k..])
  {
    hide At, RefIn, EndsInsideFromIn, ClosesASpan;
    var t := buf + rest;
    assert t[|buf|..] == rest && t[q + |OPEN|..] == rest[k..] && t[..q] == buf[..q];
    forall i | 0 <= i < k ensures !At(rest, OPEN, i) {
      InsideTag(t, OPEN, q, |buf| + i);
      AtShift(t, OPEN, |buf|, i);
    }
    OutSkip(rest, k);
  }

  /** A flush that cuts through an open tag shows strictly more than it should. */
  lemma BadFlushOvershows(s: State, rest: string)
    requires ShortFlush(s)
    requires 0 <= Find(s.buf + rest, OPEN) < |s.buf|
    ensures Ink(s.buf + RefOut(rest)) > Ink(RefOut(s.buf + rest))
    ensures Subseq(RefOut(s.buf + rest), s.buf + RefOut(rest))
    ensures EndsInsideFromOut(rest) ==> EndsInsideFromOut(s.buf + rest)
  {
    FlushedTagStraddles(s, rest);
    var q := Find(s.buf + rest, OPEN);
    var k := q + |OPEN| - |s.buf|;
    CutTag(s.buf, rest, q, k);
    OutShowsMore(rest[k..]);
    AtChar(s.buf + rest, OPEN, q, 0);
    Stitch(s.buf, q, rest[..k], RefOut(rest[k..]), RefIn(rest[k..]));
  }

  lemma Stitch(b: string, q: nat, r: string, o: string, a: string)
    requires IsSuffix(a, o) && q < |b| && b[q] == '<'
    ensures Subseq(b[..q] + a, b + (r + o))
    ensures Ink(b[..q] + a) < Ink(b + (r + o))
  {
    hide Ink;
    var mid := b[q..] + r + o[..|o| - |a|];
    assert b + (r + o) == b[..q] + (mid + a) by {
      assert b == b[..q] + b[q..];
      assert o == o[..|o| - |a|] + a;
    }
    SubseqSuffix(mid, a);
    SubseqUnder(b[..q], a, mid + a);
    LtIsInk(mid);
    InkConcat(mid, a);
    InkConcat(b[..q], a);
    InkConcat(b[..q], mid + a);
  }

  lemma LtIsInk(t: string)
    requires t != "" && t[0] == '<'
    ensures Ink(t) > 0
  {
  }

  // -- subsequences -------------------------------------------------------------

  /** `a` is `b` with some characters left out. */
  predicate Subseq(a: string, b: string)
    decreases |b|
  {
    if b == "" then a == ""
    else (a != "" && a[0] == b[0] && Subseq(a[1..], b[1..])) || Subseq(a, b[1..])
  }

  lemma {:induction false} SubseqRefl(a: string)
    ensures Subseq(a, a)
  {
    if a != "" {
      SubseqRefl(a[1..]);
    }
  }

  lemma {:induction false} SubseqSuffix(p: string, a: string)
    ensures Subseq(a, p + a)
  {
    if p == "" {
      assert p + a == a;
      SubseqRefl(a);
    } else {
      assert (p + a)[1..] == p[1..] + a;
      SubseqSuffix(p[1..], a);
    }
  }

  lemma {:induction false} SubseqUnder(p: string, a: string, b: string)
    requires Subseq(a, b)
    ensures Subseq(p + a, p + b)
  {
    if p == "" {
      assert p + a == a && p + b == b;
    } else {
      assert (p + a)[1..] == p[1..] + a && (p + b)[1..] == p[1..] + b;
      SubseqUnder(p[1..], a, b);
    }
  }

  lemma {:induction false} SubseqTrans(a: string, b: string, c: string)
    requires Subseq(a, b) && Subseq(b, c)
    ensures Subseq(a, c)
    decreases |c|
  {
    if c != "" {
      if Subseq(b, c[1..]) {
        SubseqTrans(a, b, c[1..]);
      } else if a != "" && a[0] == b[0] && Subseq(a[1..], b[1..]) {
        SubseqTrans(a[1..], b[1..], c[1..]);
      } else {
        SubseqTrans(a, b[1..], c[1..]);
      }
    }
  }

  lemma {:induction false} SubseqInk(a: string, b: string)
    requires Subseq(a, b)
    ensures Ink(a) <= Ink(b)
    decreases |b|
  {
    hide IsSpace;
    if b != "" {
      if Subseq(a, b[1..]) {
        SubseqInk(a, b[1..]);
      } else {
        SubseqInk(a[1..], b[1..]);
      }
    }
  }

  /** At least the reference's text is shown, and the filter is not inside a
      span unless the reference is. */
  predicate AtLeast(s: State, part: string, s': State, rest: string) {
    && Subseq(ToShow(s, rest), part + ToShow(s', rest))
    && (EndsInside(s', rest) ==> EndsInside(s, rest))
  }

  lemma ExactIsAtLeast(s: State, part: string, s': State, rest: string)
    requires Exact(s, part, s', rest)
    ensures AtLeast(s, part, s', rest)
  {
    SubseqRefl(ToShow(s, rest));
  }

  lemma AtLeastCompose(s: State, p: string, m: State, q: string, s': State, rest: string)
    requires AtLeast(s, p, m, rest) && AtLeast(m, q, s', rest)
    ensures AtLeast(s, p + q, s', rest)
  {
    SubseqUnder(p, ToShow(m, rest), q + ToShow(s', rest));
    SubseqTrans(ToShow(s, rest), p + ToShow(m, rest), p + (q + ToShow(s', rest)));
    Regroup(p, q, ToShow(s', rest));
  }

  lemma OutsideStepAtLeast(s: State, rest: string)
    requires !s.inside && s.buf != ""
    ensures AtLeast(s, OutsideStep(s).1, OutsideStep(s).0, rest)
  {
    if ShortFlush(s) {
      FlushShowsBuffer(s);
      var q := Find(s.buf + rest, OPEN);
      assert "" + rest == rest;
      if q != -1 && q < |s.buf| {
        BadFlushOvershows(s, rest);
      } else {
        HeadSkip(s, rest, |s.buf|);
        assert s.buf[..|s.buf|] == s.buf && s.buf[|s.buf|..] == "";
        ExactIsAtLeast(s, s.buf, s.(buf := ""), rest);
      }
    } else {
      OutsideStepExact(s, rest);
      ExactIsAtLeast(s, OutsideStep(s).1, OutsideStep(s).0, rest);
    }
  }

  // -- whole chunks and whole streams -------------------------------------------

  /** A flush with nothing to come cuts no tag. */
  lemma LastFlushExact(s: State)
    requires ShortFlush(s)
    ensures Exact(s, OutsideStep(s).1, OutsideStep(s).0, "")
  {
    FlushShowsBuffer(s);
    FlushedTagStraddles(s, "");
    assert s.buf + "" == s.buf;
    HeadSkip(s, "", |s.buf|);
    assert s.buf[..|s.buf|] == s.buf && s.buf[|s.buf|..] == "";
  }

  lemma {:induction false} LoopExact(s: State, rest: string)
    requires Safe(s, rest) || rest == ""
    ensures Exact(s, Loop(s).1, Loop(s).0, rest)
    decreases |s.buf|
  {
    if s.buf == "" {
    } else if s.inside {
      InsideStepExact(s, rest);
      if InsideStep(s).1 {
        LoopExact(InsideStep(s).0, rest);
        ExactCompose(s, "", InsideStep(s).0, Loop(s).1, Loop(s).0, rest);
        assert "" + Loop(s).1 == Loop(s).1;
      }
    } else {
      var (m, out, more) := OutsideStep(s);
      if !ShortFlush(s) {
        OutsideStepExact(s, rest);
      } else if rest == "" {
        LastFlushExact(s);
      } else {
        SafeFlushExact(s, rest);
      }
      if more {
        LoopExact(m, rest);
        ExactCompose(s, out, m, Loop(m).1, Loop(m).0, rest);
      }
    }
  }

  lemma {:induction false} LoopAtLeast(s: State, rest: string)
    ensures AtLeast(s, Loop(s).1, Loop(s).0, rest)
    decreases |s.buf|
  {
    if s.buf == "" {
      SubseqRefl(ToShow(s, rest));
      assert "" + ToShow(s, rest) == ToShow(s, rest);
    } else if s.inside {
      var m := InsideStep(s).0;
      InsideStepExact(s, rest);
      ExactIsAtLeast(s, "", m, rest);
      if InsideStep(s).1 {
        LoopAtLeast(m, rest);
        AtLeastCompose(s, "", m, Loop(m).1, Loop(m).0, rest);
        assert "" + Loop(m).1 == Loop(m).1;
      }
    } else {
      var (m, out, more) := OutsideStep(s);
      OutsideStepAtLeast(s, rest);
      if more {
        LoopAtLeast(m, rest);
        AtLeastCompose(s, out, m, Loop(m).1, Loop(m).0, rest);
      }
    }
  }

  lemma ChunkArrives(s: State, chunk: string, rest: string)
    ensures var m := s.(buf := s.buf + chunk);
      && ToShow(s, chunk + rest) == ToShow(m, rest)
      && EndsInside(s, chunk + rest) == EndsInside(m, rest)
      && WillStrip(s, chunk + rest) == WillStrip(m, rest)
      && Safe(s, chunk + rest) == Safe(m, rest)
  {
    Regroup(s.buf, chunk, rest);
  }

  lemma {:induction false} FeedAllExact(s: State, chunks: seq<string>)
    requires Safe(s, Concat(chunks)) || |chunks| <= 1
    ensures var (s', out) := FeedAll(s, chunks);
      && ToShow(s, Concat(chunks)) == out + ToShow(s', "")
      && EndsInside(s, Concat(chunks)) == EndsInside(s', "")
      && WillStrip(s, Concat(chunks)) == WillStrip(s', "")
    decreases |chunks|
  {
    if chunks == [] {
      assert "" + ToShow(s, "") == ToShow(s, "");
    } else {
      var rest := Concat(chunks[1..]);
      ChunkArrives(s, chunks[0], rest);
      LoopExact(s.(buf := s.buf + chunks[0]), rest);
      var (m, out) := FeedChunk(s, chunks[0]);
      FeedAllExact(m, chunks[1..]);
      var (s', out') := FeedAll(m, chunks[1..]);
      Regroup(out, out', ToShow(s', ""));
    }
  }

  lemma {:induction false} FeedAllAtLeast(s: State, chunks: seq<string>)
    ensures var (s', out) := FeedAll(s, chunks);
      && Subseq(ToShow(s, Concat(chunks)), out + ToShow(s', ""))
      && (EndsInside(s', "") ==> EndsInside(s, Concat(chunks)))
    decreases |chunks|
  {
    if chunks == [] {
      SubseqRefl(ToShow(s, ""));
      assert "" + ToShow(s, "") == ToShow(s, "");
    } else {
      var rest := Concat(chunks[1..]);
      ChunkArrives(s, chunks[0], rest);
      LoopAtLeast(s.(buf := s.buf + chunks[0]), rest);
      var (m, out) := FeedChunk(s, chunks[0]);
      FeedAllAtLeast(m, chunks[1..]);
      var (s', out') := FeedAll(m, chunks[1..]);
      SubseqUnder(out, ToShow(m, rest), out' + ToShow(s', ""));
      SubseqTrans(ToShow(s, Concat(chunks)), out + ToShow(m, rest), out + (out' + ToShow(s', "")));
      Regroup(out, out', ToShow(s', ""));
    }
  }

  lemma {:induction false} FeedAllWaits(s: State, chunks: seq<string>)
    requires Waiting(s)
    ensures Waiting(FeedAll(s, chunks).0)
    decreases |chunks|
  {
    if chunks != [] {
      LoopWaits(s.(buf := s.buf + chunks[0]));
      FeedAllWaits(FeedChunk(s, chunks[0]).0, chunks[1..]);
    }
  }

  /** At the end of the stream `flush` shows what the reference would. */
  lemma AtEndOfStream(s: State)
    requires Waiting(s)
    ensures ToShow(s, "") == Flushed(s)
    ensures EndsInside(s, "") == s.inside
    ensures WillStrip(s, "") == s.stripped
  {
    assert s.buf + "" == s.buf;
  }

  // -- main results -------------------------------------------------------------

  /** Every cut of a safe text, and every text in one piece, shows exactly the
      reference's text. */
  lemma ShownIsReference(chunks: seq<string>)
    requires SafeOut(Concat(chunks)) || |chunks| <= 1
    ensures Shown(chunks) == RefOut(Concat(chunks))
    ensures FeedAll(Fresh, chunks).0.inside == EndsInsideFromOut(Concat(chunks))
    ensures FeedAll(Fresh, chunks).0.stripped == ClosesASpan(Concat(chunks))
  {
    var t := Concat(chunks);
    assert "" + t == t;
    FeedAllExact(Fresh, chunks);
    FeedAllWaits(Fresh, chunks);
    AtEndOfStream(FeedAll(Fresh, chunks).0);
  }

  /** With no condition on the text: nothing the reference shows is lost, the
      filter is inside a span only if the reference is, and after every chunk
      it holds back no more than a proper prefix of the tag it waits for. */
  lemma NothingVisibleIsLost(chunks: seq<string>)
    ensures Subseq(RefOut(Concat(chunks)), Shown(chunks))
    ensures FeedAll(Fresh, chunks).0.inside ==> EndsInsideFromOut(Concat(chunks))
    ensures Waiting(FeedAll(Fresh, chunks).0) && |FeedAll(Fresh, chunks).0.buf| <= 7
  {
    var t := Concat(chunks);
    assert "" + t == t;
    FeedAllAtLeast(Fresh, chunks);
    FeedAllWaits(Fresh, chunks);
    AtEndOfStream(FeedAll(Fresh, chunks).0);
  }

  /** The index just behind the `<` of the first open tag that is not clear. */
  function CutOut(t: string): (n: nat)
    requires !SafeOut(t)
    ensures 0 < n <= |t| && Find(t, OPEN) < n
    decreases |t|
  {
    var i := Find(t, OPEN);
    if !Clear(t, i) then i + 1 else i + |OPEN| + CutIn(t[i + |OPEN|..])
  }

  function CutIn(t: string): (n: nat)
    requires !SafeIn(t)
    ensures 0 < n <= |t| && Find(t, CLOSE) + |CLOSE| < n
    decreases |t|
  {
    var j := Find(t, CLOSE);
    j + |CLOSE| + CutOut(t[j + |CLOSE|..])
  }

  /** The filter's buffer ends just behind the `<` of an open tag that is not clear. */
  predicate AtBadCut(s: State, rest: string) {
    !Safe(s, rest) && |s.buf| == if s.inside then CutIn(s.buf + rest) else CutOut(s.buf + rest)
  }

  lemma InsideKeepsCut(s: State, rest: string)
    requires s.inside && AtBadCut(s, rest)
    ensures InsideStep(s).1 && AtBadCut(InsideStep(s).0, rest)
  {
    var t := s.buf + rest;
    var j := Find(t, CLOSE);
    assert t[..|s.buf|] == s.buf;
    FindInPrefix(t, CLOSE, |s.buf|);
    SliceOfSum(s.buf, rest, j + |CLOSE|);
  }

  lemma FirstLt(s: State, rest: string)
    requires !s.inside && AtBadCut(s, rest)
    ensures var lt, i := Find(s.buf, "<"), Find(s.buf + rest, OPEN);
      && 0 <= lt <= i < |s.buf| && (Clear(s.buf + rest, i) ==> lt + |OPEN| <= i + |OPEN| < |s.buf|)
      && (!Clear(s.buf + rest, i) ==> |s.buf| == i + 1)
  {
    var i := Find(s.buf + rest, OPEN);
    AtChar(s.buf + rest, OPEN, i, 0);
    assert s.buf[i..i + 1] == "<";
    assert At(s.buf, "<", i);
  }

  /** Moving past characters outside the window keeps the first bad tag. */
  lemma CutShift(t: string, k: nat)
    requires !SafeOut(t) && k <= Find(t, OPEN)
    requires !Clear(t, Find(t, OPEN)) ==> k + 5 <= Find(t, OPEN)
    ensures !SafeOut(t[k..]) && CutOut(t[k..]) == CutOut(t) - k
  {
    hide At, SafeIn, CutIn;
    var i, u := Find(t, OPEN), t[k..];
    OutShift(t, k);
    if !Clear(t, i) {
      var m :| 0 <= m < i && i - 5 <= m && t[m] == '<';
      assert u[m - k] == '<';
    } else {
      forall m | 0 <= m < i - k && i - k - 5 <= m ensures u[m] != '<' {
        assert u[m] == t[k + m];
      }
    }
  }

  /** A bad tag the filter does not flush away is still far ahead. */
  lemma BadTagAhead(s: State, rest: string)
    requires !s.inside && AtBadCut(s, rest) && !ShortFlush(s)
    requires !Clear(s.buf + rest, Find(s.buf + rest, OPEN))
    ensures Find(s.buf, "<") + 6 <= Find(s.buf + rest, OPEN)
  {
    hide AtBadCut, SafeOut, CutOut, At;
    FirstLt(s, rest);
    var t := s.buf + rest;
    var lt, i := Find(s.buf, "<"), Find(t, OPEN);
    var m :| 0 <= m < i && i - 5 <= m && t[m] == '<';
    LtFound(s.buf, m);
    AtChar(t, OPEN, i, 0);
    assert s.buf[lt..][i - lt] == '<';
    assert forall k | 1 <= k < |OPEN| :: OPEN[k] != '<';
  }

  lemma LtFound(buf: string, m: nat)
    requires m < |buf| && buf[m] == '<'
    ensures 0 <= Find(buf, "<") <= m
  {
    assert buf[m..m + 1] == "<";
    assert At(buf, "<", m);
  }

  lemma CutBehindTag(s: State, rest: string, i: nat)
    requires !s.inside && AtBadCut(s, rest) && !ShortFlush(s)
    requires Find(s.buf, "<") == i == Find(s.buf + rest, OPEN)
    ensures OutsideStep(s).2 && AtBadCut(OutsideStep(s).0, rest)
  {
    hide At;
    FirstLt(s, rest);
    if !Clear(s.buf + rest, i) {
      BadTagAhead(s, rest);
    }
    AtInPrefix(s.buf, rest, OPEN, i);
    StepIntoSpan(s, i);
    SliceOfSum(s.buf, rest, i + |OPEN|);
  }

  lemma StepIntoSpan(s: State, lt: nat)
    requires !s.inside && Find(s.buf, "<") == lt && lt + |OPEN| <= |s.buf| && At(s.buf, OPEN, lt)
    ensures OutsideStep(s).2 && OutsideStep(s).0 == s.(buf := s.buf[lt + |OPEN|..], inside := true)
  {
    var tail := s.buf[lt..];
    assert s.buf[lt..lt + |OPEN|] == tail[..|OPEN|];
    assert tail[|OPEN|..] == s.buf[lt + |OPEN|..];
  }

  lemma AtInPrefix(buf: string, rest: string, p: string, i: nat)
    requires i + |p| <= |buf|
    ensures At(buf, p, i) <==> At(buf + rest, p, i)
  {
    assert (buf + rest)[i..i + |p|] == buf[i..i + |p|];
  }

  lemma CutBehindLt(s: State, rest: string, lt: nat)
    requires !s.inside && AtBadCut(s, rest) && !ShortFlush(s)
    requires Find(s.buf, "<") == lt && lt < Find(s.buf + rest, OPEN)
    ensures OutsideStep(s).2 && AtBadCut(OutsideStep(s).0, rest)
  {
    hide At;
    FirstLt(s, rest);
    var t, i := s.buf + rest, Find(s.buf + rest, OPEN);
    if !Clear(t, i) {
      BadTagAhead(s, rest);
    }
    AtInPrefix(s.buf, rest, OPEN, lt);
    StepOverLt(s, lt);
    CutShift(t, lt + 1);
    SliceOfSum(s.buf, rest, lt + 1);
  }

  lemma StepOverLt(s: State, lt: nat)
    requires !s.inside && Find(s.buf, "<") == lt && lt + |OPEN| <= |s.buf| && !At(s.buf, OPEN, lt)
    ensures OutsideStep(s).2 && OutsideStep(s).0 == s.(buf := s.buf[lt + 1..])
  {
    var tail := s.buf[lt..];
    assert s.buf[lt..lt + |OPEN|] == tail[..|OPEN|];
    assert tail[1..] == s.buf[lt + 1..];
  }

  lemma OutsideKeepsCut(s: State, rest: string)
    requires !s.inside && AtBadCut(s, rest) && !ShortFlush(s)
    ensures OutsideStep(s).2 && AtBadCut(OutsideStep(s).0, rest)
  {
    FirstLt(s, rest);
    var lt := Find(s.buf, "<");
    if lt == Find(s.buf + rest, OPEN) {
      CutBehindTag(s, rest, lt);
    } else {
      CutBehindLt(s, rest, lt);
    }
  }

  lemma {:induction false} BadCutOvershows(s: State, rest: string)
    requires AtBadCut(s, rest)
    ensures Ink(Loop(s).1 + ToShow(Loop(s).0, rest)) > Ink(ToShow(s, rest))
    decreases |s.buf|
  {
    hide Ink;
    if s.inside {
      InsideKeepsCut(s, rest);
      InsideStepExact(s, rest);
      BadCutOvershows(InsideStep(s).0, rest);
      assert "" + ToShow(InsideStep(s).0, rest) == ToShow(InsideStep(s).0, rest);
    } else if ShortFlush(s) {
      FirstLt(s, rest);
      FlushShowsBuffer(s);
      BadFlushOvershows(s, rest);
      assert "" + rest == rest;
    } else {
      OutsideKeepsCut(s, rest);
      OutsideStepExact(s, rest);
      var (m, out, more) := OutsideStep(s);
      BadCutOvershows(m, rest);
      var shown := ToShow(Loop(m).0, rest);
      Regroup(out, Loop(m).1, shown);
      InkConcat(out, Loop(m).1 + shown);
      InkConcat(out, ToShow(m, rest));
    }
  }

  lemma ConcatTwo(a: string, b: string)
    ensures Concat([a, b]) == a + b
  {
    assert [a, b][1..] == [b] && [b][1..] == [];
    assert Concat([b]) == b + "" == b;
  }

  /** The cut of an unsafe text that makes the filter miss a tag. */
  function WorstCut(t: string): (chunks: seq<string>)
    requires !SafeOut(t)
    ensures Concat(chunks) == t
  {
    var n := CutOut(t);
    assert t == t[..n] + (t[n..] + "");
    ConcatTwo(t[..n], t[n..]);
    [t[..n], t[n..]]
  }

  /** An unsafe text can be cut so that reasoning leaks into what is shown. */
  lemma UnsafeTextLeaks(t: string)
    requires !SafeOut(t)
    ensures Ink(Shown(WorstCut(t))) > Ink(RefOut(t))
  {
    hide Ink;
    var n := CutOut(t);
    var chunks, rest := WorstCut(t), t[n..];
    var s := State("" + t[..n], false, false);
    assert s.buf == t[..n] && s.buf + rest == t;
    BadCutOvershows(s, rest);
    var (m, out) := FeedChunk(Fresh, chunks[0]);
    assert chunks[1..] == [rest] && rest + "" == rest;
    FeedAllAtLeast(m, chunks[1..]);
    FeedAllWaits(Fresh, chunks);
    var (s', out') := FeedAll(m, chunks[1..]);
    AtEndOfStream(s');
    SubseqInk(ToShow(m, rest), out' + Flushed(s'));
    InkConcat(out, ToShow(m, rest));
    InkConcat(out, out' + Flushed(s'));
    Regroup(out, out', Flushed(s'));
  }

  /** Cutting never changes what is shown exactly for the safe texts. */
  lemma EveryCutAgreesIffSafe(t: string)
    ensures (forall chunks | Concat(chunks) == t :: Shown(chunks) == RefOut(t)) <==> SafeOut(t)
  {
    if SafeOut(t) {
      forall chunks | Concat(chunks) == t ensures Shown(chunks) == RefOut(t) {
        ShownIsReference(chunks);
      }
    } else {
      UnsafeTextLeaks(t);
      assert Concat(WorstCut(t)) == t;
    }
  }

  /** Texts in which no two `<` lie within five characters of each other are safe. */
  lemma {:induction false} SpreadOutIsSafe(t: string)
    requires forall a, b | 0 <= a < b < |t| && t[a] == '<' && t[b] == '<' :: b - a > 5
    ensures SafeOut(t) && SafeIn(t)
    decreases |t|
  {
    var i, j := Find(t, OPEN), Find(t, CLOSE);
    if i != -1 {
      AtChar(t, OPEN, i, 0);
      var u := t[i + |OPEN|..];
      assert forall a | 0 <= a < |u| :: u[a] == t[i + |OPEN| + a];
      SpreadOutIsSafe(u);
    }
    if j != -1 {
      var u := t[j + |CLOSE|..];
      assert forall a | 0 <= a < |u| :: u[a] == t[j + |CLOSE| + a];
      SpreadOutIsSafe(u);
    }
  }
}
