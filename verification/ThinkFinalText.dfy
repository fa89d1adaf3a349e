/** The dispatcher's final text against `_strip_reasoning_tags` of the whole text. */
module ThinkFinalText {
  import opened Common
  import opened Text
  import opened ThinkReference
  import opened ThinkFilter
  import opened ThinkTheorems

  /** What the regular expression keeps of an unclosed span, tag excluded. */
  function UnclosedBody(t: string): string
    decreases |t|
  {
    var i := Find(t, OPEN);
    if i == -1 then "" else
    var rest := t[i + |OPEN|..];
    var j := Find(rest, CLOSE);
    if j == -1 then rest else UnclosedBody(rest[j + |CLOSE|..])
  }

  lemma UnclosedSpan(t: string, i: nat)
    requires Find(t, OPEN) == i
    requires Find(t[i + |OPEN|..], CLOSE) == -1
    ensures RegexSub(t) == RefOut(t) + (OPEN + UnclosedBody(t))
  {
    var rest := t[i + |OPEN|..];
    assert t == t[..i] + (t[i..i + |OPEN|] + rest);
    assert t[..i] + "" == t[..i];
  }

  lemma BodySkipsSpan(t: string, i: nat, n: nat)
    requires Find(t, OPEN) == i
    requires Find(t[i + |OPEN|..], CLOSE) != -1
    requires n == i + |OPEN| + Find(t[i + |OPEN|..], CLOSE) + |CLOSE|
    ensures UnclosedBody(t) == UnclosedBody(t[n..])
  {
    hide At;
    DropDrop(t, i + |OPEN|, n - i - |OPEN|);
  }

  lemma {:induction false} RegexKeepsUnclosed(t: string)
    requires EndsInsideFromOut(t)
    ensures RegexSub(t) == RefOut(t) + (OPEN + UnclosedBody(t))
    decreases |t|
  {
    hide At;
    var i := Find(t, OPEN);
    var j := Find(t[i + |OPEN|..], CLOSE);
    if j == -1 {
      UnclosedSpan(t, i);
    } else {
      var n := i + |OPEN| + j + |CLOSE|;
      OneSpan(t, i, n);
      OneSpanRegex(t, i, n);
      BodySkipsSpan(t, i, n);
      RegexKeepsUnclosed(t[n..]);
      Regroup(t[..i], RefOut(t[n..]), OPEN + UnclosedBody(t[n..]));
    }
  }

  lemma {:induction false} TrimLeftStops(p: string, x: string)
    requires x != "" && !IsSpace(x[0])
    ensures TrimLeft(p + x) == TrimLeft(p) + x
  {
    if p == "" {
      assert p + x == x;
    } else {
      assert (p + x)[1..] == p[1..] + x;
      TrimLeftStops(p[1..], x);
    }
  }

  lemma {:induction false} TrimRightStops(x: string, r: string)
    requires x != "" && !IsSpace(x[|x| - 1])
    ensures TrimRight(x + r) == x + TrimRight(r)
    decreases |r|
  {
    if r == "" {
      assert x + r == x;
    } else {
      assert (x + r)[..|x + r| - 1] == x + r[..|r| - 1];
      TrimRightStops(x, r[..|r| - 1]);
    }
  }

  /** Trimming stops at a tag kept in the text. */
  lemma TrimKeepsTag(p: string, r: string)
    ensures Trim(p + (OPEN + r)) == TrimLeft(p) + OPEN + TrimRight(r)
  {
    TrimAround(p, OPEN, r);
  }

  lemma TrimAround(p: string, m: string, r: string)
    requires m != "" && !IsSpace(m[0]) && !IsSpace(m[|m| - 1])
    ensures Trim(p + (m + r)) == TrimLeft(p) + m + TrimRight(r)
  {
    TrimLeftStops(p, m + r);
    Regroup(TrimLeft(p), m, r);
    var x := TrimLeft(p) + m;
    assert x[|x| - 1] == m[|m| - 1];
    TrimRightStops(x, r);
  }

  /** For every cut of a safe text, and for every text in one piece, the final text is
      what the regular expression gives exactly when no span is left open. */
  lemma FinalTextIsStripIffClosed(chunks: seq<string>)
    requires SafeOut(Concat(chunks)) || |chunks| <= 1
    ensures FinalText(chunks) == StripReasoningTags(Concat(chunks)) <==> !EndsInsideFromOut(Concat(chunks))
  {
    hide FinalText, StripReasoningTags, SafeOut, ClosesASpan, EndsInsideFromOut, RefOut, Trim;
    var t := Concat(chunks);
    ShownIsReference(chunks);
    FinalTextIs(chunks);
    if EndsInsideFromOut(t) {
      UnclosedDiffers(t);
    } else {
      ClosedStrip(t);
    }
  }

  lemma FinalTextIs(chunks: seq<string>)
    ensures FinalText(chunks) == if FeedAll(Fresh, chunks).0.stripped then Trim(Shown(chunks)) else Shown(chunks)
  {
    hide Trim, FeedAll;
  }

  lemma ClosedStrip(t: string)
    requires !EndsInsideFromOut(t)
    ensures StripReasoningTags(t) == if ClosesASpan(t) then Trim(RefOut(t)) else RefOut(t)
  {
    hide Trim;
    RegexIsReferenceWhenClosed(t);
  }

  lemma StripOfUnclosed(t: string)
    requires EndsInsideFromOut(t)
    ensures StripReasoningTags(t) == Trim(RegexSub(t))
    ensures Trim(RegexSub(t)) == TrimLeft(RefOut(t)) + OPEN + TrimRight(UnclosedBody(t))
    ensures Find(t, OPEN) != -1
  {
    hide Trim;
    RegexKeepsUnclosed(t);
    TrimKeepsTag(RefOut(t), UnclosedBody(t));
  }

  lemma TrimIsShorter(p: string)
    ensures |Trim(p)| <= |TrimLeft(p)|
  {
  }

  lemma NoSpanClosed(t: string)
    requires EndsInsideFromOut(t) && !ClosesASpan(t)
    ensures RefOut(t) == t[..Find(t, OPEN)]
  {
    assert RefOut(t) == t[..Find(t, OPEN)] + "";
  }

  /** Neither the trimmed nor the plain reference is what the expression keeps of a text
      with an unclosed span. */
  lemma UnclosedDiffers(t: string)
    requires EndsInsideFromOut(t)
    ensures StripReasoningTags(t) == Trim(RegexSub(t))
    ensures Trim(RefOut(t)) != Trim(RegexSub(t))
    ensures !ClosesASpan(t) ==> RefOut(t) != Trim(RegexSub(t))
  {
    hide TrimRight, TrimLeft, Trim, RefOut, RegexSub, UnclosedBody, StripReasoningTags, EndsInsideFromOut, ClosesASpan;
    StripOfUnclosed(t);
    TrimIsShorter(RefOut(t));
    var head := TrimLeft(RefOut(t));
    var strip := head + OPEN + TrimRight(UnclosedBody(t));
    assert |strip| > |head|;
    if !ClosesASpan(t) {
      NoSpanClosed(t);
      assert strip[|head|..|head| + |OPEN|] == OPEN && At(strip, OPEN, |head|);
      NoTagBeforeFirst(t, |head|);
    }
  }

  lemma FinalTextKeepsInk(chunks: seq<string>)
    ensures Ink(FinalText(chunks)) == Ink(Shown(chunks))
  {
    hide Ink, Trim;
    TrimKeepsInk(Shown(chunks));
  }

  lemma StripKeepsInk(t: string)
    requires !EndsInsideFromOut(t)
    ensures Ink(StripReasoningTags(t)) == Ink(RefOut(t))
  {
    hide Ink, Trim;
    RegexIsReferenceWhenClosed(t);
    TrimKeepsInk(RegexSub(t));
  }

  /** For every text: however it is cut, the final text is `_strip_reasoning_tags` of the
      whole, if and only if the text is safe and no span is left open. */
  lemma EveryCutEndsAlikeIff(t: string)
    ensures (forall chunks | Concat(chunks) == t :: FinalText(chunks) == StripReasoningTags(t))
      <==> SafeOut(t) && !EndsInsideFromOut(t)
  {
    hide Ink, FinalText, StripReasoningTags;
    assert Concat([t]) == t by {
      assert [t][1..] == [] && t + "" == t;
    }
    if EndsInsideFromOut(t) {
      FinalTextIsStripIffClosed([t]);
    } else if SafeOut(t) {
      forall chunks | Concat(chunks) == t ensures FinalText(chunks) == StripReasoningTags(t) {
        FinalTextIsStripIffClosed(chunks);
      }
    } else {
      UnsafeTextLeaks(t);
      FinalTextKeepsInk(WorstCut(t));
      StripKeepsInk(t);
      assert Concat(WorstCut(t)) == t;
    }
  }

  lemma NoTagBeforeFirst(t: string, k: nat)
    requires Find(t, OPEN) != -1
    ensures !At(t[..Find(t, OPEN)], OPEN, k)
  {
    var p := t[..Find(t, OPEN)];
    if At(p, OPEN, k) {
      assert t[k..k + |OPEN|] == p[k..k + |OPEN|];
      assert At(t, OPEN, k);
    }
  }

  /** The short flush cuts a tag: this text has a cut that shows more than the
      reference, and so more than the same text fed in one piece. */
  lemma ShortFlushCounterexample(t: string)
    requires t == "<a<think>x</think>"
    ensures !SafeOut(t) && Ink(Shown(WorstCut(t))) > Ink(RefOut(t))
  {
    assert t[2..2 + |OPEN|] == OPEN && At(t, OPEN, 2);
    assert !At(t, OPEN, 0) by { if At(t, OPEN, 0) { AtChar(t, OPEN, 0, 1); } }
    assert !At(t, OPEN, 1) by { if At(t, OPEN, 1) { AtChar(t, OPEN, 1, 0); } }
    assert Find(t, OPEN) == 2;
    assert t[0] == '<';
    assert !Clear(t, 2);
    UnsafeTextLeaks(t);
  }
}
