/** What deleting `<think>` spans means, without any chunking: the one-pass
    deletion the streaming filter stands for, and the regular-expression
    version used for whole texts. */
module ThinkReference {
  import opened Common
  import opened Text

  const OPEN := "<think>"
  const CLOSE := "</think>"

  /** The visible part of `t`, read from outside a span: every leftmost
      `<think>` .. first `</think>` span is deleted, an unclosed one to the end. */
  function RefOut(t: string): string
    decreases |t|
  {
    var i := Find(t, OPEN);
    if i == -1 then t else t[..i] + RefIn(t[i + |OPEN|..])
  }

  /** The visible part of `t`, read from inside a span. */
  function RefIn(t: string): string
    decreases |t|
  {
    var j := Find(t, CLOSE);
    if j == -1 then "" else RefOut(t[j + |CLOSE|..])
  }

  /** Reading `t` from outside (inside) a span ends inside an unclosed one. */
  predicate EndsInsideFromOut(t: string)
    decreases |t|
  {
    var i := Find(t, OPEN);
    i != -1 && EndsInsideFromIn(t[i + |OPEN|..])
  }

  predicate EndsInsideFromIn(t: string)
    decreases |t|
  {
    var j := Find(t, CLOSE);
    j == -1 || EndsInsideFromOut(t[j + |CLOSE|..])
  }

  /** Reading `t` from outside a span meets at least one span that is closed. */
  predicate ClosesASpan(t: string) {
    var i := Find(t, OPEN);
    i != -1 && Find(t[i + |OPEN|..], CLOSE) != -1
  }

  /** No `<` stands outside a span within five characters before a `<think>`
      that opens one. */
  predicate SafeOut(t: string)
    decreases |t|
  {
    var i := Find(t, OPEN);
    i != -1 ==> Clear(t, i) && SafeIn(t[i + |OPEN|..])
  }

  predicate SafeIn(t: string)
    decreases |t|
  {
    var j := Find(t, CLOSE);
    j != -1 ==> SafeOut(t[j + |CLOSE|..])
  }

  predicate Clear(t: string, i: nat)
    requires i <= |t|
  {
    forall k | 0 <= k < i && i - 5 <= k :: t[k] != '<'
  }

  /** `re.sub(r"<think>.*?</think>", "", t)` with DOTALL: a `<think>` with no
      `</think>` behind it is kept, with everything after it. */
  function RegexSub(t: string): string
    decreases |t|
  {
    var i := Find(t, OPEN);
    if i == -1 then t else
    var rest := t[i + |OPEN|..];
    var j := Find(rest, CLOSE);
    if j == -1 then t else t[..i] + RegexSub(rest[j + |CLOSE|..])
  }

  function StripReasoningTags(t: string): string {
    if Find(t, OPEN) == -1 then t else Trim(RegexSub(t))
  }

  /** The first open tag, seen from `k` characters further on. */
  lemma OutShift(t: string, k: nat)
    requires k <= |t|
    requires forall i | 0 <= i < k :: !At(t, OPEN, i)
    ensures var i, g := Find(t, OPEN), Find(t[k..], OPEN);
      if g == -1 then i == -1
      else i == k + g && t[i + |OPEN|..] == t[k..][g + |OPEN|..] && t[..i] == t[..k] + t[k..][..g]
  {
    FindShift(t, OPEN, k);
  }

  /** Skipping characters at which no open tag starts. */
  lemma OutSkip(t: string, k: nat)
    requires k <= |t|
    requires forall i | 0 <= i < k :: !At(t, OPEN, i)
    ensures RefOut(t) == t[..k] + RefOut(t[k..])
    ensures EndsInsideFromOut(t) == EndsInsideFromOut(t[k..])
    ensures ClosesASpan(t) == ClosesASpan(t[k..])
  {
    hide At;
    OutShift(t, k);
    var g := Find(t[k..], OPEN);
    if g == -1 {
      Halves(t, k);
    } else {
      Regroup(t[..k], t[k..][..g], RefIn(t[k..][g + |OPEN|..]));
    }
  }

  lemma SafeSkip(t: string, k: nat)
    requires k <= |t| && SafeOut(t)
    requires forall i | 0 <= i < k :: !At(t, OPEN, i)
    ensures SafeOut(t[k..])
  {
    OutShift(t, k);
    var u, g := t[k..], Find(t[k..], OPEN);
    if g != -1 {
      forall m | 0 <= m < g && g - 5 <= m ensures u[m] != '<' {
        assert u[m] == t[k + m];
      }
    }
  }

  /** Skipping characters at which no close tag starts. */
  lemma InSkip(t: string, k: nat)
    requires k <= |t|
    requires forall i | 0 <= i < k :: !At(t, CLOSE, i)
    ensures RefIn(t) == RefIn(t[k..])
    ensures EndsInsideFromIn(t) == EndsInsideFromIn(t[k..])
    ensures Find(t, CLOSE) == -1 <==> Find(t[k..], CLOSE) == -1
    ensures SafeIn(t) == SafeIn(t[k..])
  {
    hide At;
    FindShift(t, CLOSE, k);
    var g := Find(t[k..], CLOSE);
    if g != -1 {
      DropDrop(t, k, g + |CLOSE|);
    }
  }

  /** A tag that stands at the head of a text is what the reading consumes. */
  lemma OutConsume(t: string)
    requires At(t, OPEN, 0)
    ensures RefOut(t) == RefIn(t[|OPEN|..])
    ensures EndsInsideFromOut(t) == EndsInsideFromIn(t[|OPEN|..])
    ensures ClosesASpan(t) <==> Find(t[|OPEN|..], CLOSE) != -1
    ensures SafeOut(t) ==> SafeIn(t[|OPEN|..])
  {
    assert Find(t, OPEN) == 0;
  }

  /** Text without `<` cannot hold the start of a tag. */
  lemma NoTagWithoutLt(u: string, rest: string, tag: string)
    requires tag == OPEN || tag == CLOSE
    requires '<' !in u
    ensures forall i | 0 <= i < |u| :: !At(u + rest, tag, i)
  {
    forall i | 0 <= i < |u| ensures !At(u + rest, tag, i) {
      if At(u + rest, tag, i) {
        AtChar(u + rest, tag, i, 0);
      }
    }
  }

  /** Only the first character of a tag is `<`, so tags never overlap. */
  lemma InsideTag(t: string, tag: string, i: nat, k: nat)
    requires tag == OPEN || tag == CLOSE
    requires At(t, tag, i) && i < k < i + |tag|
    ensures t[k] != '<' && !At(t, OPEN, k) && !At(t, CLOSE, k)
  {
    AtChar(t, tag, i, k - i);
    if At(t, OPEN, k) { AtChar(t, OPEN, k, 0); }
    if At(t, CLOSE, k) { AtChar(t, CLOSE, k, 0); }
  }

  lemma TagsDiffer(t: string, i: int)
    ensures !(At(t, OPEN, i) && At(t, CLOSE, i))
  {
    if At(t, OPEN, i) && At(t, CLOSE, i) {
      AtChar(t, OPEN, i, 1);
      AtChar(t, CLOSE, i, 1);
    }
  }

  predicate IsSuffix(s: string, t: string) {
    |s| <= |t| && t[|t| - |s|..] == s
  }

  /** With the first `</think>` before any `<think>`, both readings meet behind it. */
  lemma MeetBehindClose(t: string, j: nat)
    requires Find(t, CLOSE) == j
    requires Find(t, OPEN) == -1 || j < Find(t, OPEN)
    ensures RefOut(t) == t[..j + |CLOSE|] + RefIn(t)
    ensures EndsInsideFromOut(t) == EndsInsideFromIn(t)
  {
    forall k | 0 <= k < j + |CLOSE| ensures !At(t, OPEN, k) {
      if j < k {
        InsideTag(t, CLOSE, j, k);
      }
    }
    OutSkip(t, j + |CLOSE|);
  }

  lemma OpenEndsBeforeClose(t: string, i: nat, j: nat)
    requires At(t, OPEN, i) && At(t, CLOSE, j) && i < j
    ensures i + |OPEN| <= j
  {
    if j < i + |OPEN| {
      InsideTag(t, OPEN, i, j);
    }
  }

  /** With a `<think>` before the first `</think>`, both readings are inside behind it. */
  lemma MeetBehindOpen(t: string, i: nat, j: nat)
    requires Find(t, OPEN) == i && Find(t, CLOSE) == j && i < j
    ensures RefOut(t) == t[..i] + RefIn(t)
    ensures EndsInsideFromOut(t) == EndsInsideFromIn(t)
  {
    hide At;
    OpenEndsBeforeClose(t, i, j);
    InSkip(t, i + |OPEN|);
  }

  /** Reading from outside shows at least what reading from inside shows, and
      ends inside a span only if that does: one wrong turn into "outside" heals
      at the next `</think>`. */
  lemma OutShowsMore(t: string)
    ensures IsSuffix(RefIn(t), RefOut(t))
    ensures EndsInsideFromOut(t) ==> EndsInsideFromIn(t)
  {
    var i, j := Find(t, OPEN), Find(t, CLOSE);
    if j != -1 {
      TagsDiffer(t, j);
      if i != -1 && i < j {
        MeetBehindOpen(t, i, j);
      } else {
        MeetBehindClose(t, j);
      }
    }
  }

  /** One closed span, at `i`, whose close tag ends at `n`. */
  lemma OneSpan(t: string, i: nat, n: nat)
    requires Find(t, OPEN) == i
    requires Find(t[i + |OPEN|..], CLOSE) != -1
    requires n == i + |OPEN| + Find(t[i + |OPEN|..], CLOSE) + |CLOSE|
    ensures RefOut(t) == t[..i] + RefOut(t[n..])
    ensures EndsInsideFromOut(t) == EndsInsideFromOut(t[n..])
  {
    hide At;
    DropDrop(t, i + |OPEN|, n - i - |OPEN|);
  }

  lemma OneSpanRegex(t: string, i: nat, n: nat)
    requires Find(t, OPEN) == i
    requires Find(t[i + |OPEN|..], CLOSE) != -1
    requires n == i + |OPEN| + Find(t[i + |OPEN|..], CLOSE) + |CLOSE|
    ensures RegexSub(t) == t[..i] + RegexSub(t[n..])
  {
    hide At;
    DropDrop(t, i + |OPEN|, n - i - |OPEN|);
  }

  /** Where every span is closed, the two whole-text versions agree. */
  lemma {:induction false} RegexIsReferenceWhenClosed(t: string)
    requires !EndsInsideFromOut(t)
    ensures RegexSub(t) == RefOut(t)
    decreases |t|
  {
    hide At;
    var i := Find(t, OPEN);
    if i != -1 {
      var n := i + |OPEN| + Find(t[i + |OPEN|..], CLOSE) + |CLOSE|;
      OneSpan(t, i, n);
      OneSpanRegex(t, i, n);
      RegexIsReferenceWhenClosed(t[n..]);
    }
  }
}
