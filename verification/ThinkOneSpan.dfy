/** One span, with the tags and the white space written out: what every cut of such a text
    shows, and its final text. */
module ThinkOneSpan {
  import opened Text
  import opened ThinkReference
  import opened ThinkFilter
  import opened ThinkTheorems
  import opened ThinkFinalText

  lemma FindOpen(p: string, rest: string)
    requires '<' !in p
    ensures Find(p + ("<think>" + rest), OPEN) == |p|
    ensures (p + ("<think>" + rest))[|p| + |OPEN|..] == rest && (p + ("<think>" + rest))[..|p|] == p
  {
    var t := p + ("<think>" + rest);
    assert t[|p|..|p| + 7] == "<think>";
    assert At(t, OPEN, |p|);
    NoTagWithoutLt(p, "<think>" + rest, OPEN);
  }

  lemma FindClose(b: string, rest: string)
    requires '<' !in b
    ensures Find(b + ("</think>" + rest), CLOSE) == |b|
    ensures (b + ("</think>" + rest))[|b| + |CLOSE|..] == rest
  {
    var t := b + ("</think>" + rest);
    assert t[|b|..|b| + 8] == "</think>";
    assert At(t, CLOSE, |b|);
    NoTagWithoutLt(b, "</think>" + rest, CLOSE);
  }

  lemma TagHasLt(r: string, tag: string)
    requires tag == OPEN || tag == CLOSE
    ensures forall i :: At(r, tag, i) ==> '<' in r
  {
    forall i | At(r, tag, i) ensures '<' in r {
      AtChar(r, tag, i, 0);
      assert r[i] in r;
    }
  }

  lemma FindNothing(r: string, tag: string)
    requires '<' !in r && (tag == OPEN || tag == CLOSE)
    ensures Find(r, tag) == -1
  {
    TagHasLt(r, tag);
  }

  lemma OneSpanReference(p: string, b: string, r: string)
    requires '<' !in p && '<' !in b && '<' !in r
    ensures var t := p + ("<think>" + (b + ("</think>" + r)));
      SafeOut(t) && RefOut(t) == p + r && !EndsInsideFromOut(t) && ClosesASpan(t)
  {
    hide Find;
    var t := p + ("<think>" + (b + ("</think>" + r)));
    FindOpen(p, b + ("</think>" + r));
    FindClose(b, r);
    FindNothing(r, OPEN);
    assert forall k | 0 <= k < |p| :: t[k] == p[k];
    var rest := b + ("</think>" + r);
    assert RefOut(r) == r && SafeOut(r) && !EndsInsideFromOut(r);
    assert RefIn(rest) == r && SafeIn(rest) && !EndsInsideFromIn(rest);
  }

  /** However a text with one closed span and no other `<` is cut, what is shown is what
      stands around the span. */
  lemma OneSpanIsCutOut(p: string, b: string, r: string, chunks: seq<string>)
    requires '<' !in p && '<' !in b && '<' !in r
    requires Concat(chunks) == p + ("<think>" + (b + ("</think>" + r)))
    ensures Shown(chunks) == p + r
    ensures !FeedAll(Fresh, chunks).0.inside && FeedAll(Fresh, chunks).0.stripped
    ensures FinalText(chunks) == Trim(p + r)
  {
    hide Shown, FeedAll, RefOut, SafeOut, EndsInsideFromOut, ClosesASpan, Trim;
    OneSpanReference(p, b, r);
    ShownIsReference(chunks);
    FinalTextIs(chunks);
  }

  lemma OpenSpanReference(p: string, b: string)
    requires '<' !in p && '<' !in b
    ensures var t := p + ("<think>" + b);
      SafeOut(t) && RefOut(t) == p && EndsInsideFromOut(t) && !ClosesASpan(t)
  {
    hide Find;
    var t := p + ("<think>" + b);
    FindOpen(p, b);
    FindNothing(b, CLOSE);
    assert forall k | 0 <= k < |p| :: t[k] == p[k];
    assert RefIn(b) == "" && SafeIn(b) && EndsInsideFromIn(b);
    assert p + "" == p;
  }

  /** A span that is never closed hides everything behind it. */
  lemma OpenSpanHides(p: string, b: string, chunks: seq<string>)
    requires '<' !in p && '<' !in b && Concat(chunks) == p + ("<think>" + b)
    ensures Shown(chunks) == p && FinalText(chunks) == p && FeedAll(Fresh, chunks).0.inside
  {
    hide Shown, FeedAll, RefOut, SafeOut, EndsInsideFromOut, ClosesASpan, Trim;
    OpenSpanReference(p, b);
    ShownIsReference(chunks);
    FinalTextIs(chunks);
  }

  /** A text without `<` is shown as it is, white space included. */
  lemma NoSpanIsKept(t: string, chunks: seq<string>)
    requires '<' !in t && Concat(chunks) == t
    ensures Shown(chunks) == t && FinalText(chunks) == t
  {
    hide Shown, FeedAll, Trim, Find;
    FindNothing(t, OPEN);
    ShownIsReference(chunks);
    FinalTextIs(chunks);
  }

  // -- white space ----------------------------------------------------------------------------------

  /** The characters that count as white space, by code point. */
  lemma SpaceIs(c: char)
    ensures IsSpace(c) <==>
      var n := c as int;
      9 <= n <= 13 || 28 <= n <= 32 || n == 133 || n == 160 || n == 5760 || 8192 <= n <= 8202
      || n == 8232 || n == 8233 || n == 8239 || n == 8287 || n == 12288
  {
  }

  predicate Blank(s: string) {
    forall i | 0 <= i < |s| :: s[i] == ' ' || s[i] == '\t' || s[i] == '\n' || s[i] == '\r'
  }

  /** Begins and ends with a printed ASCII character, if there is one. */
  predicate Inked(s: string) {
    s != "" ==> '!' <= s[0] <= '~' && '!' <= s[|s| - 1] <= '~'
  }

  lemma InkIsNoSpace(c: char)
    ensures '!' <= c <= '~' ==> !IsSpace(c)
    ensures c == ' ' || c == '\t' || c == '\n' || c == '\r' ==> IsSpace(c)
  {
  }

  lemma {:induction false} TrimBlankLeft(l: string, w: string)
    requires Blank(l) && (w != "" ==> '!' <= w[0] <= '~')
    ensures TrimLeft(l + w) == w
  {
    hide IsSpace;
    if l == "" {
      assert l + w == w;
      if w != "" { InkIsNoSpace(w[0]); }
    } else {
      InkIsNoSpace(l[0]);
      assert (l + w)[1..] == l[1..] + w;
      TrimBlankLeft(l[1..], w);
    }
  }

  lemma {:induction false} TrimBlankRight(w: string, m: string)
    requires Blank(m) && (w != "" ==> '!' <= w[|w| - 1] <= '~')
    ensures TrimRight(w + m) == w
  {
    hide IsSpace;
    if m == "" {
      assert w + m == w;
      if w != "" { InkIsNoSpace(w[|w| - 1]); }
    } else {
      InkIsNoSpace(m[|m| - 1]);
      assert (w + m)[..|w + m| - 1] == w + m[..|m| - 1];
      TrimBlankRight(w, m[..|m| - 1]);
    }
  }

  lemma TrimsBlanks(l: string, w: string, m: string)
    requires Blank(l) && Blank(m) && Inked(w)
    ensures Trim(l + (w + m)) == w
  {
    hide TrimLeft, TrimRight;
    if w == "" {
      assert l + (w + m) == (l + m) + "";
      TrimBlankLeft(l + m, "");
      TrimBlankRight("", "");
      assert "" + "" == "";
    } else {
      TrimBlankLeft(l, w + m);
      TrimBlankRight(w, m);
    }
  }

  /** The final text of such a stream has no blanks, tabs or line ends around it, and keeps
      those inside. */
  lemma OneSpanFinalText(p: string, b: string, r: string, chunks: seq<string>, l: string, w: string, m: string)
    requires '<' !in p && '<' !in b && '<' !in r
    requires Concat(chunks) == p + ("<think>" + (b + ("</think>" + r)))
    requires p + r == l + (w + m) && Blank(l) && Blank(m) && Inked(w)
    ensures FinalText(chunks) == w
  {
    hide FinalText, Trim, Blank, Inked, Shown, FeedAll;
    OneSpanIsCutOut(p, b, r, chunks);
    TrimsBlanks(l, w, m);
  }
}
