/** Substring search and whitespace trimming, with the meaning Python's
    `str.find`, `str.startswith` and `str.strip` give them. */
module Text {

  /** `p` occurs in `t` at index `i`. */
  predicate At(t: string, p: string, i: int) {
    0 <= i && i + |p| <= |t| && t[i..i + |p|] == p
  }

  /** The least index at which `p` occurs in `t`, or -1. */
  function Find(t: string, p: string): (i: int)
    ensures i == -1 ==> forall k :: !At(t, p, k)
    ensures i != -1 ==> 0 <= i <= |t| - |p| && At(t, p, i) && forall k | k < i :: !At(t, p, k)
  {
    FindFrom(t, p, 0)
  }

  function FindFrom(t: string, p: string, from: nat): (i: int)
    requires from <= |t| + 1
    ensures i == -1 ==> forall k | from <= k :: !At(t, p, k)
    ensures i != -1 ==> from <= i && At(t, p, i) && forall k | from <= k < i :: !At(t, p, k)
    decreases |t| + 1 - from
  {
    if from > |t| then -1
    else if At(t, p, from) then from
    else FindFrom(t, p, from + 1)
  }

  lemma DropDrop(t: string, i: nat, j: nat)
    requires i + j <= |t|
    ensures t[i..][j..] == t[i + j..]
  {
  }

  lemma SliceOfSum(a: string, b: string, k: nat)
    requires k <= |a|
    ensures (a + b)[k..] == a[k..] + b && (a + b)[..k] == a[..k]
  {
  }

  lemma Halves(t: string, k: nat)
    requires k <= |t|
    ensures t == t[..k] + t[k..]
  {
  }

  predicate StartsWith(t: string, p: string) {
    p <= t
  }

  lemma AtShift(t: string, p: string, k: nat, i: nat)
    requires k <= |t|
    ensures At(t[k..], p, i) <==> At(t, p, k + i)
  {
    if i + |p| <= |t| - k {
      assert t[k..][i..i + |p|] == t[k + i..k + i + |p|];
    }
  }

  /** Dropping a prefix in which no occurrence starts shifts the first occurrence. */
  lemma FindShift(t: string, p: string, k: nat)
    requires k <= |t|
    requires forall i | 0 <= i < k :: !At(t, p, i)
    ensures Find(t, p) == (if Find(t[k..], p) == -1 then -1 else k + Find(t[k..], p))
  {
    var f, g := Find(t, p), Find(t[k..], p);
    if f != -1 {
      AtShift(t, p, k, f - k);
    }
    if g != -1 {
      AtShift(t, p, k, g);
    }
  }

  /** An occurrence wholly inside a prefix of `t` is an occurrence in `t`, and back. */
  lemma FindInPrefix(t: string, p: string, n: nat)
    requires n <= |t|
    requires Find(t, p) != -1 && Find(t, p) + |p| <= n
    ensures Find(t[..n], p) == Find(t, p)
  {
    var f := Find(t, p);
    assert t[..n][f..f + |p|] == t[f..f + |p|];
    var g := Find(t[..n], p);
    assert At(t[..n], p, f);
    if g < f { assert t[..n][g..g + |p|] == t[g..g + |p|]; assert At(t, p, g); }
  }

  lemma AtChar(t: string, p: string, i: int, k: nat)
    requires At(t, p, i) && k < |p|
    ensures i + k < |t| && t[i + k] == p[k]
  {
    assert t[i..i + |p|][k] == p[k];
  }

  /** The characters `str.strip()` removes. */
  predicate IsSpace(c: char) {
    c in " \t\n\r" || c in ['\U{0b}', '\U{0c}', '\U{1c}', '\U{1d}', '\U{1e}', '\U{1f}',
                            '\U{85}', '\U{a0}', '\U{1680}', '\U{2028}', '\U{2029}',
                            '\U{202f}', '\U{205f}', '\U{3000}']
    || '\U{2000}' <= c <= '\U{200a}'
  }

  function TrimLeft(t: string): (r: string)
    ensures |r| <= |t| && r == t[|t| - |r|..]
    ensures r == "" || !IsSpace(r[0])
    ensures forall i | 0 <= i < |t| - |r| :: IsSpace(t[i])
  {
    if t != "" && IsSpace(t[0]) then TrimLeft(t[1..]) else t
  }

  function TrimRight(t: string): (r: string)
    ensures r <= t
    ensures r == "" || !IsSpace(r[|r| - 1])
    ensures forall i | |r| <= i < |t| :: IsSpace(t[i])
  {
    if t != "" && IsSpace(t[|t| - 1]) then TrimRight(t[..|t| - 1]) else t
  }

  function Trim(t: string): string {
    TrimRight(TrimLeft(t))
  }

  /** How many characters a reader sees. */
  function Ink(t: string): nat {
    if t == "" then 0 else (if IsSpace(t[0]) then 0 else 1) + Ink(t[1..])
  }

  lemma {:induction false} InkConcat(a: string, b: string)
    ensures Ink(a + b) == Ink(a) + Ink(b)
  {
    hide IsSpace;
    if a == "" {
      assert a + b == b;
    } else {
      assert (a + b)[1..] == a[1..] + b;
      InkConcat(a[1..], b);
    }
  }

  lemma {:induction false} TrimLeftKeepsInk(t: string)
    ensures Ink(TrimLeft(t)) == Ink(t)
  {
    hide IsSpace;
    if t != "" && IsSpace(t[0]) {
      TrimLeftKeepsInk(t[1..]);
    }
  }

  lemma {:induction false} TrimRightKeepsInk(t: string)
    ensures Ink(TrimRight(t)) == Ink(t)
  {
    hide IsSpace;
    if t != "" && IsSpace(t[|t| - 1]) {
      var n := |t| - 1;
      TrimRightKeepsInk(t[..n]);
      assert t == t[..n] + [t[n]] && [t[n]][1..] == "";
      InkConcat(t[..n], [t[n]]);
    }
  }

  lemma TrimKeepsInk(t: string)
    ensures Ink(Trim(t)) == Ink(t)
  {
    TrimLeftKeepsInk(t);
    TrimRightKeepsInk(TrimLeft(t));
  }

  function Concat(chunks: seq<string>): string {
    if chunks == [] then "" else chunks[0] + Concat(chunks[1..])
  }
}
