/** What several parts of the model share. */
module Common {

  datatype Option<+T> = None | Some(value: T)

  /** The facts a loop over a sequence needs at its start, at each step and at its end. */
  lemma Prefixes<T>(s: seq<T>, i: nat)
    requires i <= |s|
    ensures s[..0] == [] && s[..|s|] == s
    ensures i < |s| ==> s[..i + 1] == s[..i] + [s[i]]
  {
  }

  lemma Regroup<T>(a: seq<T>, b: seq<T>, c: seq<T>)
    ensures a + (b + c) == a + b + c
  {
  }

  lemma Member<T>(s: seq<T>, x: T) returns (i: nat)
    requires x in s
    ensures i < |s| && s[i] == x
  {
    i :| 0 <= i < |s| && s[i] == x;
  }
}
