/** Sequences of key-value writes, as a dictionary or a table takes them. */
module Writes {

  function WriteAll<V>(m: map<string, V>, ws: seq<(string, V)>): map<string, V>
    decreases |ws|
  {
    if ws == [] then m else WriteAll(m[ws[0].0 := ws[0].1], ws[1..])
  }

  predicate Writes<V>(ws: seq<(string, V)>, key: string) {
    exists i :: 0 <= i < |ws| && ws[i].0 == key
  }

  lemma WritesTail<V>(ws: seq<(string, V)>, key: string)
    requires ws != [] && ws[0].0 != key
    ensures Writes(ws, key) <==> Writes(ws[1..], key)
  {
    if Writes(ws, key) {
      var i :| 0 <= i < |ws| && ws[i].0 == key;
      assert ws[1..][i - 1].0 == key;
    }
  }

  lemma {:induction false} WriteAllConcat<V>(m: map<string, V>, a: seq<(string, V)>, b: seq<(string, V)>)
    ensures WriteAll(m, a + b) == WriteAll(WriteAll(m, a), b)
    decreases |a|
  {
    if a == [] {
      assert a + b == b;
    } else {
      assert (a + b)[1..] == a[1..] + b;
      WriteAllConcat(m[a[0].0 := a[0].1], a[1..], b);
    }
  }

  lemma WriteAllAppend<V>(m: map<string, V>, ws: seq<(string, V)>, w: (string, V))
    ensures WriteAll(m, ws + [w]) == WriteAll(m, ws)[w.0 := w.1]
  {
    WriteAllConcat(m, ws, [w]);
    assert [w][1..] == [];
  }

  /** A key nobody writes stays as it was. */
  lemma {:induction false} Untouched<V>(m: map<string, V>, ws: seq<(string, V)>, key: string)
    requires !Writes(ws, key)
    ensures key in WriteAll(m, ws) <==> key in m
    ensures key in m ==> WriteAll(m, ws)[key] == m[key]
    decreases |ws|
  {
    if ws != [] {
      assert forall i | 0 <= i < |ws| - 1 :: ws[1..][i] == ws[i + 1];
      Untouched(m[ws[0].0 := ws[0].1], ws[1..], key);
    }
  }

  /** A key that all its writers give one value ends with that value. */
  lemma {:induction false} Written<V>(m: map<string, V>, ws: seq<(string, V)>, key: string, value: V)
    requires Writes(ws, key) || (key in m && m[key] == value)
    requires forall i | 0 <= i < |ws| && ws[i].0 == key :: ws[i].1 == value
    ensures key in WriteAll(m, ws) && WriteAll(m, ws)[key] == value
    decreases |ws|
  {
    if ws != [] {
      var m1 := m[ws[0].0 := ws[0].1];
      assert forall i | 0 <= i < |ws| - 1 :: ws[1..][i] == ws[i + 1];
      if ws[0].0 != key {
        WritesTail(ws, key);
      }
      Written(m1, ws[1..], key, value);
    }
  }

  /** Tables that differ only where the writes land are the same afterwards. */
  lemma {:induction false} Overwritten<V>(m: map<string, V>, n: map<string, V>, ws: seq<(string, V)>)
    requires forall k | !Writes(ws, k) :: (k in m <==> k in n) && (k in m ==> m[k] == n[k])
    ensures WriteAll(m, ws) == WriteAll(n, ws)
    decreases |ws|
  {
    if ws == [] {
      assert forall k :: !Writes(ws, k);
    } else {
      var m1, n1 := m[ws[0].0 := ws[0].1], n[ws[0].0 := ws[0].1];
      forall k | !Writes(ws[1..], k)
        ensures (k in m1 <==> k in n1) && (k in m1 ==> m1[k] == n1[k])
      {
        if k != ws[0].0 {
          WritesTail(ws, k);
        }
      }
      Overwritten(m1, n1, ws[1..]);
    }
  }

  /** Stopping after any number of writes and starting over from the first one gives
      what an undisturbed run gives. */
  lemma Restarted<V>(m: map<string, V>, ws: seq<(string, V)>, k: nat)
    requires k <= |ws|
    ensures WriteAll(WriteAll(m, ws[..k]), ws) == WriteAll(m, ws)
  {
    var half := WriteAll(m, ws[..k]);
    forall key | !Writes(ws, key)
      ensures (key in m <==> key in half) && (key in m ==> m[key] == half[key])
    {
      assert !Writes(ws[..k], key);
      Untouched(m, ws[..k], key);
    }
    Overwritten(half, m, ws);
  }
}
