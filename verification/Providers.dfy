/** The first-boot bootstrap of `providers.<id>.*` from the loaded provider plugins. */
module Providers {
  import opened Writes
  import opened Tape
  import opened Flatten
  import opened ConfigStore

  const SEEDED_MARKER := "_meta.providers_seeded_at"

  function Underscored(name: string): string {
    seq(|name|, i requires 0 <= i < |name| => if name[i] == '-' then '_' else name[i])
  }

  function LegacyPrefix(id: string): string {
    PluginPrefix(Underscored(id))
  }

  function InstancePrefix(id: string): string {
    "providers" + "." + id + "."
  }

  function KeysUnder(cache: Cache, prefix: string): set<string> {
    set k | k in cache && prefix <= k
  }

  /** Rows are listed in an order that depends on their keys alone. */
  type Order = set<string> -> seq<string>

  ghost predicate Enumerates(order: Order) {
    forall s, k :: k in order(s) <==> k in s
  }

  /** The writes that lift one provider's legacy rows, in the order listed. */
  function Lift(cache: Cache, id: string, keys: seq<string>): seq<(string, Json)> {
    if keys == [] then [] else
    var key, prefix := keys[0], LegacyPrefix(id);
    (if prefix < key && key in cache then [(InstancePrefix(id) + key[|prefix|..], cache[key])] else [])
    + Lift(cache, id, keys[1..])
  }

  function Identity(id: string): seq<(string, Json)> {
    [(InstancePrefix(id) + "plugin", Str(id)), (InstancePrefix(id) + "label", Str(id + " (default)"))]
  }

  function SeedWrites(cache: Cache, id: string, order: Order): seq<(string, Json)> {
    Identity(id) + Lift(cache, id, order(KeysUnder(cache, LegacyPrefix(id))))
  }

  function Seeds(cache: Cache, ids: seq<string>, order: Order): seq<(string, Json)> {
    if ids == [] then [] else SeedWrites(cache, ids[0], order) + Seeds(cache, ids[1..], order)
  }

  function ProviderWrite(cache: Cache, ids: seq<string>): seq<(string, Json)>
    requires ids != []
  {
    if Truthy(Get(cache, "provider", Null)) then [] else [("provider", Str(ids[0]))]
  }

  /** Everything a boot writes before the marker, in order. */
  function BootWrites(cache: Cache, ids: seq<string>, order: Order): seq<(string, Json)>
    requires ids != []
  {
    Seeds(cache, ids, order) + ProviderWrite(cache, ids)
  }

  function Bootstrapped(cache: Cache, ids: seq<string>, order: Order, now: int): Cache {
    if SEEDED_MARKER in cache || ids == [] then cache
    else WriteAll(cache, BootWrites(cache, ids, order))[SEEDED_MARKER := Num(now)]
  }

  function CrashedAfter(cache: Cache, ids: seq<string>, order: Order, k: nat): Cache {
    if SEEDED_MARKER in cache || ids == [] || k > |BootWrites(cache, ids, order)| then cache
    else WriteAll(cache, BootWrites(cache, ids, order)[..k])
  }

  /** Legacy rows stand under the plugin's name with its dashes as underscores, the rows of
      its instance under the name itself. */
  lemma PrefixesAre(id: string)
    ensures var ns := LegacyPrefix(id)[7..|id| + 7];
      && LegacyPrefix(id) == "plugin." + ns + "." && |ns| == |id|
      && forall i | 0 <= i < |id| :: ns[i] == if id[i] == '-' then '_' else id[i]
    ensures InstancePrefix(id) == "providers." + id + "."
  {
    assert "plugin" + "." == "plugin." && "providers" + "." == "providers.";
    assert LegacyPrefix(id) == "plugin." + Underscored(id) + ".";
    assert LegacyPrefix(id)[7..|id| + 7] == Underscored(id);
  }

  /** The marker keeps a second boot from seeding; a boot without providers leaves none. */
  lemma SeededIs(cache: Cache, ids: seq<string>, order: Order, now: int)
    ensures "_meta.providers_seeded_at" in Bootstrapped(cache, ids, order, now) <==>
      "_meta.providers_seeded_at" in cache || ids != []
    ensures "_meta.providers_seeded_at" in cache || ids == [] ==> Bootstrapped(cache, ids, order, now) == cache
  {
    hide BootWrites, WriteAll;
  }

  // -- seeding reads nothing that it writes --------------------------------------------------------

  ghost predicate SameLegacy(a: Cache, b: Cache) {
    forall k | "plugin." <= k :: (k in a <==> k in b) && (k in a ==> a[k] == b[k])
  }

  predicate OffLegacy(key: string) {
    !("plugin." <= key) && key != "provider" && key != SEEDED_MARKER
  }

  lemma InstanceOffLegacy(id: string, field: string)
    ensures OffLegacy(InstancePrefix(id) + field)
  {
    var key := InstancePrefix(id) + field;
    assert key[1] == 'r' && "plugin."[1] == 'l';
    assert key[8] == 's' && key[0] == 'p' && SEEDED_MARKER[0] == '_';
  }

  lemma {:induction false} LiftOffLegacy(cache: Cache, id: string, keys: seq<string>)
    ensures forall i | 0 <= i < |Lift(cache, id, keys)| :: OffLegacy(Lift(cache, id, keys)[i].0)
  {
    hide OffLegacy, InstancePrefix, LegacyPrefix;
    if keys != [] {
      LiftOffLegacy(cache, id, keys[1..]);
      var prefix := LegacyPrefix(id);
      if prefix < keys[0] {
        InstanceOffLegacy(id, keys[0][|prefix|..]);
      }
    }
  }

  lemma {:induction false} SeedsOffLegacy(cache: Cache, ids: seq<string>, order: Order)
    ensures forall i | 0 <= i < |Seeds(cache, ids, order)| :: OffLegacy(Seeds(cache, ids, order)[i].0)
  {
    hide OffLegacy, InstancePrefix, LegacyPrefix, Lift;
    if ids != [] {
      InstanceOffLegacy(ids[0], "plugin");
      InstanceOffLegacy(ids[0], "label");
      LiftOffLegacy(cache, ids[0], order(KeysUnder(cache, LegacyPrefix(ids[0]))));
      SeedsOffLegacy(cache, ids[1..], order);
    }
  }

  lemma LegacyPrefixStarts(id: string, key: string)
    requires LegacyPrefix(id) <= key
    ensures "plugin." <= key
  {
    PluginPrefixStarts(Underscored(id), "");
    assert "plugin." <= LegacyPrefix(id) + "";
  }

  lemma {:induction false} SameLift(a: Cache, b: Cache, id: string, keys: seq<string>)
    requires SameLegacy(a, b)
    ensures Lift(a, id, keys) == Lift(b, id, keys)
  {
    hide LegacyPrefix, InstancePrefix;
    if keys != [] {
      SameLift(a, b, id, keys[1..]);
      if LegacyPrefix(id) < keys[0] {
        LegacyPrefixStarts(id, keys[0]);
      }
    }
  }

  lemma SameKeys(a: Cache, b: Cache, id: string)
    requires SameLegacy(a, b)
    ensures KeysUnder(a, LegacyPrefix(id)) == KeysUnder(b, LegacyPrefix(id))
  {
    hide LegacyPrefix;
    forall k | LegacyPrefix(id) <= k ensures k in a <==> k in b {
      LegacyPrefixStarts(id, k);
    }
  }

  lemma {:induction false} SameSeeds(a: Cache, b: Cache, ids: seq<string>, order: Order)
    requires SameLegacy(a, b)
    ensures Seeds(a, ids, order) == Seeds(b, ids, order)
  {
    hide LegacyPrefix, Lift, KeysUnder, Identity;
    if ids != [] {
      SameKeys(a, b, ids[0]);
      SameLift(a, b, ids[0], order(KeysUnder(a, LegacyPrefix(ids[0]))));
      SameSeeds(a, b, ids[1..], order);
    }
  }

  lemma KeepsLegacy(cache: Cache, ws: seq<(string, Json)>)
    requires forall i | 0 <= i < |ws| :: !("plugin." <= ws[i].0)
    ensures SameLegacy(cache, WriteAll(cache, ws))
  {
    forall k | "plugin." <= k
      ensures (k in cache <==> k in WriteAll(cache, ws)) && (k in cache ==> cache[k] == WriteAll(cache, ws)[k])
    {
      assert !Writes.Writes(ws, k);
      Untouched(cache, ws, k);
    }
  }

  lemma NotLegacy(ws: seq<(string, Json)>)
    requires forall i | 0 <= i < |ws| :: OffLegacy(ws[i].0)
    ensures forall i | 0 <= i < |ws| :: !("plugin." <= ws[i].0)
    ensures !Writes.Writes(ws, "provider") && !Writes.Writes(ws, SEEDED_MARKER)
  {
  }

  // -- crash and restart ---------------------------------------------------------------------------

  lemma ProviderIsNoPlugin()
    ensures !("plugin." <= "provider") && "provider" != SEEDED_MARKER
  {
    assert "plugin."[1] == 'l' && "provider"[1] == 'r' && SEEDED_MARKER[0] == '_';
  }

  lemma AroundOther(m: Cache, ws: seq<(string, Json)>, key: string, v: Json)
    requires !Writes.Writes(ws, key)
    ensures WriteAll(m[key := v], ws) == WriteAll(m, ws)[key := v]
    decreases |ws|
  {
    if ws != [] {
      assert ws[0].0 != key;
      WritesTail(ws, key);
      assert m[key := v][ws[0].0 := ws[0].1] == m[ws[0].0 := ws[0].1][key := v];
      AroundOther(m[ws[0].0 := ws[0].1], ws[1..], key, v);
    }
  }

  lemma CutSum<T>(a: seq<T>, b: seq<T>, k: nat)
    requires k <= |a| + |b| && |b| <= 1
    ensures k <= |a| ==> (a + b)[..k] == a[..k]
    ensures k > |a| ==> (a + b)[..k] == a + b
  {
  }

  /** A boot after a crash before the marker, at any write, ends where an undisturbed
      boot would have ended. */
  lemma BootAfterCrash(cache: Cache, ids: seq<string>, order: Order, k: nat)
    requires SEEDED_MARKER !in cache && ids != []
    ensures var half := CrashedAfter(cache, ids, order, k);
      && SEEDED_MARKER !in half
      && WriteAll(half, BootWrites(half, ids, order)) == WriteAll(cache, BootWrites(cache, ids, order))
  {
    hide Seeds, OffLegacy, SameLegacy, WriteAll, Writes.Writes;
    var s := Seeds(cache, ids, order);
    var p := ProviderWrite(cache, ids);
    SeedsOffLegacy(cache, ids, order);
    NotLegacy(s);
    ProviderIsNoPlugin();
    if k <= |s| + |p| {
      CutSum(s, p, k);
      if k <= |s| {
        CrashInSeeds(cache, ids, order, k);
      } else {
        CrashBehindProvider(cache, ids, order);
      }
    }
  }

  lemma CrashInSeeds(cache: Cache, ids: seq<string>, order: Order, k: nat)
    requires SEEDED_MARKER !in cache && ids != [] && k <= |Seeds(cache, ids, order)|
    ensures var half := WriteAll(cache, Seeds(cache, ids, order)[..k]);
      && SEEDED_MARKER !in half
      && WriteAll(half, BootWrites(half, ids, order)) == WriteAll(cache, BootWrites(cache, ids, order))
  {
    hide Seeds, OffLegacy, SameLegacy, WriteAll;
    var s := Seeds(cache, ids, order);
    var half := WriteAll(cache, s[..k]);
    SeedsOffLegacy(cache, ids, order);
    NotLegacy(s[..k]);
    KeepsLegacy(cache, s[..k]);
    SameSeeds(cache, half, ids, order);
    Untouched(cache, s[..k], SEEDED_MARKER);
    Untouched(cache, s[..k], "provider");
    Restarted(cache, s, k);
    WriteAllConcat(cache, s, ProviderWrite(cache, ids));
    WriteAllConcat(half, s, ProviderWrite(half, ids));
  }

  lemma OneWrite(m: Cache, key: string, v: Json)
    ensures WriteAll(m, [(key, v)]) == m[key := v]
  {
    assert [(key, v)][1..] == [];
  }

  lemma {:induction false} NoWrites(m: Cache)
    ensures WriteAll(m, []) == m
  {
  }

  lemma CrashBehindProvider(cache: Cache, ids: seq<string>, order: Order)
    requires SEEDED_MARKER !in cache && ids != [] && ProviderWrite(cache, ids) != []
    ensures var half := WriteAll(cache, BootWrites(cache, ids, order));
      && SEEDED_MARKER !in half
      && WriteAll(half, BootWrites(half, ids, order)) == half
  {
    hide Seeds, OffLegacy, SameLegacy, WriteAll;
    var s := Seeds(cache, ids, order);
    var x := WriteAll(cache, s);
    var v := Str(ids[0]);
    var half := x["provider" := v];
    SeedsOffLegacy(cache, ids, order);
    NotLegacy(s);
    ProviderIsNoPlugin();
    WriteAllConcat(cache, s, [("provider", v)]);
    OneWrite(x, "provider", v);
    Untouched(cache, s, SEEDED_MARKER);
    KeepsLegacy(cache, s);
    assert SameLegacy(cache, half) by { LegacyBesideProvider(cache, x, v); }
    SameSeeds(cache, half, ids, order);
    AroundOther(x, s, "provider", v);
    Restarted(cache, s, |s|);
    assert s[..|s|] == s;
    assert WriteAll(half, s) == half;
    WriteAllConcat(half, s, ProviderWrite(half, ids));
    OneWrite(half, "provider", v);
    NoWrites(half);
  }

  lemma LegacyBesideProvider(cache: Cache, x: Cache, v: Json)
    requires SameLegacy(cache, x)
    ensures SameLegacy(cache, x["provider" := v])
  {
    ProviderIsNoPlugin();
  }

  function CrashedOften(cache: Cache, ids: seq<string>, order: Order, ks: seq<nat>): Cache
    decreases |ks|
  {
    if ks == [] then cache else CrashedOften(CrashedAfter(cache, ids, order, ks[0]), ids, order, ks[1..])
  }

  /** However many boots die while seeding, the one that gets through leaves the same
      store as a single undisturbed boot, the marker's time aside; and once the marker
      is there, seeding is over for good. */
  lemma {:induction false} BootstrapRestarts(cache: Cache, ids: seq<string>, order: Order, ks: seq<nat>,
      earlier: int, now: int)
    ensures Bootstrapped(CrashedOften(cache, ids, order, ks), ids, order, now) - {SEEDED_MARKER}
         == Bootstrapped(cache, ids, order, earlier) - {SEEDED_MARKER}
    ensures var done := Bootstrapped(cache, ids, order, earlier);
      forall others :: ids != [] ==> Bootstrapped(done, others, order, now) == done
    decreases |ks|
  {
    hide BootWrites, WriteAll, CrashedAfter;
    if ks == [] || SEEDED_MARKER in cache || ids == [] {
      NeverCrashed(cache, ids, order, ks);
      if SEEDED_MARKER !in cache && ids != [] {
        var all := WriteAll(cache, BootWrites(cache, ids, order));
        assert all[SEEDED_MARKER := Num(now)] - {SEEDED_MARKER} == all[SEEDED_MARKER := Num(earlier)] - {SEEDED_MARKER};
      }
    } else {
      BootAfterCrash(cache, ids, order, ks[0]);
      BootstrapRestarts(CrashedAfter(cache, ids, order, ks[0]), ids, order, ks[1..], earlier, now);
    }
  }

  /** A boot killed after `k` of its writes leaves those writes, and the next one starts from
      there. */
  lemma CrashLeaves(cache: Cache, ids: seq<string>, order: Order, k: nat, ks: seq<nat>)
    requires "_meta.providers_seeded_at" !in cache && ids != [] && k <= |BootWrites(cache, ids, order)|
    ensures var left := WriteAll(cache, BootWrites(cache, ids, order)[..k]);
      && CrashedAfter(cache, ids, order, k) == left
      && CrashedOften(cache, ids, order, [k] + ks) == CrashedOften(left, ids, order, ks)
    ensures CrashedOften(cache, ids, order, []) == cache
  {
    hide BootWrites, WriteAll;
    assert ([k] + ks)[1..] == ks;
  }

  lemma {:induction false} NeverCrashed(cache: Cache, ids: seq<string>, order: Order, ks: seq<nat>)
    requires ks == [] || SEEDED_MARKER in cache || ids == []
    ensures CrashedOften(cache, ids, order, ks) == cache
    decreases |ks|
  {
    if ks != [] {
      NeverCrashed(cache, ids, order, ks[1..]);
    }
  }
}
