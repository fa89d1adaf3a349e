/** The bootstrap as it runs against the live store, and what each provider instance
    holds afterwards. */
module ProviderBootstrap {
  import opened Common
  import opened Writes
  import opened Tape
  import opened Flatten
  import opened ConfigStore
  import opened Providers

  lemma {:induction false} LiftConcat(cache: Cache, id: string, a: seq<string>, b: seq<string>)
    ensures Lift(cache, id, a + b) == Lift(cache, id, a) + Lift(cache, id, b)
    decreases |a|
  {
    hide InstancePrefix, LegacyPrefix;
    if a == [] {
      assert a + b == b;
    } else {
      assert (a + b)[1..] == a[1..] + b;
      LiftConcat(cache, id, a[1..], b);
    }
  }

  lemma {:induction false} SeedsConcat(cache: Cache, a: seq<string>, b: seq<string>, order: Order)
    ensures Seeds(cache, a + b, order) == Seeds(cache, a, order) + Seeds(cache, b, order)
    decreases |a|
  {
    hide SeedWrites;
    if a == [] {
      assert a + b == b;
    } else {
      assert (a + b)[1..] == a[1..] + b;
      SeedsConcat(cache, a[1..], b, order);
    }
  }

  lemma OneSeed(cache: Cache, id: string, order: Order)
    ensures Seeds(cache, [id], order) == SeedWrites(cache, id, order)
  {
    hide SeedWrites;
    assert [id][1..] == [];
  }

  lemma OneLift(cache: Cache, id: string, key: string)
    ensures Lift(cache, id, [key]) ==
      if LegacyPrefix(id) < key && key in cache
      then [(InstancePrefix(id) + key[|LegacyPrefix(id)|..], cache[key])] else []
  {
    assert [key][1..] == [];
  }

  lemma InstanceKeyNotEmpty(id: string, field: string)
    ensures InstancePrefix(id) + field != ""
  {
  }

  /** Lift the listed rows one write at a time. */
  method LiftRows(store: Store, id: string, rows: Cache, keys: seq<string>)
    requires store.Valid() && !store.closed
    requires forall i | 0 <= i < |keys| :: keys[i] in rows && LegacyPrefix(id) <= keys[i]
    modifies store
    ensures store.Valid() && !store.closed
    ensures store.cache == WriteAll(old(store.cache), Lift(rows, id, keys))
  {
    hide InstancePrefix, LegacyPrefix, WriteAll, Lift;
    var prefix := LegacyPrefix(id);
    Prefixes(keys, 0);
    NothingLifted(rows, id, store.cache);
    for j := 0 to |keys|
      invariant store.Valid() && !store.closed
      invariant store.cache == WriteAll(old(store.cache), Lift(rows, id, keys[..j]))
    {
      Prefixes(keys, j);
      LiftConcat(rows, id, keys[..j], [keys[j]]);
      OneLift(rows, id, keys[j]);
      var field := keys[j][|prefix|..];
      if field != "" {
        var key := InstancePrefix(id) + field;
        InstanceKeyNotEmpty(id, field);
        WriteAllAppend(old(store.cache), Lift(rows, id, keys[..j]), (key, rows[keys[j]]));
        var r := store.Set(key, Plain(rows[keys[j]]));
      } else {
        assert Lift(rows, id, keys[..j]) + [] == Lift(rows, id, keys[..j]);
      }
    }
  }

  lemma NothingLifted(rows: Cache, id: string, m: Cache)
    ensures Lift(rows, id, []) == [] && WriteAll(m, Lift(rows, id, [])) == m
  {
  }

  lemma NothingSeeded(m: Cache, order: Order)
    ensures Seeds(m, [], order) == [] && WriteAll(m, Seeds(m, [], order)) == m
  {
  }

  /** Rows listed before the lift are the rows the lift was specified on. */
  lemma {:induction false} ListedRows(cache: Cache, rows: Cache, id: string, keys: seq<string>)
    requires forall k | LegacyPrefix(id) <= k :: (k in rows <==> k in cache) && (k in rows ==> rows[k] == cache[k])
    ensures Lift(rows, id, keys) == Lift(cache, id, keys)
  {
    hide LegacyPrefix, InstancePrefix;
    if keys != [] {
      ListedRows(cache, rows, id, keys[1..]);
    }
  }

  lemma ListedKeys(start: Cache, now: Cache, rows: Cache, id: string)
    requires SameLegacy(start, now)
    requires forall k :: k in rows <==> k in now && LegacyPrefix(id) <= k
    requires forall k | k in rows :: rows[k] == now[k]
    ensures rows.Keys == KeysUnder(start, LegacyPrefix(id))
    ensures forall k | LegacyPrefix(id) <= k :: (k in rows <==> k in start) && (k in rows ==> rows[k] == start[k])
  {
    hide LegacyPrefix;
    forall k | LegacyPrefix(id) <= k ensures (k in now <==> k in start) && (k in start ==> start[k] == now[k]) {
      LegacyPrefixStarts(id, k);
    }
  }

  method SeedOne(store: Store, id: string, order: Order, ghost start: Cache)
    requires store.Valid() && !store.closed && Enumerates(order) && SameLegacy(start, store.cache)
    modifies store
    ensures store.Valid() && !store.closed
    ensures store.cache == WriteAll(old(store.cache), SeedWrites(start, id, order))
  {
    hide LegacyPrefix, InstancePrefix, WriteAll, SameLegacy, Lift, OffLegacy;
    InstanceKeyNotEmpty(id, "plugin");
    InstanceKeyNotEmpty(id, "label");
    var a := store.Set(InstancePrefix(id) + "plugin", Plain(Str(id)));
    var b := store.Set(InstancePrefix(id) + "label", Plain(Str(id + " (default)")));
    TwoWrites(old(store.cache), Identity(id));
    assert store.cache == WriteAll(old(store.cache), Identity(id));
    IdentityOffLegacy(id);
    KeepsLegacy(old(store.cache), Identity(id));
    SameLegacyTrans(start, old(store.cache), store.cache);
    var rows := store.ListPrefix(LegacyPrefix(id));
    ListedKeys(start, store.cache, rows, id);
    var keys := order(rows.Keys);
    ListedRows(start, rows, id, keys);
    forall i | 0 <= i < |keys| ensures keys[i] in rows {
      assert keys[i] in keys;
    }
    LiftRows(store, id, rows, keys);
    WriteAllConcat(old(store.cache), Identity(id), Lift(start, id, keys));
  }

  lemma TwoWrites(m: Cache, ws: seq<(string, Json)>)
    requires |ws| == 2
    ensures WriteAll(m, ws) == m[ws[0].0 := ws[0].1][ws[1].0 := ws[1].1]
  {
    var rest := ws[1..];
    assert rest[0] == ws[1] && rest[1..] == [];
    assert WriteAll(m, ws) == WriteAll(m[ws[0].0 := ws[0].1], rest);
  }

  lemma IdentityOffLegacy(id: string)
    ensures forall i | 0 <= i < |Identity(id)| :: !("plugin." <= Identity(id)[i].0)
  {
    hide InstancePrefix;
    InstanceOffLegacy(id, "plugin");
    InstanceOffLegacy(id, "label");
  }

  lemma SameLegacyTrans(a: Cache, b: Cache, c: Cache)
    requires SameLegacy(a, b) && SameLegacy(b, c)
    ensures SameLegacy(a, c)
  {
  }

  lemma SameLegacySelf(a: Cache)
    ensures SameLegacy(a, a)
  {
  }

  /** The boot step, reading the store anew for every provider. */
  method BootstrapProvidersNamespace(store: Store, ids: seq<string>, order: Order, now: int)
    requires store.Valid() && !store.closed && Enumerates(order)
    modifies store
    ensures store.Valid() && !store.closed
    ensures store.cache == Bootstrapped(old(store.cache), ids, order, now)
  {
    hide WriteAll, SameLegacy, OffLegacy, SeedWrites, Truthy;
    ghost var start := store.cache;
    if SEEDED_MARKER in store.cache || ids == [] {
      return;
    }
    Prefixes(ids, 0);
    NothingSeeded(start, order);
    SameLegacySelf(start);
    for i := 0 to |ids|
      invariant store.Valid() && !store.closed && SameLegacy(start, store.cache)
      invariant store.cache == WriteAll(start, Seeds(start, ids[..i], order))
    {
      Prefixes(ids, i);
      SeedsConcat(start, ids[..i], [ids[i]], order);
      OneSeed(start, ids[i], order);
      WriteAllConcat(start, Seeds(start, ids[..i], order), SeedWrites(start, ids[i], order));
      SeedOne(store, ids[i], order, start);
      SeedsOffLegacy(start, ids[..i + 1], order);
      NotLegacy(Seeds(start, ids[..i + 1], order));
      KeepsLegacy(start, Seeds(start, ids[..i + 1], order));
    }
    var seeds := Seeds(start, ids, order);
    SeedsOffLegacy(start, ids, order);
    NotLegacy(seeds);
    Untouched(start, seeds, "provider");
    WriteAllConcat(start, seeds, ProviderWrite(start, ids));
    if !Truthy(Get(store.cache, "provider", Null)) {
      OneWrite(store.cache, "provider", Str(ids[0]));
      var r := store.Set("provider", Plain(Str(ids[0])));
    } else {
      NoWrites(store.cache);
    }
    var r := store.Set(SEEDED_MARKER, Plain(Num(now)));
  }

  // -- what an instance holds afterwards -------------------------------------------------------------

  lemma InstanceKeysApart(a: string, b: string, f: string, g: string)
    requires '.' !in a && '.' !in b && InstancePrefix(a) + f == InstancePrefix(b) + g
    ensures a == b && f == g
  {
    var head := "providers" + ".";
    assert InstancePrefix(a) + f == head + (a + "." + f);
    assert InstancePrefix(b) + g == head + (b + "." + g);
    SameTail(head, a + "." + f, b + "." + g);
    FirstDot(a, b, f, g);
  }

  lemma {:induction false} LiftKeys(cache: Cache, id: string, keys: seq<string>, i: nat) returns (field: string)
    requires i < |Lift(cache, id, keys)|
    ensures field != "" && LegacyPrefix(id) + field in cache
    ensures Lift(cache, id, keys)[i] == (InstancePrefix(id) + field, cache[LegacyPrefix(id) + field])
  {
    hide LegacyPrefix, InstancePrefix;
    var prefix := LegacyPrefix(id);
    var here := if prefix < keys[0] && keys[0] in cache then 1 else 0;
    if i < here {
      field := keys[0][|prefix|..];
      assert prefix + field == keys[0];
    } else {
      field := LiftKeys(cache, id, keys[1..], i - here);
    }
  }

  lemma {:induction false} LiftHas(cache: Cache, id: string, keys: seq<string>, field: string)
    requires field != "" && LegacyPrefix(id) + field in keys && LegacyPrefix(id) + field in cache
    ensures Writes.Writes(Lift(cache, id, keys), InstancePrefix(id) + field)
  {
    hide LegacyPrefix, InstancePrefix;
    var prefix := LegacyPrefix(id);
    var ws := Lift(cache, id, keys);
    if keys[0] == prefix + field {
      assert keys[0][|prefix|..] == field;
      assert ws[0].0 == InstancePrefix(id) + field;
    } else {
      LiftHas(cache, id, keys[1..], field);
      var rest := Lift(cache, id, keys[1..]);
      var i :| 0 <= i < |rest| && rest[i].0 == InstancePrefix(id) + field;
      assert ws[i + |ws| - |rest|] == rest[i];
    }
  }

  lemma {:induction false} OtherSeedsKeepOut(cache: Cache, ids: seq<string>, order: Order, id: string, field: string)
    requires '.' !in id && id !in ids
    requires forall i | 0 <= i < |ids| :: '.' !in ids[i]
    ensures !Writes.Writes(Seeds(cache, ids, order), InstancePrefix(id) + field)
  {
    hide LegacyPrefix, InstancePrefix, Lift;
    if ids != [] {
      OtherSeedsKeepOut(cache, ids[1..], order, id, field);
      OtherSeedKeepsOut(cache, ids[0], order, id, field);
      WritesSum(SeedWrites(cache, ids[0], order), Seeds(cache, ids[1..], order), InstancePrefix(id) + field);
    }
  }

  lemma OtherSeedKeepsOut(cache: Cache, other: string, order: Order, id: string, field: string)
    requires '.' !in id && '.' !in other && id != other
    ensures !Writes.Writes(SeedWrites(cache, other, order), InstancePrefix(id) + field)
  {
    hide LegacyPrefix, InstancePrefix, Lift;
    var keys := order(KeysUnder(cache, LegacyPrefix(other)));
    var ls := Lift(cache, other, keys);
    forall i | 0 <= i < |ls| ensures ls[i].0 != InstancePrefix(id) + field {
      var f := LiftKeys(cache, other, keys, i);
      if InstancePrefix(other) + f == InstancePrefix(id) + field { InstanceKeysApart(other, id, f, field); }
    }
    if InstancePrefix(other) + "plugin" == InstancePrefix(id) + field { InstanceKeysApart(other, id, "plugin", field); }
    if InstancePrefix(other) + "label" == InstancePrefix(id) + field { InstanceKeysApart(other, id, "label", field); }
  }

  lemma WritesSum<V>(a: seq<(string, V)>, b: seq<(string, V)>, key: string)
    ensures Writes.Writes(a + b, key) <==> Writes.Writes(a, key) || Writes.Writes(b, key)
  {
    if Writes.Writes(a, key) {
      var i :| 0 <= i < |a| && a[i].0 == key;
      assert (a + b)[i].0 == key;
    }
    if Writes.Writes(b, key) {
      var i :| 0 <= i < |b| && b[i].0 == key;
      assert (a + b)[|a| + i].0 == key;
    }
  }

  /** What field `f` of instance `id` is after seeding: the legacy row if there is one,
      else the identity the seeding gives it, else what was there. */
  function SeededField(cache: Cache, id: string, f: string): Option<Json> {
    if LegacyPrefix(id) + f in cache then Some(cache[LegacyPrefix(id) + f])
    else if f == "plugin" then Some(Str(id))
    else if f == "label" then Some(Str(id + " (default)"))
    else if InstancePrefix(id) + f in cache then Some(cache[InstancePrefix(id) + f])
    else None
  }

  predicate Holds(cache: Cache, key: string, value: Option<Json>) {
    (key in cache <==> value.Some?) && (key in cache ==> cache[key] == value.value)
  }

  lemma OwnSeed(cache: Cache, mid: Cache, id: string, order: Order, f: string)
    requires '.' !in id && f != "" && Enumerates(order)
    requires InstancePrefix(id) + f in mid <==> InstancePrefix(id) + f in cache
    requires InstancePrefix(id) + f in cache ==> mid[InstancePrefix(id) + f] == cache[InstancePrefix(id) + f]
    ensures Holds(WriteAll(mid, SeedWrites(cache, id, order)), InstancePrefix(id) + f, SeededField(cache, id, f))
  {
    hide LegacyPrefix, InstancePrefix, Lift, WriteAll;
    var keys := order(KeysUnder(cache, LegacyPrefix(id)));
    var ls := Lift(cache, id, keys);
    var key, legacy := InstancePrefix(id) + f, LegacyPrefix(id) + f;
    var named := mid[InstancePrefix(id) + "plugin" := Str(id)][InstancePrefix(id) + "label" := Str(id + " (default)")];
    WriteAllConcat(mid, Identity(id), ls);
    TwoWrites(mid, Identity(id));
    SameField(id, f);
    forall i | 0 <= i < |ls| && ls[i].0 == key ensures legacy in cache && ls[i].1 == cache[legacy] {
      var g := LiftKeys(cache, id, keys, i);
      InstanceKeysApart(id, id, f, g);
    }
    if legacy in cache {
      assert legacy in KeysUnder(cache, LegacyPrefix(id));
      LiftHas(cache, id, keys, f);
      Written(named, ls, key, cache[legacy]);
    } else {
      Untouched(named, ls, key);
    }
  }

  lemma SameField(id: string, f: string)
    ensures InstancePrefix(id) + f == InstancePrefix(id) + "plugin" <==> f == "plugin"
    ensures InstancePrefix(id) + f == InstancePrefix(id) + "label" <==> f == "label"
    ensures InstancePrefix(id) + "plugin" != InstancePrefix(id) + "label"
  {
    assert "plugin"[0] != "label"[0];
    if InstancePrefix(id) + f == InstancePrefix(id) + "plugin" { SameTail(InstancePrefix(id), f, "plugin"); }
    if InstancePrefix(id) + f == InstancePrefix(id) + "label" { SameTail(InstancePrefix(id), f, "label"); }
    if InstancePrefix(id) + "plugin" == InstancePrefix(id) + "label" { SameTail(InstancePrefix(id), "plugin",
        "label"); }
  }

  /** After the bootstrap every loaded provider has an instance of its own that reads
      the plugin's legacy settings, for ids without dots and each loaded once; and an
      active provider is set. */
  lemma InstancesMirrorLegacy(cache: Cache, ids: seq<string>, order: Order, now: int, n: nat, f: string)
    requires SEEDED_MARKER !in cache && n < |ids| && f != "" && Enumerates(order)
    requires forall i | 0 <= i < |ids| :: '.' !in ids[i]
    requires forall i, j | 0 <= i < j < |ids| :: ids[i] != ids[j]
    ensures var done := Bootstrapped(cache, ids, order, now);
      && Holds(done, InstancePrefix(ids[n]) + f, SeededField(cache, ids[n], f))
      && "provider" in done
      && done["provider"] == if Truthy(Get(cache, "provider", Null)) then cache["provider"] else Str(ids[0])
  {
    hide LegacyPrefix, InstancePrefix, Lift, WriteAll, SeedWrites, Seeds, OffLegacy, SeededField, Truthy;
    var id := ids[n];
    var key := InstancePrefix(id) + f;
    var a, b := Seeds(cache, ids[..n], order), Seeds(cache, ids[n + 1..], order);
    var own := SeedWrites(cache, id, order);
    var s := Seeds(cache, ids, order);
    assert s == a + (own + b) by {
      assert ids == ids[..n] + ([id] + ids[n + 1..]);
      SeedsConcat(cache, ids[..n], [id] + ids[n + 1..], order);
      SeedsConcat(cache, [id], ids[n + 1..], order);
      OneSeed(cache, id, order);
    }
    OtherSeedsKeepOut(cache, ids[..n], order, id, f);
    OtherSeedsKeepOut(cache, ids[n + 1..], order, id, f);
    var x := WriteAll(cache, a);
    Untouched(cache, a, key);
    OwnSeed(cache, x, id, order, f);
    var y := WriteAll(x, own);
    Untouched(y, b, key);
    WriteAllConcat(cache, a, own + b);
    WriteAllConcat(x, own, b);
    SeedsOffLegacy(cache, ids, order);
    NotLegacy(s);
    Untouched(cache, s, "provider");
    InstanceOffLegacy(id, f);
    ProviderIsNoPlugin();
    AbsentIsFalsy();
    LastWrites(cache, s, ids, key);
  }

  lemma AbsentIsFalsy()
    ensures !Truthy(Null)
  {
  }

  lemma LastWrites(cache: Cache, s: seq<(string, Json)>, ids: seq<string>, key: string)
    requires ids != [] && OffLegacy(key)
    ensures var z := WriteAll(cache, s + ProviderWrite(cache, ids));
      && (key in z <==> key in WriteAll(cache, s)) && (key in z ==> z[key] == WriteAll(cache, s)[key])
      && z == if ProviderWrite(cache, ids) == [] then WriteAll(cache, s) else WriteAll(cache,
          s)["provider" := Str(ids[0])]
  {
    hide WriteAll, Truthy;
    WriteAllConcat(cache, s, ProviderWrite(cache, ids));
    OneWrite(WriteAll(cache, s), "provider", Str(ids[0]));
    NoWrites(WriteAll(cache, s));
  }
}
