/** The live configuration store: a table of encoded rows, a cache of decoded values,
    and the one-time migration that may be cut short by a crash. */
module ConfigStore {
  import opened Common
  import opened Writes
  import opened Tape
  import Flatten

  type Cache = map<string, Json>

  /** A row as the decoder classifies its text; the encoder is injective. */
  datatype Row = Encoded(json: Json) | Corrupt(raw: string)

  type Table = map<string, Row>

  /** A Python value: JSON, or something `json.dumps` would refuse or bend. */
  datatype Value = Plain(json: Json) | NotJson

  datatype Outcome<+T> = Done(value: T) | Closed | EmptyKey | WrongType

  const MIGRATION_MARKER := "_meta.migrated_from_toml_at"

  function Decoded(row: Row): Json {
    match row
    case Encoded(json) => json
    case Corrupt(raw) => Str(raw)
  }

  function DecodedAll(table: Table): Cache {
    map k | k in table :: Decoded(table[k])
  }

  lemma DecodedPut(table: Table, key: string, json: Json)
    ensures DecodedAll(table[key := Encoded(json)]) == DecodedAll(table)[key := json]
  {
  }

  /** A row that does not decode reads as its own text, one that does as its value. */
  lemma CorruptRowIsText(table: Table, key: string, raw: string, json: Json)
    ensures DecodedAll(table[key := Corrupt(raw)]) == DecodedAll(table)[key := Str(raw)]
    ensures DecodedAll(table[key := Encoded(json)]) == DecodedAll(table)[key := json]
  {
  }

  // -- migration -------------------------------------------------------------------------------

  /** The rows a migration writes, in order. */
  function Migratable(cfg: seq<(string, Value)>): seq<(string, Row)> {
    if cfg == [] then [] else
    var (key, value) := cfg[|cfg| - 1];
    Migratable(cfg[..|cfg| - 1])
    + if key == "" || key == MIGRATION_MARKER || value.NotJson? then [] else [(key, Encoded(value.json))]
  }

  function Migrated(table: Table, cfg: seq<(string, Value)>, now: int): Table {
    if MIGRATION_MARKER in table then table
    else WriteAll(table, Migratable(cfg))[MIGRATION_MARKER := Encoded(Num(now))]
  }

  /** What a crash after `k` rows leaves behind. */
  function CutShort(table: Table, cfg: seq<(string, Value)>, k: nat): Table {
    if MIGRATION_MARKER in table || k > |Migratable(cfg)| then table
    else WriteAll(table, Migratable(cfg)[..k])
  }

  function CutShortOften(table: Table, cfg: seq<(string, Value)>, ks: seq<nat>): Table
    decreases |ks|
  {
    if ks == [] then table else CutShortOften(CutShort(table, cfg, ks[0]), cfg, ks[1..])
  }

  lemma {:induction false} MarkerNotMigrated(cfg: seq<(string, Value)>)
    ensures forall i | 0 <= i < |Migratable(cfg)| ::
      Migratable(cfg)[i].0 != MIGRATION_MARKER && Migratable(cfg)[i].0 != ""
  {
    if cfg != [] {
      MarkerNotMigrated(cfg[..|cfg| - 1]);
    }
  }

  lemma OneCut(table: Table, cfg: seq<(string, Value)>, k: nat)
    ensures WriteAll(CutShort(table, cfg, k), Migratable(cfg)) == WriteAll(table, Migratable(cfg))
    ensures MIGRATION_MARKER in CutShort(table, cfg, k) <==> MIGRATION_MARKER in table
    ensures MIGRATION_MARKER in table ==> CutShort(table, cfg, k) == table
  {
    hide Migratable;
    var ws := Migratable(cfg);
    if MIGRATION_MARKER !in table && k <= |ws| {
      Restarted(table, ws, k);
      MarkerNotMigrated(cfg);
      assert !Writes.Writes(ws[..k], MIGRATION_MARKER);
      Untouched(table, ws[..k], MIGRATION_MARKER);
    }
  }

  lemma {:induction false} ManyCuts(table: Table, cfg: seq<(string, Value)>, ks: seq<nat>)
    ensures var cut := CutShortOften(table, cfg, ks);
      && WriteAll(cut, Migratable(cfg)) == WriteAll(table, Migratable(cfg))
      && (MIGRATION_MARKER in cut <==> MIGRATION_MARKER in table)
      && (MIGRATION_MARKER in table ==> cut == table)
    decreases |ks|
  {
    hide Migratable, CutShort, WriteAll;
    if ks != [] {
      OneCut(table, cfg, ks[0]);
      ManyCuts(CutShort(table, cfg, ks[0]), cfg, ks[1..]);
    }
  }

  /** However often the migration is killed, and wherever, the run that gets through
      leaves the same table as one undisturbed run, the marker's time aside. */
  lemma MigrationRestarts(table: Table, cfg: seq<(string, Value)>, ks: seq<nat>, earlier: int, now: int)
    ensures var cut := CutShortOften(table, cfg, ks);
      && Migrated(cut, cfg, now) - {MIGRATION_MARKER} == Migrated(table, cfg, earlier) - {MIGRATION_MARKER}
      && MIGRATION_MARKER in Migrated(cut, cfg, now)
  {
    hide Migratable, CutShortOften, WriteAll;
    ManyCuts(table, cfg, ks);
    var all := WriteAll(table, Migratable(cfg));
    var m := MIGRATION_MARKER;
    assert all[m := Encoded(Num(now))] - {m} == all[m := Encoded(Num(earlier))] - {m};
  }

  /** Once the marker is there no later configuration changes a row. */
  lemma MigratedOnce(table: Table, first: seq<(string, Value)>, second: seq<(string, Value)>, earlier: int, now: int)
    ensures Migrated(Migrated(table, first, earlier), second, now) == Migrated(table, first, earlier)
  {
  }

  /** What a migration leaves under a key, whatever was there: the last plain value the
      configuration gives it, else what it was; and behind all of them the marker. */
  lemma MigratedRow(table: Table, cfg: seq<(string, Value)>, now: int, key: string, i: nat)
    requires "_meta.migrated_from_toml_at" !in table && key != "" && key != "_meta.migrated_from_toml_at"
    requires i <= |cfg| && (i < |cfg| ==> cfg[i].0 == key && cfg[i].1.Plain?)
    requires forall j | 0 <= j < |cfg| && (i < j || i == |cfg|) :: cfg[j].0 != key || cfg[j].1.NotJson?
    ensures var t := Migrated(table, cfg, now);
      && "_meta.migrated_from_toml_at" in t && t["_meta.migrated_from_toml_at"] == Encoded(Num(now))
      && (i < |cfg| ==> key in t && t[key] == Encoded(cfg[i].1.json))
      && (i == |cfg| ==> (key in t <==> key in table) && (key in t ==> t[key] == table[key]))
  {
    hide Migratable, WriteAll;
    LastMigratable(table, cfg, key, i);
  }

  lemma {:induction false} LastMigratable(table: Table, cfg: seq<(string, Value)>, key: string, i: nat)
    requires key != "" && key != MIGRATION_MARKER
    requires i <= |cfg| && (i < |cfg| ==> cfg[i].0 == key && cfg[i].1.Plain?)
    requires forall j | 0 <= j < |cfg| && (i < j || i == |cfg|) :: cfg[j].0 != key || cfg[j].1.NotJson?
    ensures var t := WriteAll(table, Migratable(cfg));
      && (i < |cfg| ==> key in t && t[key] == Encoded(cfg[i].1.json))
      && (i == |cfg| ==> (key in t <==> key in table) && (key in t ==> t[key] == table[key]))
    decreases |cfg|
  {
    hide WriteAll, Migratable;
    if cfg == [] {
      NothingMigrated(table);
    } else {
      var n := |cfg| - 1;
      assert cfg == cfg[..n] + [cfg[n]];
      MigratableAppend(cfg[..n], cfg[n]);
      if !(cfg[n].0 == "" || cfg[n].0 == MIGRATION_MARKER || cfg[n].1.NotJson?) {
        WriteAllAppend(table, Migratable(cfg[..n]), (cfg[n].0, Encoded(cfg[n].1.json)));
      }
      if i < n {
        LastMigratable(table, cfg[..n], key, i);
      } else if i == |cfg| {
        LastMigratable(table, cfg[..n], key, n);
      }
    }
  }

  /** A crash after `k` rows leaves the table a migration of so many rows would leave before
      it writes the marker; and every later crash starts from what the last one left. */
  lemma CrashLeaves(table: Table, cfg: seq<(string, Value)>, k: nat, ks: seq<nat>)
    requires "_meta.migrated_from_toml_at" !in table && k <= |Migratable(cfg)|
    ensures CutShort(table, cfg, k) == WriteAll(table, Migratable(cfg)[..k])
    ensures CutShortOften(table, cfg, [k] + ks) == CutShortOften(WriteAll(table, Migratable(cfg)[..k]), cfg, ks)
    ensures CutShortOften(table, cfg, []) == table
  {
    assert ([k] + ks)[1..] == ks;
  }

  /** `cfg` lists a flattened configuration, each key once. */
  ghost predicate Lists(cfg: seq<(string, Value)>, flat: Cache) {
    && (forall i, j | 0 <= i < j < |cfg| :: cfg[i].0 != cfg[j].0)
    && (forall i | 0 <= i < |cfg| :: cfg[i].0 in flat && cfg[i].1 == Plain(flat[cfg[i].0]))
    && (forall k | k in flat :: exists i :: 0 <= i < |cfg| && cfg[i].0 == k)
  }

  lemma {:induction false} MigratableHas(cfg: seq<(string, Value)>, key: string, row: Row)
    ensures (key, row) in Migratable(cfg) <==>
      key != "" && key != MIGRATION_MARKER && row.Encoded? && (key, Plain(row.json)) in cfg
  {
    if cfg != [] {
      var n := |cfg| - 1;
      var c := cfg[n];
      MigratableHas(cfg[..n], key, row);
      assert cfg == cfg[..n] + [c];
      if row.Encoded? {
        var plain := (key, Plain(row.json));
        assert plain in cfg <==> plain in cfg[..n] || plain == c;
      }
      if !(c.0 == "" || c.0 == MIGRATION_MARKER || c.1.NotJson?) {
        assert Migratable(cfg) == Migratable(cfg[..n]) + [(c.0, Encoded(c.1.json))];
      }
    }
  }

  /** A fresh install ends up with the flattened configuration, row for row. */
  lemma FreshInstall(cfg: seq<(string, Value)>, flat: Cache, now: int, key: string)
    requires Lists(cfg, flat) && key != "" && key != MIGRATION_MARKER
    ensures var cache := DecodedAll(Migrated(map[], cfg, now));
      (key in cache <==> key in flat) && (key in flat ==> cache[key] == flat[key])
  {
    hide Migratable, WriteAll;
    var ws := Migratable(cfg);
    forall i | 0 <= i < |ws| && ws[i].0 == key ensures key in flat && ws[i].1 == Encoded(flat[key]) {
      MigratableHas(cfg, key, ws[i].1);
      assert ws[i] == (key, ws[i].1);
      var j := Member(cfg, (key, Plain(ws[i].1.json)));
    }
    if key in flat {
      var j :| 0 <= j < |cfg| && cfg[j].0 == key;
      assert cfg[j] == (key, Plain(flat[key]));
      MigratableHas(cfg, key, Encoded(flat[key]));
      var i := Member(ws, (key, Encoded(flat[key])));
      assert Writes.Writes(ws, key);
      Written(map[], ws, key, Encoded(flat[key]));
    } else {
      Untouched(map[], ws, key);
    }
  }

  /** So a plugin's view of a freshly migrated store is its view of the flattened
      configuration. */
  lemma FreshInstallView(cfg: seq<(string, Value)>, flat: Cache, now: int, ns: string, r: string)
    requires Lists(cfg, flat)
    ensures var a := Flatten.Scoped(DecodedAll(Migrated(map[], cfg, now)), Flatten.PluginPrefix(ns));
      var b := Flatten.Scoped(flat, Flatten.PluginPrefix(ns));
      (r in a <==> r in b) && (r in a ==> a[r] == b[r])
  {
    hide Migrated, Lists, Flatten.Scoped;
    var key := Flatten.PluginPrefix(ns) + r;
    assert key != MIGRATION_MARKER && key != "" by {
      assert key[0] == 'p' && MIGRATION_MARKER[0] == '_';
    }
    Flatten.ScopedGet(DecodedAll(Migrated(map[], cfg, now)), Flatten.PluginPrefix(ns), r);
    Flatten.ScopedGet(flat, Flatten.PluginPrefix(ns), r);
    FreshInstall(cfg, flat, now, key);
  }

  lemma MigratableAppend(cfg: seq<(string, Value)>, c: (string, Value))
    ensures Migratable(cfg + [c]) ==
      if c.0 == "" || c.0 == MIGRATION_MARKER || c.1.NotJson? then Migratable(cfg)
      else Migratable(cfg) + [(c.0, Encoded(c.1.json))]
  {
    assert (cfg + [c])[..|cfg|] == cfg;
  }

  // -- the hint on an update event ----------------------------------------------------------------

  function LastDot(key: string): (i: int)
    ensures -1 <= i < |key|
    ensures i >= 0 ==> key[i] == '.'
    ensures forall j | i < j < |key| :: key[j] != '.'
  {
    if key == "" then -1 else if key[|key| - 1] == '.' then |key| - 1 else LastDot(key[..|key| - 1])
  }

  /** The key up to and with its last dot; empty for keys without one. */
  function Hint(key: string): string {
    key[..LastDot(key) + 1]
  }

  /** A subscriber that filters on a dotted prefix sees every key of its own: the
      prefix is a prefix of the hint exactly when it is one of the key. */
  lemma HintDecidesPrefixes(key: string, prefix: string)
    requires prefix != "" && prefix[|prefix| - 1] == '.'
    ensures prefix <= Hint(key) <==> prefix <= key
  {
    if prefix <= key {
      assert key[|prefix| - 1] == '.';
      assert prefix == Hint(key)[..|prefix|];
    }
  }

  // -- the store -------------------------------------------------------------------------------

  class Store {
    /** The rows on disk; they outlive the object. */
    var table: Table
    var cache: Cache
    var closed: bool
    /** The `config.updated` events published: key and hint. */
    var published: seq<(string, string)>
    const hasBus: bool

    ghost predicate Valid() reads this {
      cache == DecodedAll(table)
    }

    constructor Open(rows: Table, hasBus: bool)
      ensures Valid() && table == rows && !closed && published == [] && this.hasBus == hasBus
    {
      table, closed, published := rows, false, [];
      cache := map k | k in rows :: match rows[k] case Encoded(json) => json case Corrupt(raw) => Str(raw);
      this.hasBus := hasBus;
    }

    method Close()
      modifies this
      ensures closed && table == old(table) && cache == old(cache) && published == old(published)
    {
      if closed { return; }
      closed := true;
    }

    method Emit(key: string)
      modifies `published
      ensures published == if hasBus then old(published) + [(key, Hint(key))] else old(published)
    {
      if hasBus {
        published := published + [(key, Hint(key))];
      }
    }

    method Set(key: string, value: Value) returns (r: Outcome<()>)
      requires Valid()
      modifies this
      ensures Valid() && closed == old(closed)
      ensures r ==
        if closed then Closed else if key == "" then EmptyKey else if value.NotJson? then WrongType else Done(())
      ensures r.Done? ==>
        && table == old(table)[key := Encoded(value.json)] && cache == old(cache)[key := value.json]
        && published == if hasBus then old(published) + [(key, Hint(key))] else old(published)
      ensures !r.Done? ==> table == old(table) && published == old(published)
    {
      if closed { return Closed; }
      if key == "" { return EmptyKey; }
      if value.NotJson? { return WrongType; }
      DecodedPut(table, key, value.json);
      table := table[key := Encoded(value.json)];
      cache := cache[key := value.json];
      Emit(key);
      r := Done(());
    }

    /** Works from any state: a row the cache has lost is removed all the same. */
    method Unset(key: string) returns (r: Outcome<bool>)
      modifies this
      ensures old(Valid()) ==> Valid()
      ensures closed == old(closed)
      ensures closed ==> r == Closed && table == old(table) && cache == old(cache) && published == old(published)
      ensures !closed ==> table == old(table) - {key} && cache == old(cache) - {key}
      ensures !closed ==> r == Done(key in old(cache) || key in old(table))
      ensures !closed ==> published == if r.value && hasBus then old(published) + [(key, Hint(key))] else old(published)
    {
      if closed { return Closed; }
      if key !in cache {
        var deleted := key in table;
        table := table - {key};
        if deleted {
          Emit(key);
        }
        return Done(deleted);
      }
      table := table - {key};
      cache := cache - {key};
      Emit(key);
      r := Done(true);
    }

    method ListPrefix(prefix: string) returns (out: Cache)
      ensures forall k :: k in out <==> k in cache && prefix <= k
      ensures forall k | k in out :: out[k] == cache[k]
    {
      if prefix == "" {
        return cache;
      }
      out := map k | k in cache && prefix <= k :: cache[k];
    }

    method MigrateFromKernelConfig(cfg: seq<(string, Value)>, now: int) returns (r: Outcome<nat>)
      requires Valid()
      modifies this
      ensures Valid() && closed == old(closed) && published == old(published)
      ensures closed ==> r == Closed && table == old(table)
      ensures !closed ==> table == Migrated(old(table), cfg, now)
      ensures !closed ==> r == Done(if MIGRATION_MARKER in old(table) then 0 else |Migratable(cfg)|)
    {
      hide Migratable, WriteAll;
      if closed { return Closed; }
      if MIGRATION_MARKER in cache { return Done(0); }
      var written: nat := 0;
      Prefixes(cfg, 0);
      NothingMigrated(table);
      for i := 0 to |cfg|
        invariant Valid() && closed == old(closed) && published == old(published)
        invariant table == WriteAll(old(table), Migratable(cfg[..i]))
        invariant written == |Migratable(cfg[..i])|
      {
        Prefixes(cfg, i);
        MigratableAppend(cfg[..i], cfg[i]);
        var (key, value) := cfg[i];
        if key != "" && key != MIGRATION_MARKER && value.Plain? {
          WriteAllAppend(old(table), Migratable(cfg[..i]), (key, Encoded(value.json)));
          DecodedPut(table, key, value.json);
          table := table[key := Encoded(value.json)];
          cache := cache[key := value.json];
          written := written + 1;
        }
      }
      DecodedPut(table, MIGRATION_MARKER, Num(now));
      table := table[MIGRATION_MARKER := Encoded(Num(now))];
      cache := cache[MIGRATION_MARKER := Num(now)];
      r := Done(written);
    }
  }

  lemma NothingMigrated(table: Table)
    ensures Migratable([]) == [] && WriteAll(table, Migratable([])) == table
  {
  }
}
