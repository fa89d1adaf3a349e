/** `set` and `unset` of the configuration store taken apart at their database await.
    Statements wait for the one database worker, run in the order they were handed over,
    and their callers wake up in that order and only then touch the cache. A call can be
    cancelled at its await: before its statement runs that takes the statement away, later
    the row is written all the same and the cache is not. */
module StoreOverlap {
  import opened Tape

  type Rows = map<string, Json>

  /** A call between its two halves: what `unset` found in the cache and in the table. */
  datatype Flight = Setting(key: string, value: Json) | Unsetting(key: string, seen: bool, deleted: bool)

  /** The calls whose statement waits for the worker, and those whose statement has run. */
  datatype State = State(table: Rows, cache: Rows, queued: seq<Flight>, ran: seq<Flight>)

  datatype Action =
    | SetBegin(key: string, value: Json)
    | UnsetBegin(key: string)
    | Execute
    | WakeUp
    | CancelQueued(i: nat)
    | CancelRan(i: nat)

  function Opened(rows: Rows): State {
    State(rows, rows, [], [])
  }

  /** What a statement does to the table. */
  function Write(table: Rows, f: Flight): Rows {
    match f
    case Setting(key, value) => table[key := value]
    case Unsetting(key, _, _) => table - {key}
  }

  /** What a call does to the cache when it wakes up. */
  function Land(cache: Rows, f: Flight): Rows {
    match f
    case Setting(key, value) => cache[key := value]
    case Unsetting(key, seen, _) => if seen then cache - {key} else cache
  }

  /** The cache once every call whose statement has run has woken up. */
  function Landed(cache: Rows, ran: seq<Flight>): Rows
    decreases |ran|
  {
    if ran == [] then cache else Landed(Land(cache, ran[0]), ran[1..])
  }

  predicate Enabled(s: State, a: Action) {
    match a
    case Execute => s.queued != []
    case WakeUp => s.ran != []
    case CancelQueued(i) => i < |s.queued|
    case CancelRan(i) => i < |s.ran|
    case _ => true
  }

  function WithoutAt(fs: seq<Flight>, i: nat): seq<Flight>
    requires i < |fs|
  {
    fs[..i] + fs[i + 1..]
  }

  function Executed(table: Rows, f: Flight): Flight {
    if f.Setting? then f else f.(deleted := f.key in table)
  }

  function Apply(s: State, a: Action): State
    requires Enabled(s, a)
  {
    match a
    case SetBegin(key, value) => s.(queued := s.queued + [Setting(key, value)])
    case UnsetBegin(key) => s.(queued := s.queued + [Unsetting(key, key in s.cache, false)])
    case Execute =>
      State(Write(s.table, s.queued[0]), s.cache, s.queued[1..], s.ran + [Executed(s.table, s.queued[0])])
    case WakeUp => s.(cache := Land(s.cache, s.ran[0]), ran := s.ran[1..])
    case CancelQueued(i) => s.(queued := WithoutAt(s.queued, i))
    case CancelRan(i) => s.(ran := WithoutAt(s.ran, i))
  }

  predicate Allowed(s: State, acts: seq<Action>)
    decreases |acts|
  {
    acts == [] || (Enabled(s, acts[0]) && Allowed(Apply(s, acts[0]), acts[1..]))
  }

  function Run(s: State, acts: seq<Action>): State
    requires Allowed(s, acts)
    decreases |acts|
  {
    if acts == [] then s else Run(Apply(s, acts[0]), acts[1..])
  }

  // -- slipping --------------------------------------------------------------------------------

  predicate Agree(a: Rows, b: Rows, key: string) {
    (key in a <==> key in b) && (key in a ==> a[key] == b[key])
  }

  /** A statement deletes a row its `unset` had not seen in the cache, although a call
      before it is about to put the key there. */
  predicate Misses(s: State) {
    s.queued != [] && var f := s.queued[0]; f.Unsetting? && !f.seen && f.key in Landed(s.cache, s.ran)
  }

  /** Without this call the cache will not hold what the table holds for its key. */
  predicate Tears(s: State, i: nat) {
    i < |s.ran| && !Agree(s.table, Landed(s.cache, WithoutAt(s.ran, i)), s.ran[i].key)
  }

  /** The keys that have slipped: by such an `unset`, or by such a cancellation behind the
      statement. Any other statement on the key puts it right again. */
  function Slip(s: State, a: Action, slipped: set<string>): set<string>
    requires Enabled(s, a)
  {
    match a
    case Execute => if Misses(s) then slipped + {s.queued[0].key} else slipped - {s.queued[0].key}
    case CancelRan(i) => if Tears(s, i) then slipped + {s.ran[i].key} else slipped - {s.ran[i].key}
    case _ => slipped
  }

  function Slipped(s: State, acts: seq<Action>, slipped: set<string>): set<string>
    requires Allowed(s, acts)
    decreases |acts|
  {
    if acts == [] then slipped else Slipped(Apply(s, acts[0]), acts[1..], Slip(s, acts[0], slipped))
  }

  /** Table and cache-to-be agree on exactly the keys that have not slipped. */
  ghost predicate Inv(s: State, slipped: set<string>) {
    forall key :: Agree(s.table, Landed(s.cache, s.ran), key) <==> key !in slipped
  }

  lemma {:induction false} LandedAppend(cache: Rows, ran: seq<Flight>, f: Flight)
    ensures Landed(cache, ran + [f]) == Land(Landed(cache, ran), f)
    decreases |ran|
  {
    hide Land;
    if ran == [] {
      assert [] + [f] == [f] && [f][1..] == [];
      assert Landed(Land(cache, f), []) == Land(cache, f);
    } else {
      assert (ran + [f])[1..] == ran[1..] + [f];
      LandedAppend(Land(cache, ran[0]), ran[1..], f);
    }
  }

  lemma LandAlike(a: Rows, b: Rows, f: Flight, key: string)
    requires Agree(a, b, key)
    ensures Agree(Land(a, f), Land(b, f), key)
  {
  }

  lemma {:induction false} LandedAlike(a: Rows, b: Rows, ran: seq<Flight>, key: string)
    requires Agree(a, b, key)
    ensures Agree(Landed(a, ran), Landed(b, ran), key)
    decreases |ran|
  {
    hide Agree, Land;
    if ran != [] {
      LandAlike(a, b, ran[0], key);
      LandedAlike(Land(a, ran[0]), Land(b, ran[0]), ran[1..], key);
    }
  }

  /** A call matters to its own key alone. */
  lemma {:induction false} LandedWithout(cache: Rows, ran: seq<Flight>, i: nat, key: string)
    requires i < |ran| && key != ran[i].key
    ensures Agree(Landed(cache, ran), Landed(cache, WithoutAt(ran, i)), key)
    decreases i
  {
    if i == 0 {
      assert WithoutAt(ran, 0) == ran[1..];
      LandedAlike(Land(cache, ran[0]), cache, ran[1..], key);
    } else {
      assert WithoutAt(ran, i)[0] == ran[0] && WithoutAt(ran, i)[1..] == WithoutAt(ran[1..], i - 1);
      LandedWithout(Land(cache, ran[0]), ran[1..], i - 1, key);
    }
  }

  lemma ExecuteKeeps(s: State, slipped: set<string>)
    requires Inv(s, slipped) && Enabled(s, Execute)
    ensures Inv(Apply(s, Execute), Slip(s, Execute, slipped))
  {
    hide Landed;
    var t := Apply(s, Execute);
    LandedAppend(s.cache, s.ran, t.ran[|s.ran|]);
    forall key ensures Agree(t.table, Landed(t.cache, t.ran), key) <==> key !in Slip(s, Execute, slipped) {
      assert Agree(s.table, Landed(s.cache, s.ran), key) <==> key !in slipped;
    }
  }

  lemma CancelKeeps(s: State, i: nat, slipped: set<string>)
    requires Inv(s, slipped) && Enabled(s, CancelRan(i))
    ensures Inv(Apply(s, CancelRan(i)), Slip(s, CancelRan(i), slipped))
  {
    hide Landed, WithoutAt;
    forall key
      ensures Agree(s.table, Landed(s.cache, WithoutAt(s.ran, i)), key) <==> key !in Slip(s, CancelRan(i), slipped)
    {
      assert Agree(s.table, Landed(s.cache, s.ran), key) <==> key !in slipped;
      if key != s.ran[i].key {
        LandedWithout(s.cache, s.ran, i, key);
      }
    }
  }

  lemma SlipKeeps(s: State, a: Action, slipped: set<string>)
    requires Inv(s, slipped) && Enabled(s, a)
    ensures Inv(Apply(s, a), Slip(s, a, slipped))
  {
    hide Agree, Landed, Land, Write;
    if a.Execute? {
      ExecuteKeeps(s, slipped);
    } else if a.CancelRan? {
      CancelKeeps(s, a.i, slipped);
    } else if a.WakeUp? {
      WakeUpLands(s);
    }
  }

  lemma WakeUpLands(s: State)
    requires s.ran != []
    ensures Landed(Land(s.cache, s.ran[0]), s.ran[1..]) == Landed(s.cache, s.ran)
  {
  }

  lemma {:induction false} RunSlips(s: State, acts: seq<Action>, slipped: set<string>)
    requires Inv(s, slipped) && Allowed(s, acts)
    ensures Inv(Run(s, acts), Slipped(s, acts, slipped))
    decreases |acts|
  {
    hide Inv, Apply, Enabled, Slip;
    if acts != [] {
      SlipKeeps(s, acts[0], slipped);
      RunSlips(Apply(s, acts[0]), acts[1..], Slip(s, acts[0], slipped));
    }
  }

  /** The exact condition, over every run from a freshly opened store, however calls overlap
      and wherever they are cancelled: the table and the cache with all executed calls landed
      agree on exactly the keys that have not slipped. With no such call under way that is
      the cache itself. */
  lemma InStepIffNotSlipped(rows: Rows, acts: seq<Action>)
    requires Allowed(Opened(rows), acts)
    ensures var t, slipped := Run(Opened(rows), acts), Slipped(Opened(rows), acts, {});
      && (forall key :: Agree(t.table, Landed(t.cache, t.ran), key) <==> key !in slipped)
      && (t.ran == [] ==> forall key :: Agree(t.table, t.cache, key) <==> key !in slipped)
      && (t.ran == [] ==> (t.cache == t.table <==> slipped == {}))
  {
    hide Run, Allowed, Slipped;
    assert Landed(rows, []) == rows;
    RunSlips(Opened(rows), acts, {});
    var t := Run(Opened(rows), acts);
    if t.ran == [] {
      assert Landed(t.cache, []) == t.cache;
      SameRows(t.table, t.cache);
    }
  }

  lemma SameRows(a: Rows, b: Rows)
    ensures a == b <==> forall key :: Agree(a, b, key)
  {
    if forall key :: Agree(a, b, key) {
      forall key ensures key in a <==> key in b {
        assert Agree(a, b, key);
      }
      forall key | key in a ensures a[key] == b[key] {
        assert Agree(a, b, key);
      }
    }
  }

  predicate NeverSlips(s: State, acts: seq<Action>)
    requires Allowed(s, acts)
    decreases |acts|
  {
    acts == [] || (
      && (acts[0].Execute? ==> !Misses(s))
      && (acts[0].CancelRan? ==> !Tears(s, acts[0].i))
      && NeverSlips(Apply(s, acts[0]), acts[1..]))
  }

  lemma {:induction false} NothingSlips(s: State, acts: seq<Action>)
    requires Allowed(s, acts) && NeverSlips(s, acts)
    ensures Slipped(s, acts, {}) == {}
    decreases |acts|
  {
    hide Apply, Misses, Tears;
    if acts != [] {
      assert Slip(s, acts[0], {}) == {};
      NothingSlips(Apply(s, acts[0]), acts[1..]);
    }
  }

  /** In particular overlapping `set`s are safe, and so is cancelling a call whose statement
      has not run. */
  lemma OnlyTheseSlip(rows: Rows, acts: seq<Action>)
    requires Allowed(Opened(rows), acts) && NeverSlips(Opened(rows), acts)
    ensures var t := Run(Opened(rows), acts);
      Landed(t.cache, t.ran) == t.table
  {
    hide Run, Allowed, Slipped, NeverSlips;
    NothingSlips(Opened(rows), acts);
    InStepIffNotSlipped(rows, acts);
    var t := Run(Opened(rows), acts);
    SameRows(t.table, Landed(t.cache, t.ran));
  }

  /** An `unset` between the two halves of the first `set` of a key deletes the row, finds
      nothing in the cache, and leaves the cache to the `set`: the two differ until the
      key's next call. */
  lemma OverlapDrifts(key: string, value: Json)
    ensures var s1 := Apply(Apply(Opened(map[]), SetBegin(key, value)), UnsetBegin(key));
      var s2 := Apply(s1, Execute);
      var t := Apply(Apply(Apply(s2, Execute), WakeUp), WakeUp);
      Misses(s2) && t.queued == [] && t.ran == [] && t.cache == map[key := value] && t.table == map[]
  {
    var s2 := Apply(Apply(Apply(Opened(map[]), SetBegin(key, value)), UnsetBegin(key)), Execute);
    assert s2.queued == [Unsetting(key, false, false)] && s2.ran == [Setting(key, value)];
    assert s2.ran[1..] == [];
    assert Landed(s2.cache, s2.ran) == Landed(map[key := value], []);
  }

  /** A `set` cancelled behind its statement leaves its row and no cached value. */
  lemma CancelledSetDrifts(key: string, value: Json)
    ensures var s := Apply(Apply(Opened(map[]), SetBegin(key, value)), Execute);
      var t := Apply(s, CancelRan(0));
      Tears(s, 0) && t.queued == [] && t.ran == [] && t.cache == map[] && t.table == map[key := value]
  {
    var s := Apply(Apply(Opened(map[]), SetBegin(key, value)), Execute);
    assert WithoutAt(s.ran, 0) == [] && Landed(map[], []) == map[];
  }

  /** What an `unset` knows when it goes on: whether the cache held its key when it was called,
      and whether the table did when its statement ran, after which it does not. */
  lemma UnsetKnows(s: State, key: string, t: State)
    requires t.queued != [] && t.queued[0].Unsetting? && t.queued[0].key == key
    ensures var begun := Apply(s, UnsetBegin(key));
      var q := begun.queued[|s.queued|];
      begun.queued == s.queued + [q] && q.key == key && (q.seen <==> key in s.cache)
    ensures var after := Apply(t, Execute);
      var r := after.ran[|t.ran|];
      && after.ran == t.ran + [r] && r.key == key && r.seen == t.queued[0].seen
      && (r.deleted <==> key in t.table) && key !in after.table
  {
  }

  /** A call cancelled before its statement runs leaves no trace. */
  lemma CancelledInTime(s: State, key: string, value: Json)
    ensures Apply(Apply(s, SetBegin(key, value)), CancelQueued(|s.queued|)) == s
    ensures Apply(Apply(s, UnsetBegin(key)), CancelQueued(|s.queued|)) == s
  {
    assert WithoutAt(s.queued + [Setting(key, value)], |s.queued|) == s.queued;
    assert WithoutAt(s.queued + [Unsetting(key, key in s.cache, false)], |s.queued|) == s.queued;
  }

  // -- the store -------------------------------------------------------------------------------

  class OverlappedStore {
    var table: Rows
    var cache: Rows
    /** The calls suspended at their await, oldest first. */
    var queued: seq<Flight>
    var ran: seq<Flight>

    ghost function View(): State reads this {
      State(table, cache, queued, ran)
    }

    constructor Open(rows: Rows)
      ensures View() == Opened(rows)
    {
      table, cache, queued, ran := rows, rows, [], [];
    }

    method SetUntilAwait(key: string, value: Json)
      modifies `queued
      ensures View() == Apply(old(View()), SetBegin(key, value))
    {
      queued := queued + [Setting(key, value)];
    }

    method UnsetUntilAwait(key: string)
      modifies `queued
      ensures View() == Apply(old(View()), UnsetBegin(key))
    {
      queued := queued + [Unsetting(key, key in cache, false)];
    }

    /** The database worker takes the next statement. */
    method WorkerRuns()
      requires queued != []
      modifies this
      ensures View() == Apply(old(View()), Execute)
    {
      var f := queued[0];
      match f {
        case Setting(key, value) => table := table[key := value];
        case Unsetting(key, seen, _) =>
          f := Unsetting(key, seen, key in table);
          table := table - {key};
      }
      queued, ran := queued[1..], ran + [f];
    }

    /** The oldest call whose statement has run goes on: `publishes` tells whether it
        announces the key. */
    method AfterAwait() returns (key: string, publishes: bool)
      requires ran != []
      modifies this
      ensures View() == Apply(old(View()), WakeUp)
      ensures key == old(ran)[0].key
      ensures publishes == var f := old(ran)[0]; (f.Setting? || f.seen || f.deleted)
    {
      var f := ran[0];
      ran := ran[1..];
      key := f.key;
      publishes := true;
      match f {
        case Setting(k, value) => cache := cache[k := value];
        case Unsetting(k, seen, deleted) =>
          if seen {
            cache := cache - {k};
          } else {
            publishes := deleted;
          }
      }
    }

    /** A call is cancelled at its await, in time to take its statement back or not. */
    method Cancelled(executed: bool, i: nat)
      requires i < if executed then |ran| else |queued|
      modifies this
      ensures View() == Apply(old(View()), if executed then CancelRan(i) else CancelQueued(i))
    {
      if executed {
        ran := ran[..i] + ran[i + 1..];
      } else {
        queued := queued[..i] + queued[i + 1..];
      }
    }
  }
}
