/** The life of one plugin record: error counting, the threshold unload spawned as a
    task, and the orderly unload of `stop` and `remove`, which awaits the plugin's own
    `on_unload` before it changes the status. */
module PluginLife {

  datatype Status = Loaded | Unloading | Failed | Unloaded

  /** `tasks` and `orderly` count the unloads under way on either path; the rest is
      history: unloads begun on either path, `plugin.removed` events, statuses. */
  datatype Record = Record(
    status: Status,
    errors: nat,
    tasks: nat,
    orderly: nat,
    spawned: nat,
    begun: nat,
    removed: nat,
    trail: seq<Status>
  )

  const Fresh := Record(Loaded, 0, 0, 0, 0, 0, 0, [Loaded])

  datatype Op =
    | PluginError
    | Success
    | ThresholdDone
    | OrderlyBegin
    | OrderlyDone(emitRemoved: bool)

  predicate Enabled(r: Record, op: Op) {
    match op
    case ThresholdDone => r.tasks > 0
    case OrderlyDone(_) => r.orderly > 0
    case _ => true
  }

  function Now(r: Record, status: Status): Record {
    r.(status := status, trail := r.trail + [status])
  }

  predicate Breaches(r: Record, threshold: nat) {
    r.status.Loaded? && r.errors + 1 >= threshold
  }

  function ErrorStep(r: Record, threshold: nat): Record {
    if !r.status.Loaded? then r
    else if !Breaches(r, threshold) then r.(errors := r.errors + 1)
    else Now(r.(errors := r.errors + 1, tasks := r.tasks + 1, spawned := r.spawned + 1), Unloading)
  }

  function Apply(r: Record, op: Op, threshold: nat): Record
    requires Enabled(r, op)
  {
    match op
    case PluginError => ErrorStep(r, threshold)
    case Success => if r.status.Loaded? then r.(errors := 0) else r
    case ThresholdDone => Now(r.(tasks := r.tasks - 1, removed := r.removed + 1), Failed)
    case OrderlyBegin => if r.status.Loaded? then r.(orderly := r.orderly + 1, begun := r.begun + 1) else r
    case OrderlyDone(emit) => Now(r.(orderly := r.orderly - 1, removed := r.removed + if emit then 1 else 0), Unloaded)
  }

  predicate Allowed(r: Record, ops: seq<Op>, threshold: nat)
    decreases |ops|
  {
    ops == [] || (Enabled(r, ops[0]) && Allowed(Apply(r, ops[0], threshold), ops[1..], threshold))
  }

  function Run(r: Record, ops: seq<Op>, threshold: nat): Record
    requires Allowed(r, ops, threshold)
    decreases |ops|
  {
    if ops == [] then r else Run(Apply(r, ops[0], threshold), ops[1..], threshold)
  }

  // -- what holds without any side condition -----------------------------------------------------

  predicate Inv(r: Record, threshold: nat) {
    && (r.status.Loaded? ==> r.errors < threshold && r.spawned == 0)
    && r.tasks <= r.spawned <= 1
    && (r.status.Unloading? ==> r.spawned == 1)
    && r.orderly <= r.begun
  }

  lemma StepKeepsInv(r: Record, op: Op, threshold: nat)
    requires threshold >= 1 && Inv(r, threshold) && Enabled(r, op)
    ensures Inv(Apply(r, op, threshold), threshold)
  {
  }

  /** Over any interleaving, orderly unloads taken apart at their await included: a
      loaded plugin has fewer errors in a row than the threshold, and the threshold
      path spawns at most one unload in the record's life. */
  lemma {:induction false} ThresholdSpawnsOnce(r: Record, ops: seq<Op>, threshold: nat)
    requires threshold >= 1 && Inv(r, threshold) && Allowed(r, ops, threshold)
    ensures var s := Run(r, ops, threshold);
      (s.status.Loaded? ==> s.errors < threshold) && s.spawned <= 1
    decreases |ops|
  {
    hide Apply, Enabled;
    if ops != [] {
      StepKeepsInv(r, ops[0], threshold);
      ThresholdSpawnsOnce(Apply(r, ops[0], threshold), ops[1..], threshold);
    }
  }

  /** Errors in a row: the streak since the last success is what is counted. */
  function Streak(ops: seq<Op>): nat {
    if ops == [] then 0
    else
      var op := ops[|ops| - 1];
      if op.Success? then 0 else Streak(ops[..|ops| - 1]) + if op.PluginError? then 1 else 0
  }

  lemma {:induction false} RunAppend(r: Record, ops: seq<Op>, op: Op, threshold: nat)
    ensures Allowed(r, ops + [op], threshold) <==>
      (Allowed(r, ops, threshold) && Enabled(Run(r, ops, threshold), op))
    ensures Allowed(r, ops + [op], threshold) ==>
      Run(r, ops + [op], threshold) == Apply(Run(r, ops, threshold), op, threshold)
    decreases |ops|
  {
    hide Apply, Enabled;
    if ops == [] {
      assert [] + [op] == [op] && [op][1..] == [];
    } else {
      assert (ops + [op])[0] == ops[0] && (ops + [op])[1..] == ops[1..] + [op];
      if Enabled(r, ops[0]) {
        RunAppend(Apply(r, ops[0], threshold), ops[1..], op, threshold);
      }
    }
  }

  lemma LoadedBefore(r: Record, op: Op, threshold: nat)
    requires Enabled(r, op) && Apply(r, op, threshold).status.Loaded?
    ensures r.status.Loaded?
  {
  }

  /** As long as a plugin is loaded its counter is the streak of failures since its
      last success, not the number of failures in all. */
  lemma {:induction false} CounterIsStreak(ops: seq<Op>, threshold: nat)
    requires Allowed(Fresh, ops, threshold) && Run(Fresh, ops, threshold).status.Loaded?
    ensures Run(Fresh, ops, threshold).errors == Streak(ops)
    decreases |ops|
  {
    hide Allowed, Run;
    if ops == [] {
      assert Run(Fresh, [], threshold) == Fresh by { Nothing(threshold); }
    } else {
      var n := |ops| - 1;
      assert ops == ops[..n] + [ops[n]];
      RunAppend(Fresh, ops[..n], ops[n], threshold);
      LoadedBefore(Run(Fresh, ops[..n], threshold), ops[n], threshold);
      CounterIsStreak(ops[..n], threshold);
    }
  }

  lemma Nothing(threshold: nat)
    ensures Allowed(Fresh, [], threshold) && Run(Fresh, [], threshold) == Fresh
  {
  }

  /** Nobody stops or removes the plugin. */
  predicate Unattended(ops: seq<Op>) {
    forall i | 0 <= i < |ops| :: ops[i].PluginError? || ops[i].Success?
  }

  /** Neither now nor at any time before were there so many failures in a row. */
  predicate NeverReached(ops: seq<Op>, threshold: nat) {
    Streak(ops) < threshold && (ops == [] || NeverReached(ops[..|ops| - 1], threshold))
  }

  lemma UnattendedStep(r: Record, op: Op, threshold: nat)
    requires op.PluginError? || op.Success?
    ensures var s := Apply(r, op, threshold);
      && (s.status.Loaded? <==> r.status.Loaded? && (op.PluginError? ==> r.errors + 1 < threshold))
      && (r.status.Loaded? && op.PluginError? && r.errors + 1 >= threshold ==> s.status.Unloading?)
      && (!r.status.Loaded? ==> s == r)
  {
  }

  /** Left to itself a plugin stays loaded exactly as long as its failures in a row have
      never reached the threshold, and is on its way out from the failure that does. */
  lemma {:induction false} LoadedIffNeverReached(ops: seq<Op>, threshold: nat)
    requires threshold >= 1 && Unattended(ops)
    ensures Allowed(Fresh, ops, threshold)
    ensures Run(Fresh, ops, threshold).status == if NeverReached(ops, threshold) then Loaded else Unloading
    decreases |ops|
  {
    hide Allowed, Run, NeverReached, Apply;
    Nothing(threshold);
    if ops == [] {
      assert NeverReached([], threshold) by { NothingReached(threshold); }
    } else {
      var n := |ops| - 1;
      assert ops == ops[..n] + [ops[n]];
      LoadedIffNeverReached(ops[..n], threshold);
      RunAppend(Fresh, ops[..n], ops[n], threshold);
      UnattendedStep(Run(Fresh, ops[..n], threshold), ops[n], threshold);
      NeverReachedLast(ops, threshold);
      if Run(Fresh, ops[..n], threshold).status.Loaded? {
        CounterIsStreak(ops[..n], threshold);
        NeverReachedMeans(ops[..n], threshold);
      }
    }
  }

  lemma NeverReachedLast(ops: seq<Op>, threshold: nat)
    requires ops != []
    ensures NeverReached(ops, threshold) <==> NeverReached(ops[..|ops| - 1], threshold) && Streak(ops) < threshold
  {
  }

  lemma NothingReached(threshold: nat)
    requires threshold >= 1
    ensures NeverReached([], threshold)
  {
  }

  lemma NeverReachedMeans(ops: seq<Op>, threshold: nat)
    requires NeverReached(ops, threshold)
    ensures Streak(ops) < threshold
  {
  }

  function Announcements(ops: seq<Op>): nat {
    if ops == [] then 0
    else (if ops[0].ThresholdDone? || ops[0] == OrderlyDone(true) then 1 else 0) + Announcements(ops[1..])
  }

  /** A plugin is announced as removed once for each unload by the threshold path and each by
      `remove` that went through, and never by `stop`. */
  lemma {:induction false} RemovedIsCounted(r: Record, ops: seq<Op>, threshold: nat)
    requires Allowed(r, ops, threshold)
    ensures Run(r, ops, threshold).removed == r.removed + Announcements(ops)
    decreases |ops|
  {
    if ops != [] {
      RemovedIsCounted(Apply(r, ops[0], threshold), ops[1..], threshold);
    }
  }

  // -- when the status ladder holds --------------------------------------------------------------

  /** No unload begins while an orderly one awaits the plugin. */
  predicate Orderly(r: Record, op: Op, threshold: nat) {
    r.orderly > 0 ==> !(op.PluginError? && Breaches(r, threshold)) && !(op.OrderlyBegin? && r.status.Loaded?)
  }

  predicate AllOrderly(r: Record, ops: seq<Op>, threshold: nat)
    requires Allowed(r, ops, threshold)
    decreases |ops|
  {
    ops == [] || (Orderly(r, ops[0], threshold) && AllOrderly(Apply(r, ops[0], threshold), ops[1..], threshold))
  }

  predicate Rung(a: Status, b: Status) {
    (a.Loaded? && (b.Unloading? || b.Unloaded?)) || (a.Unloading? && b.Failed?)
  }

  predicate Ladder(trail: seq<Status>) {
    forall i | 0 <= i < |trail| - 1 :: Rung(trail[i], trail[i + 1])
  }

  /** How often the plugin's `on_unload` has been entered, on either path. */
  function Unloads(r: Record): nat {
    r.spawned + r.begun
  }

  predicate Tidy(r: Record, threshold: nat) {
    && Inv(r, threshold) && Unloads(r) <= 1
    && r.trail != [] && r.trail[|r.trail| - 1] == r.status && Ladder(r.trail)
    && (r.status.Loaded? ==> r.removed == 0 && r.tasks == 0 && r.orderly == r.begun)
    && (r.status.Unloading? ==> r.removed == 0 && r.tasks == 1 && r.begun == 0)
    && (r.status.Failed? || r.status.Unloaded? ==> r.tasks == 0 && r.orderly == 0)
    && r.removed <= 1
  }

  lemma LadderAppend(trail: seq<Status>, s: Status)
    requires Ladder(trail) && trail != [] && Rung(trail[|trail| - 1], s)
    ensures Ladder(trail + [s])
  {
  }

  lemma StepKeepsTidy(r: Record, op: Op, threshold: nat)
    requires threshold >= 1 && Tidy(r, threshold) && Enabled(r, op) && Orderly(r, op, threshold)
    ensures Tidy(Apply(r, op, threshold), threshold)
  {
    hide Ladder;
    var s := Apply(r, op, threshold);
    if s.trail != r.trail {
      LadderAppend(r.trail, s.status);
    }
  }

  lemma UnloadsGrow(r: Record, op: Op, threshold: nat)
    requires Enabled(r, op) && r.orderly <= r.begun
    ensures Unloads(Apply(r, op, threshold)) >= Unloads(r)
    ensures !Orderly(r, op, threshold) ==> Unloads(Apply(r, op, threshold)) >= 2
    ensures Apply(r, op, threshold).orderly <= Apply(r, op, threshold).begun
  {
  }

  lemma {:induction false} UnloadsOnlyGrow(r: Record, ops: seq<Op>, threshold: nat)
    requires Allowed(r, ops, threshold) && r.orderly <= r.begun
    ensures Unloads(Run(r, ops, threshold)) >= Unloads(r)
    ensures !AllOrderly(r, ops, threshold) ==> Unloads(Run(r, ops, threshold)) >= 2
    decreases |ops|
  {
    hide Apply, Enabled, Orderly, Unloads;
    if ops != [] {
      UnloadsGrow(r, ops[0], threshold);
      UnloadsOnlyGrow(Apply(r, ops[0], threshold), ops[1..], threshold);
    }
  }

  lemma {:induction false} RunKeepsTidy(r: Record, ops: seq<Op>, threshold: nat)
    requires threshold >= 1 && Tidy(r, threshold) && Allowed(r, ops, threshold) && AllOrderly(r, ops, threshold)
    ensures Tidy(Run(r, ops, threshold), threshold)
    decreases |ops|
  {
    hide Apply, Enabled, Orderly, Tidy;
    if ops != [] {
      StepKeepsTidy(r, ops[0], threshold);
      RunKeepsTidy(Apply(r, ops[0], threshold), ops[1..], threshold);
    }
  }

  /** A plugin is unloaded at most once if and only if nothing starts an unload while an
      orderly one awaits it; then its status only moves loaded, unloading, failed or
      loaded, unloaded, and it is announced as removed at most once. */
  lemma UnloadedOnceIffOrderly(ops: seq<Op>, threshold: nat)
    requires threshold >= 1 && Allowed(Fresh, ops, threshold)
    ensures var r := Run(Fresh, ops, threshold);
      && (Unloads(r) <= 1 <==> AllOrderly(Fresh, ops, threshold))
      && (Unloads(r) <= 1 ==> Ladder(r.trail) && r.removed <= 1)
  {
    hide Run, Allowed, AllOrderly, Ladder, Tidy;
    UnloadsOnlyGrow(Fresh, ops, threshold);
    FreshIsTidy(threshold);
    if AllOrderly(Fresh, ops, threshold) {
      RunKeepsTidy(Fresh, ops, threshold);
      TidyMeans(Run(Fresh, ops, threshold), threshold);
    }
  }

  lemma TidyMeans(r: Record, threshold: nat)
    requires Tidy(r, threshold)
    ensures Unloads(r) <= 1 && Ladder(r.trail) && r.removed <= 1
  {
  }

  lemma FreshIsTidy(threshold: nat)
    requires threshold >= 1
    ensures Tidy(Fresh, threshold)
  {
  }

  /** `stop` and `remove` taken as one step: nothing between the two halves. */
  predicate Atomic(r: Record, ops: seq<Op>, threshold: nat)
    requires Allowed(r, ops, threshold)
    decreases |ops|
  {
    ops == [] || (
      && (r.orderly > 0 ==> ops[0].OrderlyDone?)
      && Atomic(Apply(r, ops[0], threshold), ops[1..], threshold))
  }

  /** Then nothing begins in between, whatever the order of errors and successes. */
  lemma {:induction false} AtomicIsOrderly(r: Record, ops: seq<Op>, threshold: nat)
    requires Allowed(r, ops, threshold) && Atomic(r, ops, threshold)
    ensures AllOrderly(r, ops, threshold)
    decreases |ops|
  {
    hide Apply, Enabled;
    if ops != [] {
      AtomicIsOrderly(Apply(r, ops[0], threshold), ops[1..], threshold);
    }
  }

  /** An error burst while `remove` awaits `on_unload` unloads the plugin a second time:
      two `plugin.removed`, and a status that leaves its terminal `unloaded`. */
  lemma BurstDuringRemove()
    ensures var ops := [OrderlyBegin, PluginError, OrderlyDone(true), ThresholdDone];
      && Allowed(Fresh, ops, 1)
      && var r := Run(Fresh, ops, 1);
      r.removed == 2 && r.trail == [Loaded, Unloading, Unloaded, Failed]
  {
    var ops := [OrderlyBegin, PluginError, OrderlyDone(true), ThresholdDone];
    assert ops[1..] == [PluginError, OrderlyDone(true), ThresholdDone];
    assert ops[1..][1..] == [OrderlyDone(true), ThresholdDone] && ops[1..][1..][1..] == [ThresholdDone];
    assert ops[1..][1..][1..][1..] == [];
  }

  // -- the registry's table ------------------------------------------------------------------------

  class PluginRegistry {
    const threshold: nat
    var records: map<string, Record>

    ghost predicate Valid() reads this {
      threshold >= 1 && forall name | name in records :: Inv(records[name], threshold)
    }

    constructor (threshold: nat)
      requires threshold >= 1
      ensures Valid() && records == map[] && this.threshold == threshold
    {
      this.threshold := threshold;
      records := map[];
    }

    method Register(name: string)
      requires Valid() && name !in records
      modifies this
      ensures Valid() && records == old(records)[name := Fresh]
    {
      records := records[name := Fresh];
    }

    /** The handler; the status flips before the task is created, so `spawned` is true
        for the breaching error alone. `named` is false when the payload names nobody. */
    method OnPluginError(named: bool, name: string) returns (spawned: bool)
      requires Valid()
      modifies this
      ensures Valid()
      ensures records == if named && name in old(records)
        then old(records)[name := Apply(old(records)[name], PluginError, threshold)] else old(records)
      ensures spawned ==>
        named && name in records && records[name].status.Unloading? && old(records)[name].status.Loaded?
      ensures named && name in records ==> (spawned <==> records[name].spawned == old(records)[name].spawned + 1)
    {
      spawned := false;
      if !named || name !in records { return; }
      var r := records[name];
      StepKeepsInv(r, PluginError, threshold);
      if !r.status.Loaded? {
        return;
      }
      r := r.(errors := r.errors + 1);
      if r.errors >= threshold {
        r := Now(r.(tasks := r.tasks + 1, spawned := r.spawned + 1), Unloading);
        spawned := true;
      }
      records := records[name := r];
    }

    method ResetCounter(name: string)
      requires Valid()
      modifies this
      ensures Valid()
      ensures records == if name in old(records)
        then old(records)[name := Apply(old(records)[name], Success, threshold)] else old(records)
    {
      if name !in records || !records[name].status.Loaded? { return; }
      StepKeepsInv(records[name], Success, threshold);
      records := records[name := records[name].(errors := 0)];
    }

    /** Behind the await of `on_unload`, on the path the reason names. */
    method UnloadFinished(name: string, byThreshold: bool, emitRemoved: bool)
      requires Valid() && name in records
      requires if byThreshold then records[name].tasks > 0 && emitRemoved else records[name].orderly > 0
      modifies this
      ensures Valid()
      ensures records == old(records)[name :=
        Apply(old(records)[name], if byThreshold then ThresholdDone else OrderlyDone(emitRemoved), threshold)]
    {
      var r := records[name];
      StepKeepsInv(r, if byThreshold then ThresholdDone else OrderlyDone(emitRemoved), threshold);
      var left := if byThreshold then r.(tasks := r.tasks - 1) else r.(orderly := r.orderly - 1);
      var announced := left.(removed := left.removed + if emitRemoved then 1 else 0);
      records := records[name := Now(announced, if byThreshold then Failed else Unloaded)];
    }
  }
}
