/** How much work is pending, how a failing plugin adds to it, and when the workers of
    an open bus come to rest. */
module BusProgress {
  import opened Bus
  import opened BusSafety

  predicate WorkerStep(a: Action) {
    a.Pop? || a.HandlerReturns? || a.HandlerFails? || a.Finish?
  }

  /** A failure of this subscriber's handler is reported. */
  predicate OfPlugin(sub: Subscriber) {
    sub.source != KERNEL
  }

  // -- the work pending --------------------------------------------------------------

  /** One step for each call, and `report` more for each that may have to be reported. */
  function Calls(subs: seq<Subscriber>, report: nat): nat {
    if subs == [] then 0 else 1 + (if OfPlugin(subs[0]) then report else 0) + Calls(subs[1..], report)
  }

  function ItemWork(subs: map<string, seq<Subscriber>>, report: nat, item: Item): nat {
    match item
    case CloseToken => 1
    case Mail(env) => 2 + if env.kind in subs then Calls(subs[env.kind], report) else 0
  }

  function QueueWork(subs: map<string, seq<Subscriber>>, report: nat, q: seq<Item>): nat {
    if q == [] then 0 else ItemWork(subs, report, q[0]) + QueueWork(subs, report, q[1..])
  }

  /** The subscribers of a delivery still to be called. */
  function Uncalled(d: Delivery): seq<Subscriber> {
    if |d.called| <= |d.targets| then d.targets[|d.called|..] else []
  }

  function WorkerWork(subs: map<string, seq<Subscriber>>, report: nat, k: Worker): nat {
    match k.phase
    case Exited => 0
    case Idle => QueueWork(subs, report, k.queue)
    case Delivering(d) => QueueWork(subs, report, k.queue) + 1 + Calls(Uncalled(d), report)
  }

  function TasksWork(subs: map<string, seq<Subscriber>>, report: nat, ks: seq<Worker>): nat {
    if ks == [] then 0 else WorkerWork(subs, report, ks[0]) + TasksWork(subs, report, ks[1..])
  }

  /** The pending work if a report weighs `report`: with 0, the worker steps left if
      nothing is published or reported any more. */
  function Work(s: State, report: nat): nat {
    TasksWork(s.subs, report, s.tasks)
  }

  lemma {:induction false} WorkUpdate(subs: map<string, seq<Subscriber>>, report: nat, ks: seq<Worker>, w: nat,
        k: Worker)
    requires w < |ks|
    ensures TasksWork(subs, report, ks[w := k]) + WorkerWork(subs, report, ks[w])
         == TasksWork(subs, report, ks) + WorkerWork(subs, report, k)
  {
    hide WorkerWork;
    if w == 0 {
      assert ks[w := k][1..] == ks[1..];
    } else {
      assert ks[w := k][1..] == ks[1..][w - 1 := k];
      WorkUpdate(subs, report, ks[1..], w - 1, k);
    }
  }

  lemma {:induction false} WorkAppend(subs: map<string, seq<Subscriber>>, report: nat, ks: seq<Worker>, k: Worker)
    ensures TasksWork(subs, report, ks + [k]) == TasksWork(subs, report, ks) + WorkerWork(subs, report, k)
  {
    hide WorkerWork;
    if ks == [] {
      assert ks + [k] == [k] && [k][1..] == [];
    } else {
      assert (ks + [k])[1..] == ks[1..] + [k];
      WorkAppend(subs, report, ks[1..], k);
    }
  }

  lemma {:induction false} QueueWorkAppend(subs: map<string, seq<Subscriber>>, report: nat, q: seq<Item>, item: Item)
    ensures QueueWork(subs, report, q + [item]) == QueueWork(subs, report, q) + ItemWork(subs, report, item)
  {
    hide ItemWork;
    if q == [] {
      assert q + [item] == [item] && [item][1..] == [];
    } else {
      assert (q + [item])[1..] == q[1..] + [item];
      QueueWorkAppend(subs, report, q[1..], item);
    }
  }

  // -- worker steps ------------------------------------------------------------------

  lemma PopUsesWork(s: State, w: nat, report: nat)
    requires Registered(s) && Enabled(s, Pop(w))
    ensures Work(Apply(s, Pop(w)), report) < Work(s, report)
  {
    hide Registered, TasksWork, QueueWork, Calls;
    var k := s.tasks[w];
    var next := Popped(s, k);
    FirstItem(s.subs, report, k.queue);
    PopTasks(s, w);
    WorkUpdate(s.subs, report, s.tasks, w, next);
    if k.queue[0].Mail? {
      MailWork(s, k.queue[0].env, report);
      NoneCalled(next.phase.d);
    }
  }

  lemma NoneCalled(d: Delivery)
    requires d.called == []
    ensures Uncalled(d) == d.targets
  {
  }

  lemma FirstItem(subs: map<string, seq<Subscriber>>, report: nat, q: seq<Item>)
    requires q != []
    ensures QueueWork(subs, report, q) == ItemWork(subs, report, q[0]) + QueueWork(subs, report, q[1..])
  {
  }

  /** What a worker is once it has taken the first item of its queue. */
  function Popped(s: State, k: Worker): Worker
    requires k.queue != []
  {
    if k.queue[0].Mail?
    then k.(queue := k.queue[1..], phase := Delivering(Delivery(k.queue[0].env, Targets(s, k.queue[0].env.kind), [])))
    else k.(queue := k.queue[1..], phase := Exited)
  }

  lemma PopTasks(s: State, w: nat)
    requires Registered(s) && Enabled(s, Pop(w))
    ensures var s' := Apply(s, Pop(w));
      s'.tasks == s.tasks[w := Popped(s, s.tasks[w])] && s'.subs == s.subs && s'.closed == s.closed
  {
  }

  lemma CallUsesWork(s: State, w: nat, report: nat)
    requires Busy(s, w)
    ensures Work(CallDone(s, w), report) + 1 + (if OfPlugin(Running(s, w)) then report else 0) == Work(s, report)
  {
    hide TasksWork, QueueWork, OfPlugin;
    var d, k := Current(s, w), s.tasks[w];
    var next := k.(phase := Delivering(d.(called := d.called + [Running(s, w)])));
    assert CallDone(s, w).tasks == s.tasks[w := next];
    assert Uncalled(d)[0] == Running(s, w) && Uncalled(d)[1..] == Uncalled(next.phase.d);
    WorkUpdate(s.subs, report, s.tasks, w, next);
  }

  lemma FinishUsesWork(s: State, w: nat, report: nat)
    requires Registered(s) && Enabled(s, Finish(w))
    ensures Work(Apply(s, Finish(w)), report) < Work(s, report)
  {
    hide Registered, TasksWork, Calls;
    var k := s.tasks[w];
    FinishTasks(s, w);
    WorkUpdate(s.subs, report, s.tasks, w, Finished(k));
  }

  function Finished(k: Worker): Worker {
    k.(phase := if k.queue == [] then Exited else Idle)
  }

  lemma FinishTasks(s: State, w: nat)
    requires Registered(s) && Enabled(s, Finish(w))
    ensures var s' := Apply(s, Finish(w));
      s'.tasks == s.tasks[w := Finished(s.tasks[w])] && s'.subs == s.subs && s'.closed == s.closed
  {
  }

  /** A worker step uses up work, however a report is weighed, unless it is a failure
      that gets reported. */
  lemma WorkerStepUsesWork(s: State, a: Action, report: nat)
    requires Inv(s) && Enabled(s, a) && WorkerStep(a)
    requires a.HandlerFails? ==> s.closed || Running(s, a.w).source == KERNEL
    ensures Work(Apply(s, a), report) < Work(s, report)
  {
    hide Inv, Work;
    InvRegistered(s);
    if a.Pop? {
      PopUsesWork(s, a.w, report);
    } else if a.Finish? {
      FinishUsesWork(s, a.w, report);
    } else {
      CallUsesWork(s, a.w, report);
    }
  }

  lemma InvRegistered(s: State)
    requires Inv(s)
    ensures Registered(s)
  {
  }

  lemma EnqueueAddsWork(s: State, sid: string, kind: string, report: nat)
    requires Registered(s)
    ensures Work(Enqueue(s, sid, kind), report) == Work(s, report) + 2 + Calls(Targets(s, kind), report)
  {
    hide Calls, TasksWork, WorkerWork, ItemWork;
    var m, env := EnsureWorker(s, sid), Envelope(|s.accepted|, sid, kind);
    if sid !in s.queues {
      IdleAddsNoWork(s.subs, report, s.tasks, sid);
    }
    MailWork(s, env, report);
    QueueAddsWork(s.subs, report, m.tasks, m.queues[sid], Mail(env));
  }

  lemma MailWork(s: State, env: Envelope, report: nat)
    ensures ItemWork(s.subs, report, Mail(env)) == 2 + Calls(Targets(s, env.kind), report)
  {
  }

  lemma IdleAddsNoWork(subs: map<string, seq<Subscriber>>, report: nat, ks: seq<Worker>, sid: string)
    ensures TasksWork(subs, report, ks + [Worker(sid, [], Idle)]) == TasksWork(subs, report, ks)
  {
    WorkAppend(subs, report, ks, Worker(sid, [], Idle));
  }

  lemma QueueAddsWork(subs: map<string, seq<Subscriber>>, report: nat, ks: seq<Worker>, t: nat, item: Item)
    requires t < |ks| && !ks[t].phase.Exited?
    ensures TasksWork(subs, report, ks[t := ks[t].(queue := ks[t].queue + [item])])
         == TasksWork(subs, report, ks) + ItemWork(subs, report, item)
  {
    hide Calls, TasksWork, ItemWork;
    var k := ks[t];
    WorkUpdate(subs, report, ks, t, k.(queue := k.queue + [item]));
    QueueWorkAppend(subs, report, k.queue, item);
  }

  /** A reported failure trades its own weight for that of the whole delivery of its
      `plugin.error`. */
  lemma ReportAddsWork(s: State, w: nat, report: nat)
    requires Inv(s) && Enabled(s, HandlerFails(w)) && !s.closed && Running(s, w).source != KERNEL
    ensures Work(Apply(s, HandlerFails(w)), report) + report
         == Work(s, report) + 1 + Calls(Targets(s, PLUGIN_ERROR), report)
  {
    hide Inv, Work, Calls;
    CallUsesWork(s, w, report);
    CallDoneKeeps(s, w);
    InvRegistered(CallDone(s, w));
    EnqueueAddsWork(CallDone(s, w), KERNEL, PLUGIN_ERROR, report);
  }

  lemma {:induction false} FewerCalls(subs: seq<Subscriber>, sub: Subscriber, report: nat)
    ensures Calls(Without(subs, sub), report) <= Calls(subs, report)
  {
    if subs != [] {
      FewerCalls(subs[1..], sub, report);
    }
  }

  lemma {:induction false} FewerSubsLessQueueWork(subs: map<string, seq<Subscriber>>,
        less: map<string, seq<Subscriber>>, report: nat, q: seq<Item>)
    requires forall k | k in less :: k in subs && Calls(less[k], report) <= Calls(subs[k], report)
    ensures QueueWork(less, report, q) <= QueueWork(subs, report, q)
  {
    hide Calls;
    if q != [] {
      FewerSubsLessQueueWork(subs, less, report, q[1..]);
    }
  }

  lemma {:induction false} FewerSubsLessTasksWork(subs: map<string, seq<Subscriber>>,
        less: map<string, seq<Subscriber>>, report: nat, ks: seq<Worker>)
    requires forall k | k in less :: k in subs && Calls(less[k], report) <= Calls(subs[k], report)
    ensures TasksWork(less, report, ks) <= TasksWork(subs, report, ks)
  {
    hide Calls, QueueWork;
    if ks != [] {
      FewerSubsLessQueueWork(subs, less, report, ks[0].queue);
      FewerSubsLessTasksWork(subs, less, report, ks[1..]);
    }
  }

  lemma FewerSubsLessWork(s: State, sub: Subscriber, report: nat)
    ensures Work(RemoveSub(s, sub), report) <= Work(s, report)
  {
    hide Calls, TasksWork, Without;
    if sub.kind in s.subs {
      FewerCalls(s.subs[sub.kind], sub, report);
    }
    FewerSubsLessTasksWork(s.subs, RemoveSub(s, sub).subs, report, s.tasks);
  }

  // -- when the workers come to rest --------------------------------------------------

  predicate AnyPlugin(subs: seq<Subscriber>) {
    exists i :: 0 <= i < |subs| && OfPlugin(subs[i])
  }

  predicate HotQueue(s: State, q: seq<Item>) {
    exists i :: 0 <= i < |q| && q[i].Mail? && AnyPlugin(Targets(s, q[i].env.kind))
  }

  /** A plugin's handler is still to be called for something this worker holds. */
  predicate HotWorker(s: State, k: Worker) {
    match k.phase
    case Exited => false
    case Idle => HotQueue(s, k.queue)
    case Delivering(d) => HotQueue(s, k.queue) || AnyPlugin(Uncalled(d))
  }

  predicate Hot(s: State) {
    exists w :: 0 <= w < |s.tasks| && HotWorker(s, s.tasks[w])
  }

  /** A plugin listens for the reports of failing plugins. */
  predicate PluginHearsReports(s: State) {
    AnyPlugin(Targets(s, PLUGIN_ERROR))
  }

  lemma {:induction false} NoPluginNoReports(subs: seq<Subscriber>, report: nat)
    requires !AnyPlugin(subs)
    ensures Calls(subs, report) == |subs|
  {
    if subs != [] {
      assert !OfPlugin(subs[0]);
      assert forall i | 0 <= i < |subs| - 1 :: subs[1..][i] == subs[i + 1];
      NoPluginNoReports(subs[1..], report);
    }
  }

  lemma FirstCall(d: Delivery)
    requires d.called <= d.targets && |d.called| < |d.targets|
    ensures var next := d.(called := d.called + [d.targets[|d.called|]]);
      Uncalled(d) == [d.targets[|d.called|]] + Uncalled(next)
  {
  }

  lemma AnyPluginSplit(first: Subscriber, rest: seq<Subscriber>)
    ensures AnyPlugin([first] + rest) <==> OfPlugin(first) || AnyPlugin(rest)
  {
    if AnyPlugin(rest) {
      var i :| 0 <= i < |rest| && OfPlugin(rest[i]);
      assert ([first] + rest)[i + 1] == rest[i];
    }
    if OfPlugin(first) {
      assert ([first] + rest)[0] == first;
    }
  }

  lemma HotSplit(s: State, q: seq<Item>)
    requires q != []
    ensures HotQueue(s, q) <==>
      (q[0].Mail? && AnyPlugin(Targets(s, q[0].env.kind))) || HotQueue(s, q[1..])
  {
    hide AnyPlugin;
    if HotQueue(s, q[1..]) {
      var i :| 0 <= i < |q| - 1 && q[1..][i].Mail? && AnyPlugin(Targets(s, q[1..][i].env.kind));
      assert q[i + 1] == q[1..][i];
    }
    if HotQueue(s, q) {
      var i :| 0 <= i < |q| && q[i].Mail? && AnyPlugin(Targets(s, q[i].env.kind));
      if i > 0 {
        assert q[1..][i - 1] == q[i];
      }
    }
  }

  lemma PoppedHot(s: State, k: Worker)
    requires k.phase.Idle? && k.queue != []
    ensures HotWorker(s, Popped(s, k)) <==> HotWorker(s, k) && k.queue[0].Mail?
  {
    hide AnyPlugin, HotQueue;
    HotSplit(s, k.queue);
    if k.queue[0].Mail? {
      NoneCalled(Popped(s, k).phase.d);
    }
  }

  lemma CalledHot(s: State, k: Worker, d: Delivery)
    requires k.phase == Delivering(d) && d.called <= d.targets && |d.called| < |d.targets|
    ensures var r := d.targets[|d.called|];
      var next := k.(phase := Delivering(d.(called := d.called + [r])));
      HotWorker(s, k) <==> OfPlugin(r) || HotWorker(s, next)
  {
    hide AnyPlugin, HotQueue, Uncalled;
    FirstCall(d);
    AnyPluginSplit(d.targets[|d.called|], Uncalled(d.(called := d.called + [d.targets[|d.called|]])));
  }

  lemma FinishedHot(s: State, k: Worker)
    requires k.phase.Delivering? && k.phase.d.called == k.phase.d.targets
    ensures HotWorker(s, Finished(k)) <==> HotWorker(s, k)
  {
    hide HotQueue;
    assert Uncalled(k.phase.d) == [];
    assert k.queue == [] ==> !HotQueue(s, k.queue) by { EmptyIsCold(s); }
  }

  lemma EmptyIsCold(s: State)
    ensures !HotQueue(s, [])
  {
  }

  // -- one worker step ----------------------------------------------------------------

  lemma SameSubsSameHeat(s: State, s': State, k: Worker)
    requires s'.subs == s.subs
    ensures HotWorker(s', k) == HotWorker(s, k)
  {
    hide AnyPlugin;
    assert forall kind :: Targets(s', kind) == Targets(s, kind);
  }

  /** Only worker `w` changed. */
  lemma OneWorkerHeat(s: State, s': State, w: nat, next: Worker)
    requires w < |s.tasks| && s'.tasks == s.tasks[w := next] && s'.subs == s.subs
    ensures HotWorker(s, next) ==> Hot(s')
    ensures !Hot(s) && !HotWorker(s, next) ==> !Hot(s')
  {
    hide HotWorker;
    forall v | 0 <= v < |s'.tasks| ensures HotWorker(s', s'.tasks[v]) == HotWorker(s, s'.tasks[v]) {
      SameSubsSameHeat(s, s', s'.tasks[v]);
    }
    assert s'.tasks[w] == next;
    assert forall v | 0 <= v < |s.tasks| && v != w :: s'.tasks[v] == s.tasks[v];
  }

  function Called(s: State, w: nat): Worker
    requires Busy(s, w)
  {
    s.tasks[w].(phase := Delivering(Current(s, w).(called := Current(s, w).called + [Running(s, w)])))
  }

  lemma CallTasks(s: State, w: nat)
    requires Inv(s) && Busy(s, w)
    ensures CallDone(s, w).tasks == s.tasks[w := Called(s, w)]
    ensures CallDone(s, w).subs == s.subs && CallDone(s, w).closed == s.closed
    ensures HotWorker(s, s.tasks[w]) <==> OfPlugin(Running(s, w)) || HotWorker(s, Called(s, w))
  {
    hide HotWorker;
    assert WorkerOk(s.closed, s.tasks[w]);
    CalledHot(s, s.tasks[w], Current(s, w));
  }

  /** A report that a plugin listens for makes the kernel's worker hot. */
  lemma ReportIsHot(s: State)
    requires Registered(s) && PluginHearsReports(s)
    ensures Hot(Enqueue(s, KERNEL, PLUGIN_ERROR))
    ensures Enqueue(s, KERNEL, PLUGIN_ERROR).subs == s.subs && Enqueue(s, KERNEL, PLUGIN_ERROR).closed == s.closed
  {
    hide AnyPlugin, Uncalled;
    var s' := Enqueue(s, KERNEL, PLUGIN_ERROR);
    var k := s'.tasks[s'.queues[KERNEL]];
    var i := |k.queue| - 1;
    assert k.queue[i] == Mail(Envelope(|s.accepted|, KERNEL, PLUGIN_ERROR));
    assert Targets(s', PLUGIN_ERROR) == Targets(s, PLUGIN_ERROR);
    assert HotQueue(s', k.queue);
    assert HotWorker(s', k);
  }

  lemma IdleHasMail(s: State, w: nat)
    requires Inv(s) && !s.closed && w < |s.tasks| && s.tasks[w].phase.Idle?
    ensures s.tasks[w].queue != [] && s.tasks[w].queue[0].Mail?
  {
    assert WorkerOk(s.closed, s.tasks[w]);
  }

  lemma AllCalled(s: State, w: nat)
    requires Inv(s) && w < |s.tasks| && s.tasks[w].phase.Delivering? && !Busy(s, w)
    ensures s.tasks[w].phase.d.called == s.tasks[w].phase.d.targets
  {
    assert WorkerOk(s.closed, s.tasks[w]);
  }

  /** As long as a plugin listens for reports a hot bus can take a step and stay hot. */
  lemma StaysHot(s: State) returns (a: Action)
    requires Inv(s) && !s.closed && Hot(s) && PluginHearsReports(s)
    ensures WorkerStep(a) && Enabled(s, a)
    ensures Registered(s) && var s' := Apply(s, a); Hot(s') && s'.subs == s.subs && !s'.closed
  {
    hide Inv, HotWorker, PluginHearsReports, Registered;
    InvRegistered(s);
    var w :| 0 <= w < |s.tasks| && HotWorker(s, s.tasks[w]);
    ExitedIsCold(s, s.tasks[w]);
    var k := s.tasks[w];
    if k.phase.Idle? {
      a := Pop(w);
      IdleHasMail(s, w);
      PoppedHot(s, k);
      PopTasks(s, w);
      OneWorkerHeat(s, Apply(s, a), w, Popped(s, k));
    } else if !Busy(s, w) {
      a := Finish(w);
      AllCalled(s, w);
      FinishedHot(s, k);
      FinishTasks(s, w);
      OneWorkerHeat(s, Apply(s, a), w, Finished(k));
    } else {
      CallTasks(s, w);
      if HotWorker(s, Called(s, w)) {
        a := HandlerReturns(w);
        OneWorkerHeat(s, CallDone(s, w), w, Called(s, w));
      } else {
        a := HandlerFails(w);
        CallDoneKeeps(s, w);
        InvRegistered(CallDone(s, w));
        SameListeners(s, CallDone(s, w));
        ReportIsHot(CallDone(s, w));
      }
    }
  }

  lemma ExitedIsCold(s: State, k: Worker)
    ensures k.phase.Exited? ==> !HotWorker(s, k)
  {
  }

  lemma SameListeners(s: State, s': State)
    requires s'.subs == s.subs
    ensures PluginHearsReports(s') == PluginHearsReports(s) && Targets(s', PLUGIN_ERROR) == Targets(s, PLUGIN_ERROR)
  {
  }

  /** No worker step heats a cold bus: no call that could be reported is left. */
  lemma StaysCold(s: State, a: Action)
    requires Inv(s) && !Hot(s) && Enabled(s, a) && WorkerStep(a)
    ensures a.HandlerFails? ==> Running(s, a.w).source == KERNEL
    ensures Registered(s) && !Hot(Apply(s, a)) && Apply(s, a).subs == s.subs
  {
    hide Inv, HotWorker, Registered;
    InvRegistered(s);
    var w, k := a.w, s.tasks[a.w];
    assert !HotWorker(s, k);
    if a.Pop? {
      PoppedHot(s, k);
      PopTasks(s, w);
      OneWorkerHeat(s, Apply(s, a), w, Popped(s, k));
    } else if a.Finish? {
      AllCalled(s, w);
      FinishedHot(s, k);
      FinishTasks(s, w);
      OneWorkerHeat(s, Apply(s, a), w, Finished(k));
    } else {
      CallTasks(s, w);
      OneWorkerHeat(s, CallDone(s, w), w, Called(s, w));
    }
  }

  // -- whole runs ---------------------------------------------------------------------

  predicate OnlyWorkers(acts: seq<Action>) {
    forall i | 0 <= i < |acts| :: WorkerStep(acts[i])
  }

  /** The workers by themselves come to rest, whatever their handlers do. */
  ghost predicate Rests(s: State) {
    exists n: nat :: AtMost(s, n)
  }

  ghost predicate AtMost(s: State, n: nat) {
    forall acts, s' | Run(s, acts, s') && OnlyWorkers(acts) :: |acts| <= n
  }

  /** For every number a run of that many worker steps, none of them a publish. */
  lemma {:induction false} EndlessRun(s: State, n: nat) returns (acts: seq<Action>, s': State)
    requires Inv(s) && !s.closed && Hot(s) && PluginHearsReports(s)
    ensures Run(s, acts, s') && OnlyWorkers(acts) && |acts| == n
    decreases n
  {
    hide Inv, Hot, PluginHearsReports, WorkerStep, Apply, Enabled, Registered;
    if n == 0 {
      acts, s' := [], s;
    } else {
      var a := StaysHot(s);
      var m := Apply(s, a);
      StepKeepsInv(s, a);
      SameListeners(s, m);
      var rest;
      rest, s' := EndlessRun(m, n - 1);
      acts := [a] + rest;
      assert acts[1..] == rest;
    }
  }

  predicate Calm(s: State, report: nat) {
    s.closed || !Hot(s) || (!PluginHearsReports(s) && report == 2 + |Targets(s, PLUGIN_ERROR)|)
  }

  lemma CalmStep(s: State, a: Action, report: nat)
    requires Inv(s) && Calm(s, report) && Enabled(s, a) && WorkerStep(a)
    ensures Registered(s) && Work(Apply(s, a), report) < Work(s, report) && Calm(Apply(s, a), report)
  {
    hide Inv, Hot, Work, PluginHearsReports, Registered;
    InvRegistered(s);
    KeepsSubs(s, a);
    SameListeners(s, Apply(s, a));
    if !s.closed && !Hot(s) {
      StaysCold(s, a);
    }
    if s.closed || !a.HandlerFails? || Running(s, a.w).source == KERNEL {
      WorkerStepUsesWork(s, a, report);
    } else {
      ReportAddsWork(s, a.w, report);
      NoPluginHears(s, report);
    }
  }

  lemma NoPluginHears(s: State, report: nat)
    requires !PluginHearsReports(s)
    ensures Calls(Targets(s, PLUGIN_ERROR), report) == |Targets(s, PLUGIN_ERROR)|
  {
    NoPluginNoReports(Targets(s, PLUGIN_ERROR), report);
  }

  lemma KeepsSubs(s: State, a: Action)
    requires Registered(s) && Enabled(s, a) && WorkerStep(a)
    ensures Apply(s, a).subs == s.subs && (s.closed ==> Apply(s, a).closed)
  {
    if a.Pop? {
      PopTasks(s, a.w);
    } else if a.Finish? {
      FinishTasks(s, a.w);
    } else if a.HandlerFails? {
      FailedKeepsSubs(s, a.w);
    }
  }

  lemma FailedKeepsSubs(s: State, w: nat)
    requires Registered(s) && Busy(s, w)
    ensures CallFailed(s, w).subs == s.subs && CallFailed(s, w).closed == s.closed
  {
    hide Registered;
  }

  lemma {:induction false} CalmRun(s: State, acts: seq<Action>, s': State, report: nat)
    requires Inv(s) && Calm(s, report) && Run(s, acts, s') && OnlyWorkers(acts)
    ensures |acts| + Work(s', report) <= Work(s, report)
    decreases |acts|
  {
    hide Inv, Calm, Work, Enabled, Apply, Registered, WorkerStep;
    if acts != [] {
      CalmStep(s, acts[0], report);
      StepKeepsInv(s, acts[0]);
      assert forall i | 0 <= i < |acts| - 1 :: acts[1..][i] == acts[i + 1];
      CalmRun(Apply(s, acts[0]), acts[1..], s', report);
    }
  }

  /** The exact condition: in any state of any run the workers come to rest by themselves,
      however their handlers end, if and only if the bus is closed, or nothing pending
      calls a plugin's handler, or no plugin listens for `plugin.error`. */
  lemma RestsIff(s: State)
    requires Inv(s)
    ensures Rests(s) <==> s.closed || !Hot(s) || !PluginHearsReports(s)
  {
    hide Inv, Hot, PluginHearsReports, Work, Run, OnlyWorkers;
    var report := 2 + |Targets(s, PLUGIN_ERROR)|;
    if Calm(s, report) {
      forall acts, s' | Run(s, acts, s') && OnlyWorkers(acts) ensures |acts| <= Work(s, report) {
        CalmRun(s, acts, s', report);
      }
      assert AtMost(s, Work(s, report));
    } else if Rests(s) {
      var n: nat :| AtMost(s, n);
      var acts, s' := EndlessRun(s, n + 1);
    }
  }
}
