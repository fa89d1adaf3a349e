/** What the bus promises over every run from an empty bus: order, exactly-once
    delivery, no lost wake-up, no deadlock, and a `close` that drains. */
module BusTheorems {
  import opened Bus
  import opened BusSafety
  import opened BusProgress

  // -- order and exactly-once -------------------------------------------------------

  lemma {:induction false} OfCount(es: seq<Envelope>, sid: string, e: Envelope)
    ensures multiset(Of(es, sid))[e] == if e.sid == sid then multiset(es)[e] else 0
  {
    if es != [] {
      var n := |es| - 1;
      OfCount(es[..n], sid, e);
      assert es == es[..n] + [es[n]];
    }
  }

  lemma {:induction false} CountAtMostOne(es: seq<Envelope>, e: Envelope)
    requires forall i, j | 0 <= i < j < |es| :: es[i] != es[j]
    ensures multiset(es)[e] == if e in es then 1 else 0
  {
    if es != [] {
      var n := |es| - 1;
      CountAtMostOne(es[..n], e);
      assert es == es[..n] + [es[n]];
    }
  }

  lemma CountedTwice(es: seq<Envelope>, i: nat, j: nat)
    requires i < j < |es| && es[i] == es[j]
    ensures multiset(es)[es[i]] >= 2
  {
    assert es == es[..i] + [es[i]] + es[i + 1..j] + [es[j]] + es[j + 1..];
  }

  /** Every accepted envelope is exactly once among the delivered and the pending. */
  lemma Conserved(s: State, e: Envelope)
    requires Inv(s)
    ensures multiset(Envelopes(s.delivered))[e] + multiset(Pending(s, e.sid))[e] == if e in s.accepted then 1 else 0
  {
    OfCount(s.accepted, e.sid, e);
    OfCount(Envelopes(s.delivered), e.sid, e);
    assert Of(s.accepted, e.sid) == Of(Envelopes(s.delivered), e.sid) + Pending(s, e.sid);
    CountAtMostOne(s.accepted, e);
  }

  lemma NoneTwice(s: State, i: nat, j: nat)
    requires Inv(s) && i < j < |s.delivered|
    ensures s.delivered[i].env != s.delivered[j].env
  {
    var es := Envelopes(s.delivered);
    if es[i] == es[j] {
      CountedTwice(es, i, j);
      Conserved(s, es[i]);
    }
  }

  /** In every reachable state each session's accepted publishes are its delivered
      ones, then the one in progress, then the queued ones, in publish order;
      nothing is delivered twice or without having been accepted; every delivery
      called each subscriber of its snapshot once, in subscription order; and
      exactly the delivered envelopes' futures are resolved. */
  lemma FifoExactlyOnce(acts: seq<Action>, s: State)
    requires Run(Init, acts, s)
    ensures Registered(s)
    ensures forall sid :: Of(s.accepted, sid) == Of(Envelopes(s.delivered), sid) + Pending(s, sid)
    ensures forall i, j | 0 <= i < j < |s.delivered| :: s.delivered[i].env != s.delivered[j].env
    ensures forall i | 0 <= i < |s.delivered| :: s.delivered[i].env in s.accepted
    ensures forall i | 0 <= i < |s.delivered| :: s.delivered[i].called == s.delivered[i].targets
    ensures s.resolved == set i | 0 <= i < |s.delivered| :: s.delivered[i].env.id
  {
    RunKeepsInv(Init, acts, s);
    forall i, j | 0 <= i < j < |s.delivered| ensures s.delivered[i].env != s.delivered[j].env {
      NoneTwice(s, i, j);
    }
    forall i | 0 <= i < |s.delivered| ensures s.delivered[i].env in s.accepted {
      var es := Envelopes(s.delivered);
      Conserved(s, es[i]);
      assert es[i] in multiset(es);
    }
  }

  /** At most one worker per session is alive at any time, and it owns the queue. */
  lemma OneLiveWorkerPerSession(acts: seq<Action>, s: State, t: nat, u: nat)
    requires Run(Init, acts, s)
    requires t < |s.tasks| && !s.tasks[t].phase.Exited?
    requires u < |s.tasks| && !s.tasks[u].phase.Exited?
    requires s.tasks[t].sid == s.tasks[u].sid
    ensures t == u && s.tasks[t].sid in s.queues && s.queues[s.tasks[t].sid] == t
  {
    RunKeepsInv(Init, acts, s);
  }

  /** This step takes the envelope off its queue while exactly these are subscribed. */
  ghost predicate Takes(s: State, a: Action, env: Envelope, targets: seq<Subscriber>) {
    a.Pop? && Enabled(s, a) && s.tasks[a.w].queue[0] == Mail(env) && Targets(s, env.kind) == targets
  }

  ghost predicate TakenIn(s: State, acts: seq<Action>, env: Envelope, targets: seq<Subscriber>)
    decreases |acts|
  {
    acts != [] && Registered(s) && Enabled(s, acts[0])
    && (Takes(s, acts[0], env, targets) || TakenIn(Apply(s, acts[0]), acts[1..], env, targets))
  }

  predicate IsOf(d: Delivery, env: Envelope, targets: seq<Subscriber>) {
    d.env == env && d.targets == targets
  }

  predicate Delivers(k: Worker, env: Envelope, targets: seq<Subscriber>) {
    k.phase.Delivering? && IsOf(k.phase.d, env, targets)
  }

  /** Under way or done. */
  predicate Begun(s: State, env: Envelope, targets: seq<Subscriber>) {
    || (exists w :: 0 <= w < |s.tasks| && Delivers(s.tasks[w], env, targets))
    || (exists i :: 0 <= i < |s.delivered| && IsOf(s.delivered[i], env, targets))
  }

  lemma EnqueuedDelivers(s: State, sid: string, kind: string, w: nat, env: Envelope, targets: seq<Subscriber>)
    requires Registered(s)
    ensures var s' := Enqueue(s, sid, kind);
      w < |s'.tasks| && Delivers(s'.tasks[w], env, targets) ==> w < |s.tasks| && Delivers(s.tasks[w], env, targets)
  {
    hide IsOf;
  }

  lemma CalledDelivers(s: State, v: nat, w: nat, env: Envelope, targets: seq<Subscriber>)
    requires Busy(s, v) && w < |s.tasks|
    ensures Delivers(CallDone(s, v).tasks[w], env, targets) == Delivers(s.tasks[w], env, targets)
  {
  }

  lemma TokensDeliver(s: State, task: nat, w: nat, env: Envelope, targets: seq<Subscriber>)
    requires w < |s.tasks|
    ensures Delivers(BeginClose(s, task).tasks[w], env, targets) == Delivers(s.tasks[w], env, targets)
  {
  }

  /** A delivery under way after a step was under way before it, or was just taken. */
  lemma DeliveryComesFrom(s: State, a: Action, w: nat, env: Envelope, targets: seq<Subscriber>)
    requires Inv(s) && Enabled(s, a)
    requires Registered(s) && w < |Apply(s, a).tasks| && Delivers(Apply(s, a).tasks[w], env, targets)
    ensures (w < |s.tasks| && Delivers(s.tasks[w], env, targets)) || Takes(s, a, env, targets)
  {
    hide Inv, Registered, Targets;
    if a.Publish? {
      if !s.closed {
        EnqueuedDelivers(s, a.sid, a.kind, w, env, targets);
      }
    } else if a.HandlerReturns? {
      CalledDelivers(s, a.w, w, env, targets);
    } else if a.HandlerFails? {
      CallDoneKeeps(s, a.w);
      InvRegistered(CallDone(s, a.w));
      EnqueuedDelivers(CallDone(s, a.w), KERNEL, PLUGIN_ERROR, w, env, targets);
      if w < |s.tasks| {
        CalledDelivers(s, a.w, w, env, targets);
      }
    } else if a.Pop? {
      PopTasks(s, a.w);
    } else if a.Finish? {
      FinishTasks(s, a.w);
    } else if a.CloseBegin? {
      if w < |s.tasks| {
        TokensDeliver(s, a.task, w, env, targets);
      }
    }
  }

  lemma FinishDelivers(s: State, w: nat)
    requires Enabled(s, Finish(w))
    ensures FinishDelivery(s, w).delivered == s.delivered + [s.tasks[w].phase.d]
  {
  }

  lemma PopDeliversNothing(s: State, w: nat)
    requires Enabled(s, Pop(w))
    ensures PopItem(s, w).delivered == s.delivered
  {
    hide Targets;
  }

  lemma OnlyFinishDelivers(s: State, a: Action)
    requires Inv(s) && Enabled(s, a) && Registered(s) && !a.Finish?
    ensures Apply(s, a).delivered == s.delivered
  {
    hide Inv, Registered, Enqueue;
    if a.Publish? {
      if !s.closed {
        EnqueueAccepts(s, a.sid, a.kind);
      }
    } else if a.HandlerFails? {
      CallDoneKeeps(s, a.w);
      InvRegistered(CallDone(s, a.w));
      EnqueueAccepts(CallDone(s, a.w), KERNEL, PLUGIN_ERROR);
    } else if a.Pop? {
      PopDeliversNothing(s, a.w);
    }
  }

  lemma BegunStep(s: State, a: Action, env: Envelope, targets: seq<Subscriber>)
    requires Inv(s) && Enabled(s, a) && Registered(s)
    ensures Begun(Apply(s, a), env, targets) ==> Begun(s, env, targets) || Takes(s, a, env, targets)
  {
    hide Inv, Registered, Takes, Delivers, IsOf;
    var s' := Apply(s, a);
    if w :| 0 <= w < |s'.tasks| && Delivers(s'.tasks[w], env, targets) {
      DeliveryComesFrom(s, a, w, env, targets);
    } else if i :| 0 <= i < |s'.delivered| && IsOf(s'.delivered[i], env, targets) {
      if a.Finish? {
        FinishDelivers(s, a.w);
        FinishingDelivers(s, a.w, env, targets);
      } else {
        OnlyFinishDelivers(s, a);
      }
    }
  }

  lemma FinishingDelivers(s: State, w: nat, env: Envelope, targets: seq<Subscriber>)
    requires Enabled(s, Finish(w))
    ensures IsOf(s.tasks[w].phase.d, env, targets) ==> Delivers(s.tasks[w], env, targets)
  {
  }

  lemma {:induction false} BegunRun(s: State, acts: seq<Action>, s': State, env: Envelope, targets: seq<Subscriber>)
    requires Inv(s) && Run(s, acts, s') && Begun(s', env, targets) && !Begun(s, env, targets)
    ensures TakenIn(s, acts, env, targets)
    decreases |acts|
  {
    hide Inv, Enabled, Apply, Takes, Begun, Registered;
    if acts != [] {
      StepKeepsInv(s, acts[0]);
      BegunStep(s, acts[0], env, targets);
      if !Takes(s, acts[0], env, targets) {
        BegunRun(Apply(s, acts[0]), acts[1..], s', env, targets);
      }
    }
  }

  /** Every delivery of every run went to those subscribed at the moment its envelope was
      taken off the queue: no earlier, no later, whoever came or left meanwhile. */
  lemma DeliveredToItsSnapshot(acts: seq<Action>, s: State, i: nat)
    requires Run(Init, acts, s) && i < |s.delivered|
    ensures TakenIn(Init, acts, s.delivered[i].env, s.delivered[i].targets)
    ensures s.delivered[i].called == s.delivered[i].targets
  {
    hide Inv, Run, TakenIn;
    InitInv();
    FifoExactlyOnce(acts, s);
    assert IsOf(s.delivered[i], s.delivered[i].env, s.delivered[i].targets);
    BegunRun(Init, acts, s, s.delivered[i].env, s.delivered[i].targets);
  }

  /** The delivery of worker `w` is still the same one, further on if anything. */
  predicate SameDelivery(s: State, s': State, w: nat) {
    && w < |s.tasks| && s.tasks[w].phase.Delivering?
    && w < |s'.tasks| && s'.tasks[w].phase.Delivering?
    && Current(s', w).env == Current(s, w).env && Current(s', w).targets == Current(s, w).targets
    && Current(s, w).called <= Current(s', w).called
  }

  /** No step but finishing it changes a delivery's snapshot, an unsubscribe in
      the middle of it least of all. */
  lemma SnapshotIsStable(s: State, a: Action, w: nat)
    requires Inv(s) && Enabled(s, a) && a != Finish(w)
    requires w < |s.tasks| && s.tasks[w].phase.Delivering?
    ensures SameDelivery(s, Apply(s, a), w)
  {
    hide Inv, SameDelivery, Enqueue;
    InvRegistered(s);
    if a.Publish? {
      PublishKeepsDelivery(s, a.who, a.sid, a.kind, w);
    } else if a.HandlerReturns? {
      CallKeepsDelivery(s, a.w, w);
    } else if a.HandlerFails? {
      CallKeepsDelivery(s, a.w, w);
      CallDoneKeeps(s, a.w);
      InvRegistered(CallDone(s, a.w));
      ReportKeepsDelivery(s, a.w, w);
    } else {
      BesideKeepsDelivery(s, a, w);
    }
  }

  lemma PublishKeepsDelivery(s: State, who: Publisher, sid: string, kind: string, w: nat)
    requires Registered(s) && w < |s.tasks| && s.tasks[w].phase.Delivering?
    ensures SameDelivery(s, Accept(s, who, sid, kind), w)
  {
    if !s.closed {
      EnqueueKeepsPhase(s, sid, kind, w);
    }
  }

  lemma ReportKeepsDelivery(s: State, v: nat, w: nat)
    requires Registered(s) && Busy(s, v) && Registered(CallDone(s, v)) && SameDelivery(s, CallDone(s, v), w)
    ensures SameDelivery(s, CallFailed(s, v), w)
  {
    if Running(s, v).source != KERNEL && !s.closed {
      EnqueueKeepsPhase(CallDone(s, v), KERNEL, PLUGIN_ERROR, w);
    }
  }

  lemma BesideKeepsDelivery(s: State, a: Action, w: nat)
    requires Registered(s) && Enabled(s, a) && a != Finish(w)
    requires !a.Publish? && !a.HandlerReturns? && !a.HandlerFails?
    requires w < |s.tasks| && s.tasks[w].phase.Delivering?
    ensures SameDelivery(s, Apply(s, a), w)
  {
    hide Registered;
    if a.CloseBegin? {
      TokenKeepsDelivery(s, a.task, w);
    } else if a.Pop? {
      PopTasks(s, a.w);
      assert a.w != w;
    } else if a.Finish? {
      FinishTasks(s, a.w);
    } else {
      assert Apply(s, a).tasks == s.tasks;
    }
  }

  lemma TokenKeepsDelivery(s: State, task: nat, w: nat)
    requires w < |s.tasks| && s.tasks[w].phase.Delivering?
    ensures SameDelivery(s, BeginClose(s, task), w)
  {
    var s' := BeginClose(s, task);
    assert s' != s ==> s'.tasks[w] == WithToken(s, w);
  }

  lemma CallKeepsDelivery(s: State, v: nat, w: nat)
    requires Busy(s, v) && w < |s.tasks| && s.tasks[w].phase.Delivering?
    ensures SameDelivery(s, CallDone(s, v), w)
  {
  }

  lemma EnqueueKeepsPhase(s: State, sid: string, kind: string, w: nat)
    requires Registered(s) && w < |s.tasks|
    ensures var s' := Enqueue(s, sid, kind); |s.tasks| <= |s'.tasks| && s'.tasks[w].phase == s.tasks[w].phase
  {
  }

  // -- no lost wake-up, no deadlock ---------------------------------------------------

  /** Worker `w` can run on by itself. */
  predicate CanStep(s: State, w: nat) {
    Enabled(s, Pop(w)) || Enabled(s, HandlerReturns(w)) || Enabled(s, Finish(w))
  }

  /** No live worker ever blocks on an empty queue. */
  lemma LiveWorkerCanStep(s: State, w: nat)
    requires Inv(s) && w < |s.tasks| && !s.tasks[w].phase.Exited?
    ensures CanStep(s, w)
  {
    assert WorkerOk(s.closed, s.tasks[w]);
  }

  lemma UndeliveredIsPending(s: State, e: Envelope)
    requires Inv(s) && e in s.accepted && e.id !in s.resolved
    ensures e.sid in s.queues && e in Pending(s, e.sid)
  {
    Conserved(s, e);
    var es := Envelopes(s.delivered);
    forall i | 0 <= i < |es| ensures es[i] != e {
      assert s.delivered[i].env.id in s.resolved;
    }
  }

  /** In every reachable state: the worker of each undelivered envelope's own
      session can run on; a publisher that waits can resume or waits for such a
      worker; a caller of `close` can return or waits for such a worker. */
  lemma DeadlockFree(acts: seq<Action>, s: State)
    requires Run(Init, acts, s)
    ensures forall e | e in s.accepted && e.id !in s.resolved :: e.sid in s.queues && CanStep(s, s.queues[e.sid])
    ensures forall t | t in s.waiting ::
      s.waiting[t] < |s.accepted| &&
      (Enabled(s, Resume(t)) ||
       var sid := s.accepted[s.waiting[t]].sid; sid in s.queues && CanStep(s, s.queues[sid]))
    ensures forall c | c in s.closing :: Enabled(s, CloseEnd(c)) || exists w | w in s.closing[c] :: CanStep(s, w)
  {
    RunKeepsInv(Init, acts, s);
    forall e | e in s.accepted && e.id !in s.resolved ensures e.sid in s.queues && CanStep(s, s.queues[e.sid]) {
      UndeliveredIsPending(s, e);
      LiveWorkerCanStep(s, s.queues[e.sid]);
    }
    forall t | t in s.waiting && !Enabled(s, Resume(t))
      ensures var sid := s.accepted[s.waiting[t]].sid; sid in s.queues && CanStep(s, s.queues[sid])
    {
      assert s.accepted[s.waiting[t]] in s.accepted;
    }
    forall c | c in s.closing && !Enabled(s, CloseEnd(c)) ensures exists w | w in s.closing[c] :: CanStep(s, w) {
      var w :| w in s.closing[c] && w < |s.tasks| && !s.tasks[w].phase.Exited?;
      LiveWorkerCanStep(s, w);
    }
  }

  // -- close -------------------------------------------------------------------------

  /** After `close` nothing is accepted, no worker is created, and the bus stays closed. */
  lemma ClosedAcceptsNothing(s: State, a: Action)
    requires Inv(s) && s.closed && Enabled(s, a)
    ensures var s' := Apply(s, a); s'.closed && s'.accepted == s.accepted && |s'.tasks| == |s.tasks|
  {
  }

  predicate Quiet(s: State) {
    forall w | 0 <= w < |s.tasks| :: !CanStep(s, w)
  }

  predicate AllDelivered(s: State) {
    forall e | e in s.accepted :: e.id in s.resolved
  }

  predicate AllExited(s: State) {
    forall w | 0 <= w < |s.tasks| :: s.tasks[w].phase.Exited?
  }

  lemma ExitedMeansDelivered(s: State)
    requires Inv(s) && AllExited(s)
    ensures AllDelivered(s) && s.queues == map[] == s.workers
  {
    assert s.queues == map[];
    forall e | e in s.accepted ensures e.id in s.resolved {
      if e.id !in s.resolved {
        UndeliveredIsPending(s, e);
      }
    }
  }

  /** When `close` may return, every envelope ever accepted has been delivered and
      its future resolved, every worker has exited, and clearing the two
      dictionaries changes nothing. */
  lemma CloseReturnsDrained(acts: seq<Action>, s: State, task: nat)
    requires Run(Init, acts, s) && Enabled(s, CloseEnd(task))
    ensures AllDelivered(s) && AllExited(s)
    ensures s.queues == map[] == s.workers
    ensures Apply(s, CloseEnd(task)) == s.(closing := s.closing - {task})
  {
    RunKeepsInv(Init, acts, s);
    ExitedMeansDelivered(s);
  }

  /** Closing again once everything is gone does nothing at all. */
  lemma CloseAgainIsHarmless(s: State, task: nat)
    requires Inv(s) && s.closed && AllExited(s) && Enabled(s, CloseBegin(task))
    ensures Apply(s, CloseBegin(task)) == s
  {
    ExitedMeansDelivered(s);
  }

  predicate NoNewWork(a: Action) {
    !a.Subscribe? && !a.CloseBegin?
  }

  function WorkerSteps(acts: seq<Action>): nat {
    if acts == [] then 0 else (if WorkerStep(acts[0]) then 1 else 0) + WorkerSteps(acts[1..])
  }

  lemma ClosedStepWork(s: State, a: Action)
    requires Inv(s) && s.closed && Enabled(s, a) && NoNewWork(a)
    ensures Work(Apply(s, a), 0) + (if WorkerStep(a) then 1 else 0) <= Work(s, 0)
  {
    hide Inv, TasksWork;
    if WorkerStep(a) {
      WorkerStepUsesWork(s, a, 0);
    } else if a.Remove? {
      FewerSubsLessWork(s, a.sub, 0);
    } else {
      BesideKeepsTasks(s, a);
    }
  }

  lemma BesideKeepsTasks(s: State, a: Action)
    requires Inv(s) && s.closed && Enabled(s, a) && NoNewWork(a) && !WorkerStep(a) && !a.Remove?
    ensures Apply(s, a).tasks == s.tasks && Apply(s, a).subs == s.subs
  {
  }

  /** Draining ends: after `close` the workers take at most `Work(s, 0)` further steps,
      however they interleave, and once none can step everything is delivered,
      every worker is gone, and every waiting publisher and closer can go on. */
  lemma {:induction false} CloseDrains(s: State, acts: seq<Action>, s': State)
    requires Inv(s) && s.closed && Run(s, acts, s')
    requires forall i | 0 <= i < |acts| :: NoNewWork(acts[i])
    ensures WorkerSteps(acts) + Work(s', 0) <= Work(s, 0)
    ensures Quiet(s') ==> AllDelivered(s') && AllExited(s')
    ensures Quiet(s') ==> forall t | t in s'.waiting :: Enabled(s', Resume(t))
    ensures Quiet(s') ==> forall c | c in s'.closing :: Enabled(s', CloseEnd(c))
    decreases |acts|
  {
    if acts == [] {
      if Quiet(s) {
        QuietIsDone(s);
      }
    } else {
      StepKeepsInv(s, acts[0]);
      ClosedAcceptsNothing(s, acts[0]);
      ClosedStepWork(s, acts[0]);
      CloseDrains(Apply(s, acts[0]), acts[1..], s');
    }
  }

  lemma QuietIsDone(s: State)
    requires Inv(s) && Quiet(s)
    ensures AllDelivered(s) && AllExited(s)
    ensures forall t | t in s.waiting :: Enabled(s, Resume(t))
    ensures forall c | c in s.closing :: Enabled(s, CloseEnd(c))
  {
    forall w | 0 <= w < |s.tasks| ensures s.tasks[w].phase.Exited? {
      if !s.tasks[w].phase.Exited? {
        LiveWorkerCanStep(s, w);
      }
    }
    ExitedMeansDelivered(s);
    forall t | t in s.waiting ensures Enabled(s, Resume(t)) {
      assert s.accepted[s.waiting[t]] in s.accepted;
    }
  }
}
