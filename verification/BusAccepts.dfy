/** What the bus takes in, who waits for it, and what `close` does about it: from the actions
    of a run, one step at a time in every state a run can reach. */
module BusAccepts {
  import opened Bus
  import opened BusSafety
  import opened BusProgress

  // -- closing ------------------------------------------------------------------------------

  predicate Closes(acts: seq<Action>) {
    exists i :: 0 <= i < |acts| && acts[i].CloseBegin?
  }

  lemma ExitStaysOpen(s: State, w: nat)
    requires w < |s.tasks|
    ensures Exit(s, w).closed == s.closed
  {
  }

  lemma EnqueueStaysOpen(s: State, sid: string, kind: string)
    requires Registered(s)
    ensures Enqueue(s, sid, kind).closed == s.closed
  {
  }

  lemma PopStaysOpen(s: State, w: nat)
    requires Enabled(s, Pop(w))
    ensures PopItem(s, w).closed == s.closed
  {
    hide Targets, Exit;
    var k := s.tasks[w];
    ExitStaysOpen(s.(tasks := s.tasks[w := k.(queue := k.queue[1..])]), w);
  }

  lemma FinishStaysOpen(s: State, w: nat)
    requires Enabled(s, Finish(w))
    ensures FinishDelivery(s, w).closed == s.closed
  {
  }

  lemma CloseStep(s: State, a: Action)
    requires Inv(s) && Registered(s) && Enabled(s, a)
    ensures Apply(s, a).closed <==> s.closed || a.CloseBegin?
  {
    hide Inv, Registered, Enqueue, PopItem, FinishDelivery, WithToken, RemoveSub;
    if a.Publish? { EnqueueStaysOpen(s, a.sid, a.kind); }
    else if a.Remove? { RemoveStaysOpen(s, a.sub); }
    else if a.Pop? { PopStaysOpen(s, a.w); }
    else if a.Finish? { FinishStaysOpen(s, a.w); }
    else if a.HandlerFails? {
      CallDoneKeeps(s, a.w);
      InvRegistered(CallDone(s, a.w));
      EnqueueStaysOpen(CallDone(s, a.w), KERNEL, PLUGIN_ERROR);
    }
  }

  lemma RemoveStaysOpen(s: State, sub: Subscriber)
    ensures RemoveSub(s, sub).closed == s.closed
  {
  }

  lemma ClosesFirst(acts: seq<Action>)
    requires acts != []
    ensures Closes(acts) <==> acts[0].CloseBegin? || Closes(acts[1..])
  {
    if i :| 0 <= i < |acts| - 1 && acts[1..][i].CloseBegin? {
      assert acts[i + 1].CloseBegin?;
    }
    if i :| 0 < i < |acts| && acts[i].CloseBegin? {
      assert acts[1..][i - 1].CloseBegin?;
    }
  }

  lemma {:induction false} ClosedRun(s: State, acts: seq<Action>, s': State)
    requires Inv(s) && Run(s, acts, s')
    ensures s'.closed <==> s.closed || Closes(acts)
    decreases |acts|
  {
    hide Inv, Apply, Enabled, Registered, Closes;
    if acts != [] {
      StepKeepsInv(s, acts[0]);
      CloseStep(s, acts[0]);
      ClosesFirst(acts);
      ClosedRun(Apply(s, acts[0]), acts[1..], s');
    } else {
      NothingCloses();
    }
  }

  lemma NothingCloses()
    ensures !Closes([])
  {
  }

  /** Over every run: the bus is closed exactly if somebody has begun to close it. */
  lemma ClosedIff(acts: seq<Action>, s: State)
    requires Run(Init, acts, s)
    ensures s.closed <==> exists i :: 0 <= i < |acts| && acts[i].CloseBegin?
  {
    InitInv();
    ClosedRun(Init, acts, s);
  }

  // -- what is accepted -----------------------------------------------------------------------

  lemma EnqueueIs(s: State, sid: string, kind: string)
    requires Registered(s)
    ensures Enqueue(s, sid, kind).accepted == s.accepted + [Envelope(|s.accepted|, sid, kind)]
    ensures Enqueue(s, sid, kind).waiting == s.waiting
  {
  }

  lemma FailedIs(s: State, w: nat)
    requires Inv(s) && Registered(s) && Busy(s, w)
    ensures CallFailed(s, w).accepted ==
      if Running(s, w).source == "kernel" || s.closed then s.accepted
      else s.accepted + [Envelope(|s.accepted|, "kernel", "plugin.error")]
    ensures CallFailed(s, w).waiting == s.waiting
  {
    hide Inv, Registered, Enqueue;
    CallDoneKeeps(s, w);
    InvRegistered(CallDone(s, w));
    EnqueueIs(CallDone(s, w), KERNEL, PLUGIN_ERROR);
  }

  lemma QuietStep(s: State, a: Action)
    requires Inv(s) && Registered(s) && Enabled(s, a) && !a.Publish? && !a.HandlerFails?
    ensures Apply(s, a).accepted == s.accepted
    ensures Apply(s, a).waiting == if a.Resume? then s.waiting - {a.task} else s.waiting
  {
    hide Inv, Registered, PopItem, FinishDelivery, WithToken, RemoveSub;
    if a.Remove? { RemoveAccepts(s, a.sub); }
    else if a.Pop? { PopAccepts(s, a.w); }
    else if a.Finish? { FinishAccepts(s, a.w); }
  }

  lemma RemoveAccepts(s: State, sub: Subscriber)
    ensures RemoveSub(s, sub).accepted == s.accepted && RemoveSub(s, sub).waiting == s.waiting
  {
  }

  lemma ExitAccepts(s: State, w: nat)
    requires w < |s.tasks|
    ensures Exit(s, w).accepted == s.accepted && Exit(s, w).waiting == s.waiting
  {
  }

  lemma PopAccepts(s: State, w: nat)
    requires Enabled(s, Pop(w))
    ensures PopItem(s, w).accepted == s.accepted && PopItem(s, w).waiting == s.waiting
  {
    hide Targets, Exit;
    var k := s.tasks[w];
    ExitAccepts(s.(tasks := s.tasks[w := k.(queue := k.queue[1..])]), w);
  }

  lemma FinishAccepts(s: State, w: nat)
    requires Enabled(s, Finish(w))
    ensures FinishDelivery(s, w).accepted == s.accepted && FinishDelivery(s, w).waiting == s.waiting
  {
  }

  /** In every reachable state: a publish is accepted, with the next number and its own
      session and kind, unless the bus is closed; a failing handler is reported as
      `plugin.error` on the session `kernel` unless it is the kernel's own or the bus is
      closed; nothing else is accepted. */
  lemma AcceptsExactly(s: State, a: Action)
    requires Inv(s) && Registered(s) && Enabled(s, a)
    ensures var n := |s.accepted|;
      Apply(s, a).accepted == s.accepted +
        if a.Publish? && !s.closed then [Envelope(n, a.sid, a.kind)]
        else if a.HandlerFails? && !s.closed && Running(s, a.w).source != "kernel"
        then [Envelope(n, "kernel", "plugin.error")]
        else []
  {
    hide Inv, Registered, Enqueue, CallFailed;
    assert s.accepted + [] == s.accepted;
    if a.Publish? {
      EnqueueIs(s, a.sid, a.kind);
    } else if a.HandlerFails? {
      FailedIs(s, a.w);
    } else {
      QuietStep(s, a);
    }
  }

  // -- who waits --------------------------------------------------------------------------------

  /** In every reachable state: a publisher outside the workers waits, on an open bus, for
      the very envelope it published and goes on only when that is delivered; nobody else's
      step makes it wait or lets it go. */
  lemma WaitsForItsOwn(s: State, a: Action, task: nat)
    requires Inv(s) && Registered(s) && Enabled(s, a)
    ensures var t := Apply(s, a);
      && (task in t.waiting <==>
            (task in s.waiting && a != Resume(task)) || (a.Publish? && a.who == Outside(task) && !s.closed))
      && (a.Publish? && a.who == Outside(task) && !s.closed ==>
            t.waiting[task] == |s.accepted| && t.accepted[|s.accepted|] == Envelope(|s.accepted|, a.sid, a.kind))
      && (task in s.waiting && task in t.waiting ==> t.waiting[task] == s.waiting[task])
      && (a == Resume(task) ==> s.waiting[task] in s.resolved)
  {
    hide Inv, Registered, Enqueue, CallFailed;
    if a.Publish? {
      EnqueueIs(s, a.sid, a.kind);
    } else if a.HandlerFails? {
      FailedIs(s, a.w);
    } else {
      QuietStep(s, a);
    }
  }

  /** Nobody is kept out: subscribing, unsubscribing and publishing are possible at any time,
      for a task outside the workers unless it is waiting itself, and so is closing. */
  lemma NobodyIsKeptOut(s: State, kind: string, source: string, sid: string, sub: Subscriber, task: nat, w: nat)
    ensures Enabled(s, Subscribe(kind, source)) && Enabled(s, Remove(sub)) && Enabled(s, Publish(Spawned, sid, kind))
    ensures task !in s.waiting && task !in s.closing ==>
      Enabled(s, Publish(Outside(task), sid, kind)) && Enabled(s, CloseBegin(task))
    ensures Busy(s, w) ==>
      Enabled(s, Publish(Handler(w), sid, kind)) && Enabled(s, HandlerReturns(w)) && Enabled(s, HandlerFails(w))
  {
  }

  /** A caller of `close` waits for all workers alive, except when the bus is closed and
      drained already, in any reachable state. */
  lemma CloseWaits(s: State, task: nat)
    requires Inv(s) && Registered(s) && Enabled(s, CloseBegin(task))
    ensures var t := Apply(s, CloseBegin(task));
      && t.closed
      && (task !in t.closing ==> s.closed && t == s && forall w | 0 <= w < |s.tasks| :: s.tasks[w].phase.Exited?)
      && (task in t.closing ==>
            forall w :: w in t.closing[task] <==> 0 <= w < |s.tasks| && !s.tasks[w].phase.Exited?)
  {
    var t := Apply(s, CloseBegin(task));
    assert OneWorker(s);
    if task in t.closing {
      forall w ensures w in t.closing[task] <==> 0 <= w < |s.tasks| && !s.tasks[w].phase.Exited? {
        if 0 <= w < |s.tasks| && !s.tasks[w].phase.Exited? {
          assert s.workers[s.tasks[w].sid] == w;
        }
      }
    }
  }
}
