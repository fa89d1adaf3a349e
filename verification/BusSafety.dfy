/** Every step of the bus keeps its invariant, so every run does. */
module BusSafety {
  import opened Common
  import opened Bus

  lemma OfAppend(es: seq<Envelope>, e: Envelope, sid: string)
    ensures Of(es + [e], sid) == if e.sid == sid then Of(es, sid) + [e] else Of(es, sid)
  {
    assert (es + [e])[..|es|] == es;
  }

  lemma {:induction false} MailsAppend(q: seq<Item>, item: Item)
    ensures Mails(q + [item]) == if item.Mail? then Mails(q) + [item.env] else Mails(q)
  {
    if q == [] {
      assert q + [item] == [item];
      assert [item][1..] == [];
    } else {
      assert (q + [item])[1..] == q[1..] + [item];
      MailsAppend(q[1..], item);
    }
  }

  lemma EnvelopesAppend(ds: seq<Delivery>, d: Delivery)
    ensures Envelopes(ds + [d]) == Envelopes(ds) + [d.env]
  {
  }

  /** Behind a token there are only tokens. */
  lemma {:induction false} OnlyTokens(q: seq<Item>)
    requires TokensLast(q) && q != [] && q[0].CloseToken?
    ensures Mails(q) == []
  {
    if |q| > 1 {
      assert q[1].CloseToken?;
      OnlyTokens(q[1..]);
    }
  }

  // -- one worker changes ---------------------------------------------------------

  /** `s'` differs from `s` in the record of the live worker `w` only, as far as
      the workers go, and leaves it alive. */
  ghost predicate Touches(s: State, s': State, w: nat) {
    && w < |s.tasks| && !s.tasks[w].phase.Exited?
    && s'.queues == s.queues && s'.workers == s.workers && s'.closed == s.closed
    && |s'.tasks| == |s.tasks| && s'.tasks[w].sid == s.tasks[w].sid && !s'.tasks[w].phase.Exited?
    && forall t | 0 <= t < |s.tasks| && t != w :: s'.tasks[t] == s.tasks[t]
  }

  lemma TouchKeepsWorkers(s: State, s': State, w: nat)
    requires Inv(s) && Touches(s, s', w) && WorkerOk(s.closed, s'.tasks[w])
    ensures Registered(s') && OneWorker(s')
    ensures forall t | 0 <= t < |s'.tasks| :: WorkerOk(s'.closed, s'.tasks[t])
    ensures s'.closing == s.closing ==> Closers(s')
    ensures forall sid | sid != s.tasks[w].sid :: Pending(s', sid) == Pending(s, sid)
    ensures Pending(s', s.tasks[w].sid) == Held(s'.tasks[w])
    ensures Pending(s, s.tasks[w].sid) == Held(s.tasks[w])
  {
    forall sid | sid != s.tasks[w].sid ensures Pending(s', sid) == Pending(s, sid) {
      if sid in s.queues {
        assert s.queues[sid] != w;
      }
    }
  }

  lemma EnqueueKeeps(s: State, sid: string, kind: string)
    requires Inv(s) && !s.closed
    ensures Inv(Enqueue(s, sid, kind))
  {
    hide Registered, OneWorker, Closers, History, WorkerOk, Fifo, Pending, Enqueue;
    WorkersBehind(s, sid, kind);
    HistoryBehind(s, sid, kind);
    PendingBehind(s, sid, kind);
    EnqueueAccepts(s, sid, kind);
    AcceptedBehind(s, Enqueue(s, sid, kind), Envelope(|s.accepted|, sid, kind));
  }

  lemma EnqueueAccepts(s: State, sid: string, kind: string)
    requires Registered(s)
    ensures var s' := Enqueue(s, sid, kind);
      && s'.accepted == s.accepted + [Envelope(|s.accepted|, sid, kind)] && s'.delivered == s.delivered
      && s'.closed == s.closed
  {
  }

  lemma HistoryBehind(s: State, sid: string, kind: string)
    requires Registered(s) && History(s)
    ensures History(Enqueue(s, sid, kind))
  {
  }

  lemma WorkersBehind(s: State, sid: string, kind: string)
    requires Inv(s) && !s.closed
    ensures var s' := Enqueue(s, sid, kind);
      && Registered(s') && OneWorker(s') && Closers(s')
      && forall t | 0 <= t < |s'.tasks| :: WorkerOk(s'.closed, s'.tasks[t])
  {
    hide WorkerOk, Fifo, History, Pending, Held;
    var env := Envelope(|s.accepted|, sid, kind);
    if sid in s.queues {
      QueuedOnWorker(s, sid, env);
    } else {
      NewWorker(s, sid, env);
      assert [] + [Mail(env)] == [Mail(env)];
      assert Enqueue(s, sid, kind).tasks == s.tasks + [Worker(sid, [Mail(env)], Idle)];
    }
  }

  lemma PendingBehind(s: State, sid: string, kind: string)
    requires Inv(s) && !s.closed
    ensures var s', env := Enqueue(s, sid, kind), Envelope(|s.accepted|, sid, kind);
      Registered(s') && forall r :: Pending(s', r) == if r == sid then Pending(s, r) + [env] else Pending(s, r)
  {
    hide WorkerOk, Fifo, History, Closers, Held;
    var env := Envelope(|s.accepted|, sid, kind);
    var s' := Enqueue(s, sid, kind);
    if sid in s.queues {
      QueuedOnWorker(s, sid, env);
    } else {
      NewWorker(s, sid, env);
      assert [] + [Mail(env)] == [Mail(env)];
      assert s'.tasks == s.tasks + [Worker(sid, [Mail(env)], Idle)];
    }
  }

  /** One more envelope, accepted and pending on its session. */
  lemma AcceptedBehind(s: State, s': State, env: Envelope)
    requires Registered(s) && Registered(s') && Fifo(s)
    requires s'.accepted == s.accepted + [env] && s'.delivered == s.delivered
    requires forall r :: Pending(s', r) == if r == env.sid then Pending(s, r) + [env] else Pending(s, r)
    ensures Fifo(s')
  {
    hide Of, Envelopes, Held, Pending, Registered;
    forall r ensures Of(s'.accepted, r) == Of(Envelopes(s'.delivered), r) + Pending(s', r) {
      OfAppend(s.accepted, env, r);
      assert Of(s.accepted, r) == Of(Envelopes(s.delivered), r) + Pending(s, r);
      Regroup(Of(Envelopes(s.delivered), r), Pending(s, r), [env]);
    }
  }

  lemma QueuedOnWorker(s: State, sid: string, env: Envelope)
    requires Inv(s) && !s.closed && sid in s.queues && env.sid == sid
    ensures var w := s.queues[sid];
      var k := s.tasks[w];
      var s' := s.(tasks := s.tasks[w := k.(queue := k.queue + [Mail(env)])]);
      && Registered(s') && OneWorker(s') && Closers(s')
      && (forall t | 0 <= t < |s'.tasks| :: WorkerOk(false, s'.tasks[t]))
      && (forall r :: Pending(s', r) == if r == sid then Pending(s, r) + [env] else Pending(s, r))
  {
    var w := s.queues[sid];
    var k := s.tasks[w];
    var s' := s.(tasks := s.tasks[w := k.(queue := k.queue + [Mail(env)])]);
    MailsAppend(k.queue, Mail(env));
    TouchKeepsWorkers(s, s', w);
    assert Held(s'.tasks[w]) == Held(k) + [env];
  }

  /** A session with no worker gets one, holding just its first envelope. */
  lemma NewWorker(s: State, sid: string, env: Envelope)
    requires Inv(s) && !s.closed && sid !in s.queues && env.sid == sid
    ensures var k, t := Worker(sid, [Mail(env)], Idle), |s.tasks|;
      var s' := s.(queues := s.queues[sid := t], workers := s.workers[sid := t], tasks := s.tasks + [k]);
      && Registered(s') && OneWorker(s')
      && (forall t | 0 <= t < |s'.tasks| :: WorkerOk(false, s'.tasks[t]))
      && Closers(s')
      && (forall r :: Pending(s', r) == if r == sid then Pending(s, r) + [env] else Pending(s, r))
  {
    var k, t := Worker(sid, [Mail(env)], Idle), |s.tasks|;
    var s' := s.(queues := s.queues[sid := t], workers := s.workers[sid := t], tasks := s.tasks + [k]);
    assert [Mail(env)][1..] == [];
    assert Mails([Mail(env)]) == [env];
    assert s'.tasks[t] == k;
  }

  lemma CallDoneKeeps(s: State, w: nat)
    requires Inv(s) && Busy(s, w)
    ensures Inv(CallDone(s, w))
  {
    var s' := CallDone(s, w);
    assert s'.tasks[w].queue == s.tasks[w].queue;
    assert WellDelivered(Current(s', w));
    TouchKeepsWorkers(s, s', w);
    SamePending(s, s');
  }

  /** Worker `w`, owing nothing any more, exits and releases its session. */
  lemma ExitKeeps(s: State, s0: State, w: nat)
    requires Inv(s0)
    requires w < |s.tasks| == |s0.tasks| && s.tasks[w].sid == s0.tasks[w].sid && !s0.tasks[w].phase.Exited?
    requires s.queues == s0.queues && s.workers == s0.workers && s.closed == s0.closed && s.closing == s0.closing
    requires forall t | 0 <= t < |s.tasks| && t != w :: s.tasks[t] == s0.tasks[t]
    requires WorkerOk(s.closed, s.tasks[w].(phase := Exited))
    ensures var s' := Exit(s, w);
      && Registered(s') && OneWorker(s')
      && (forall t | 0 <= t < |s'.tasks| :: WorkerOk(s'.closed, s'.tasks[t]))
      && Closers(s')
      && (forall r :: Pending(s', r) == if r == s.tasks[w].sid then [] else Pending(s0, r))
      && Pending(s0, s.tasks[w].sid) == Held(s0.tasks[w])
  {
    var s' := Exit(s, w);
    forall r ensures Pending(s', r) == if r == s.tasks[w].sid then [] else Pending(s0, r) {
      if r in s0.queues && r != s.tasks[w].sid {
        assert s0.queues[r] != w;
      }
    }
  }

  lemma PopTokenKeeps(s: State, w: nat)
    requires Inv(s) && Enabled(s, Pop(w)) && s.tasks[w].queue[0].CloseToken?
    ensures Inv(PopItem(s, w))
  {
    var k := s.tasks[w];
    var s' := PopItem(s, w);
    OnlyTokens(k.queue);
    OnlyTokensBehind(k.queue);
    ExitKeeps(s.(tasks := s.tasks[w := k.(queue := k.queue[1..])]), s, w);
    SamePending(s, s');
  }

  lemma OnlyTokensBehind(q: seq<Item>)
    requires TokensLast(q) && q != [] && q[0].CloseToken?
    ensures TokensLast(q[1..]) && Mails(q[1..]) == [] && forall i | 0 <= i < |q| :: q[i].CloseToken?
  {
    OnlyTokens(q);
  }

  lemma PopMailKeeps(s: State, w: nat)
    requires Inv(s) && Enabled(s, Pop(w)) && s.tasks[w].queue[0].Mail?
    ensures Inv(PopItem(s, w))
  {
    var k := s.tasks[w];
    var rest := k.queue[1..];
    var s' := PopItem(s, w);
    MailAhead(s.closed, k);
    TouchKeepsWorkers(s, s', w);
    SamePending(s, s');
  }

  lemma MailAhead(closed: bool, k: Worker)
    requires WorkerOk(closed, k) && k.phase.Idle? && k.queue[0].Mail?
    ensures forall targets :: WorkerOk(closed, Worker(k.sid, k.queue[1..], Delivering(Delivery(k.queue[0].env,
        targets, []))))
    ensures Held(k) == [k.queue[0].env] + Mails(k.queue[1..])
  {
    var rest := k.queue[1..];
    assert forall i | 0 <= i < |rest| :: rest[i] == k.queue[i + 1];
  }

  /** Where what is accepted, delivered and pending is unchanged, so is the order. */
  lemma SamePending(s: State, s': State)
    requires Registered(s) && Registered(s') && Fifo(s)
    requires s'.accepted == s.accepted && s'.delivered == s.delivered
    requires forall r :: Pending(s', r) == Pending(s, r)
    ensures Fifo(s')
  {
    forall r ensures Of(s'.accepted, r) == Of(Envelopes(s'.delivered), r) + Pending(s', r) {
      assert Of(s.accepted, r) == Of(Envelopes(s.delivered), r) + Pending(s, r);
    }
  }

  lemma FinishKeeps(s: State, w: nat)
    requires Inv(s) && Enabled(s, Finish(w))
    ensures Inv(FinishDelivery(s, w))
  {
    var d, k := Current(s, w), s.tasks[w];
    var s' := FinishDelivery(s, w);
    FinishWorker(s, w);
    assert d.called == d.targets;
    FinishHistory(s, s', d);
    DeliveredInFront(s, s', d, Mails(k.queue));
  }

  /** The envelope in front of a session's pending ones is delivered. */
  lemma DeliveredInFront(s: State, s': State, d: Delivery, rest: seq<Envelope>)
    requires Registered(s) && Registered(s') && Fifo(s)
    requires s'.accepted == s.accepted && s'.delivered == s.delivered + [d]
    requires forall r | r != d.env.sid :: Pending(s', r) == Pending(s, r)
    requires Pending(s, d.env.sid) == [d.env] + rest && Pending(s', d.env.sid) == rest
    ensures Fifo(s')
  {
    hide Of, Envelopes, Held, Pending, Registered;
    EnvelopesAppend(s.delivered, d);
    forall r ensures Of(s'.accepted, r) == Of(Envelopes(s'.delivered), r) + Pending(s', r) {
      OfAppend(Envelopes(s.delivered), d.env, r);
      Regroup(Of(Envelopes(s.delivered), r), [d.env], rest);
      assert Of(s.accepted, r) == Of(Envelopes(s.delivered), r) + Pending(s, r);
    }
  }

  /** A worker that finishes goes on with its queue, or exits if that is empty. */
  lemma FinishWorker(s: State, w: nat)
    requires Inv(s) && Enabled(s, Finish(w))
    ensures var s', sid := FinishDelivery(s, w), s.tasks[w].sid;
      && Registered(s') && OneWorker(s') && Closers(s')
      && (forall t | 0 <= t < |s'.tasks| :: WorkerOk(s'.closed, s'.tasks[t]))
      && (forall r | r != sid :: Pending(s', r) == Pending(s, r))
      && Pending(s, sid) == Held(s.tasks[w]) && Pending(s', sid) == Mails(s.tasks[w].queue)
  {
    var d, k := Current(s, w), s.tasks[w];
    var t := s.(tasks := s.tasks[w := k.(phase := Idle)],
                delivered := s.delivered + [d], resolved := s.resolved + {d.env.id});
    if k.queue == [] {
      ExitKeeps(t, s, w);
    } else {
      TouchKeepsWorkers(s, t, w);
    }
  }

  lemma FinishHistory(s: State, s': State, d: Delivery)
    requires History(s) && d.called == d.targets
    requires s'.accepted == s.accepted && s'.waiting == s.waiting
    requires s'.delivered == s.delivered + [d] && s'.resolved == s.resolved + {d.env.id}
    ensures History(s')
  {
    var n := |s.delivered|;
    assert s'.delivered[n] == d;
    assert forall i | 0 <= i < n :: s'.delivered[i] == s.delivered[i];
    var ids := set i | 0 <= i < |s'.delivered| :: s'.delivered[i].env.id;
    forall x ensures x in ids <==> x in s'.resolved {
      if x in s.resolved {
        var i :| 0 <= i < n && s.delivered[i].env.id == x;
        assert s'.delivered[i].env.id == x;
      }
    }
  }

  lemma BeginCloseKeeps(s: State, task: nat)
    requires Inv(s)
    ensures Inv(BeginClose(s, task))
  {
    var s' := BeginClose(s, task);
    if s' != s {
      forall t | 0 <= t < |s.tasks|
        ensures WorkerOk(true, s'.tasks[t]) && s'.tasks[t].sid == s.tasks[t].sid
        ensures s'.tasks[t].phase == s.tasks[t].phase && Held(s'.tasks[t]) == Held(s.tasks[t])
      {
        TokenKeepsWorker(s, t);
      }
      forall c, t | c in s'.closing && 0 <= t < |s'.tasks| && !s'.tasks[t].phase.Exited? ensures t in s'.closing[c] {
        assert s.workers[s.tasks[t].sid] == t;
      }
      SamePending(s, s');
    }
  }

  lemma TokenKeepsWorker(s: State, t: nat)
    requires Inv(s) && t < |s.tasks|
    ensures WorkerOk(true, WithToken(s, t))
    ensures Held(WithToken(s, t)) == Held(s.tasks[t])
  {
    MailsAppend(s.tasks[t].queue, CloseToken);
  }

  lemma GatheredAllGone(s: State, task: nat)
    requires Inv(s) && Enabled(s, CloseEnd(task))
    ensures s.queues == map[]
  {
  }

  lemma EndCloseKeeps(s: State, task: nat)
    requires Inv(s) && Enabled(s, CloseEnd(task))
    ensures Inv(EndClose(s, task)) && s.queues == map[]
  {
    GatheredAllGone(s, task);
    SamePending(s, EndClose(s, task));
  }

  /** Whatever happens next, the invariant still holds. */
  lemma StepKeepsInv(s: State, a: Action)
    requires Inv(s) && Enabled(s, a)
    ensures Inv(Apply(s, a))
  {
    hide Inv;
    match a
    case Publish(who, sid, kind) => PublishKeeps(s, who, sid, kind);
    case Pop(w) =>
      if s.tasks[w].queue[0].Mail? {
        PopMailKeeps(s, w);
      } else {
        PopTokenKeeps(s, w);
      }
    case HandlerReturns(w) => CallDoneKeeps(s, w);
    case HandlerFails(w) =>
      CallDoneKeeps(s, w);
      if Running(s, w).source != KERNEL && !s.closed {
        EnqueueKeeps(CallDone(s, w), KERNEL, PLUGIN_ERROR);
      }
    case Finish(w) => FinishKeeps(s, w);
    case CloseBegin(t) => BeginCloseKeeps(s, t);
    case CloseEnd(t) => EndCloseKeeps(s, t);
    case _ => BesideKeeps(s, a);
  }

  lemma PublishKeeps(s: State, who: Publisher, sid: string, kind: string)
    requires Inv(s) && Enabled(s, Publish(who, sid, kind))
    ensures Inv(Accept(s, who, sid, kind))
  {
    hide Fifo, OneWorker, Closers, WorkerOk;
    if !s.closed {
      EnqueueKeeps(s, sid, kind);
      OutsideKeeps(Enqueue(s, sid, kind), Accept(s, who, sid, kind));
    }
  }

  lemma BesideKeeps(s: State, a: Action)
    requires Inv(s) && Enabled(s, a) && (a.Subscribe? || a.Remove? || a.Resume?)
    ensures Inv(Apply(s, a))
  {
    hide Fifo, OneWorker, Closers, WorkerOk;
    OutsideKeeps(s, Apply(s, a));
  }

  /** Subscriptions and suspended publishers are no concern of the workers. */
  lemma OutsideKeeps(s: State, s': State)
    requires Inv(s)
    requires s' == s.(subs := s'.subs, subCount := s'.subCount, waiting := s'.waiting)
    requires forall t | t in s'.waiting :: s'.waiting[t] < |s'.accepted|
    ensures Inv(s')
  {
    SamePending(s, s');
  }

  lemma InitInv()
    ensures Inv(Init)
  {
  }

  lemma {:induction false} RunKeepsInv(s: State, acts: seq<Action>, s': State)
    requires Inv(s) && Run(s, acts, s')
    ensures Inv(s')
    decreases |acts|
  {
    if acts != [] {
      StepKeepsInv(s, acts[0]);
      RunKeepsInv(Apply(s, acts[0]), acts[1..], s');
    }
  }
}
