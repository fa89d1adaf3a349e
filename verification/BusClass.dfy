/** The bus as the kernel keeps it: one object whose tables are updated in place,
    with one method for each atomic step. Every method takes the step of the same
    name of the machine in `Bus` and keeps its invariant. */
module BusClass {
  import opened Bus
  import opened BusSafety

  class EventBus {
    var subs: map<string, seq<Subscriber>>
    var subCount: nat
    var sessionQueues: map<string, nat>
    var sessionWorkers: map<string, nat>
    var closed: bool
    /** Every worker task ever created, with the queue object it drains. */
    var tasks: seq<Worker>
    ghost var accepted: seq<Envelope>
    ghost var delivered: seq<Delivery>
    var resolved: set<nat>
    var published: nat
    ghost var waiting: map<nat, nat>
    ghost var closing: map<nat, set<nat>>

    ghost function View(): State reads this {
      State(subs, subCount, sessionQueues, sessionWorkers, closed, tasks, accepted, delivered, resolved, waiting,
          closing)
    }

    ghost predicate Valid() reads this {
      Inv(View()) && published == |accepted|
    }

    constructor ()
      ensures Valid() && View() == Init
    {
      subs, subCount, sessionQueues, sessionWorkers, closed, tasks := map[], 0, map[], map[], false, [];
      accepted, delivered, resolved, published, waiting, closing := [], [], {}, 0, map[], map[];
    }

    method Subscribe(kind: string, source: string) returns (sub: Subscriber)
      requires Valid()
      modifies this
      ensures Valid() && View() == Apply(old(View()), Action.Subscribe(kind, source))
      ensures sub == Subscriber(old(subCount), kind, source) && kind in subs && sub in subs[kind]
    {
      hide Fifo, History, OneWorker, Closers, WorkerOk;
      sub := Subscriber(subCount, kind, source);
      subs := subs[kind := (if kind in subs then subs[kind] else []) + [sub]];
      subCount := subCount + 1;
      StepKeepsInv(old(View()), Action.Subscribe(kind, source));
    }

    method Remove(sub: Subscriber)
      requires Valid()
      modifies this
      ensures Valid() && View() == Apply(old(View()), Action.Remove(sub))
    {
      if sub.kind in subs && sub in subs[sub.kind] {
        var left := Without(subs[sub.kind], sub);
        subs := if left == [] then subs - {sub.kind} else subs[sub.kind := left];
      }
      StepKeepsInv(old(View()), Action.Remove(sub));
    }

    /** Everything `publish` does up to its one suspension point; `waits` tells
        whether it then awaits the completion future. */
    method Publish(who: Publisher, sid: string, kind: string) returns (waits: bool)
      requires Valid() && Enabled(View(), Action.Publish(who, sid, kind))
      modifies this
      ensures Valid() && View() == Apply(old(View()), Action.Publish(who, sid, kind))
      ensures waits == (!old(closed) && who.Outside?)
    {
      ghost var s := View();
      if closed {
        waits := false;
      } else {
        Put(sid, kind);
        waits := who.Outside?;
        if waits {
          waiting := waiting[who.task := |s.accepted|];
        }
      }
      StepKeepsInv(s, Action.Publish(who, sid, kind));
    }

    method EnsureWorker(sid: string) returns (t: nat)
      modifies this
      requires Registered(View())
      ensures View() == Bus.EnsureWorker(old(View()), sid)
      ensures published == old(published) && sid in sessionQueues && t == sessionQueues[sid]
    {
      if sid in sessionQueues {
        return sessionQueues[sid];
      }
      t := |tasks|;
      sessionQueues := sessionQueues[sid := t];
      sessionWorkers := sessionWorkers[sid := t];
      tasks := tasks + [Worker(sid, [], Idle)];
    }

    method Put(sid: string, kind: string)
      modifies this
      requires Registered(View()) && published == |accepted|
      ensures View() == Enqueue(old(View()), sid, kind) && published == |accepted|
    {
      var t := EnsureWorker(sid);
      var env := Envelope(published, sid, kind);
      tasks := tasks[t := tasks[t].(queue := tasks[t].queue + [Mail(env)])];
      published := published + 1;
      accepted := accepted + [env];
    }

    method Release(w: nat)
      modifies this
      requires w < |tasks|
      ensures View() == Exit(old(View()), w) && published == old(published)
    {
      var sid := tasks[w].sid;
      tasks := tasks[w := tasks[w].(phase := Exited)];
      if sid in sessionQueues && sessionQueues[sid] == w {
        sessionQueues := sessionQueues - {sid};
        sessionWorkers := sessionWorkers - {sid};
      }
    }

    /** The worker's `queue.get()` returns. */
    method Pop(w: nat)
      requires Valid() && Enabled(View(), Action.Pop(w))
      modifies this
      ensures Valid() && View() == Apply(old(View()), Action.Pop(w))
    {
      var item := tasks[w].queue[0];
      tasks := tasks[w := tasks[w].(queue := tasks[w].queue[1..])];
      if item.CloseToken? {
        Release(w);
      } else {
        var env := item.env;
        var targets := if env.kind in subs then subs[env.kind] else [];
        tasks := tasks[w := tasks[w].(phase := Delivering(Delivery(env, targets, [])))];
      }
      StepKeepsInv(old(View()), Action.Pop(w));
    }

    method HandlerReturns(w: nat)
      requires Valid() && Enabled(View(), Action.HandlerReturns(w))
      modifies this
      ensures Valid() && View() == Apply(old(View()), Action.HandlerReturns(w))
    {
      var d := tasks[w].phase.d;
      tasks := tasks[w := tasks[w].(phase := Delivering(d.(called := d.called + [d.targets[|d.called|]])))];
      StepKeepsInv(old(View()), Action.HandlerReturns(w));
    }

    /** The handler raised or timed out: report it and go on to the next one. */
    method HandlerFails(w: nat)
      requires Valid() && Enabled(View(), Action.HandlerFails(w))
      modifies this
      ensures Valid() && View() == Apply(old(View()), Action.HandlerFails(w))
    {
      ghost var s := View();
      var d := tasks[w].phase.d;
      var sub := d.targets[|d.called|];
      tasks := tasks[w := tasks[w].(phase := Delivering(d.(called := d.called + [sub])))];
      CallDoneKeeps(s, w);
      if sub.source != KERNEL && !closed {
        Put(KERNEL, PLUGIN_ERROR);
      }
      StepKeepsInv(s, Action.HandlerFails(w));
    }

    method Finish(w: nat)
      requires Valid() && Enabled(View(), Action.Finish(w))
      modifies this
      ensures Valid() && View() == Apply(old(View()), Action.Finish(w))
    {
      hide Fifo, History, OneWorker, Closers, WorkerOk;
      var d := tasks[w].phase.d;
      resolved := resolved + {d.env.id};
      delivered := delivered + [d];
      tasks := tasks[w := tasks[w].(phase := Idle)];
      if tasks[w].queue == [] {
        Release(w);
      }
      StepKeepsInv(old(View()), Action.Finish(w));
    }

    /** `close` up to the point where it awaits the workers. */
    method CloseBegin(task: nat)
      requires Valid() && Enabled(View(), Action.CloseBegin(task))
      modifies this
      ensures Valid() && View() == Apply(old(View()), Action.CloseBegin(task))
    {
      ghost var s := View();
      if !(closed && sessionWorkers == map[]) {
        closed := true;
        var gathered := sessionWorkers.Values;
        PutTokens();
        closing := closing[task := gathered];
        assert View().tasks == Apply(s, Action.CloseBegin(task)).tasks;
      }
      StepKeepsInv(s, Action.CloseBegin(task));
    }

    /** One token into every registered queue. */
    method PutTokens()
      requires Registered(View())
      modifies this`tasks
      ensures |tasks| == |old(tasks)|
      ensures forall i | 0 <= i < |tasks| :: tasks[i] == WithToken(old(View()), i)
    {
      ghost var s := View();
      var todo := sessionQueues.Keys;
      while todo != {}
        invariant todo <= sessionQueues.Keys && |tasks| == |s.tasks|
        invariant forall i | 0 <= i < |tasks| ::
          tasks[i] == if s.tasks[i].sid in todo then s.tasks[i] else WithToken(s, i)
        decreases todo
      {
        var sid :| sid in todo;
        todo := todo - {sid};
        var t := sessionQueues[sid];
        tasks := tasks[t := tasks[t].(queue := tasks[t].queue + [CloseToken])];
      }
    }

    /** Every gathered worker has exited: `close` clears the tables and returns. */
    method CloseEnd(task: nat)
      requires Valid() && Enabled(View(), Action.CloseEnd(task))
      modifies this
      ensures Valid() && View() == Apply(old(View()), Action.CloseEnd(task))
    {
      sessionQueues := map[];
      sessionWorkers := map[];
      closing := closing - {task};
      StepKeepsInv(old(View()), Action.CloseEnd(task));
    }
  }
}
