/** The session context as one object: registry, heartbeats and connections updated in
    place, one method for each stretch of code between two awaits. */
module SessionContextClass {
  import opened Common
  import opened SessionFanout
  import opened SessionFanoutTheorems
  import opened SessionSweeps

  datatype AttachResult = Accepted | Closed | AtLimit

  class SessionContext {
    const maxConnections: nat
    const heartbeatTimeout: int
    /** The session's tape, grown by its writers. */
    var tape: seq<int>
    /** The registry, in insertion order, and every connection ever handed out. */
    var registered: seq<string>
    var connections: map<string, Conn>
    var lastSeen: map<string, int>
    var closed: bool
    /** The fanout under way, and how many have begun. */
    var fan: Fan
    var begun: nat
    /** The sweep and the `close` under way. */
    var sweep: Sweep
    var closing: Closing
    ghost var log: seq<Life>

    ghost function View(): State reads this {
      State(maxConnections, tape, connections, registered, closed, fan, begun, lastSeen, sweep, closing, log)
    }

    ghost predicate Valid() reads this {
      Inv(View()) && LogOk(View()) && WatchOk(View())
    }

    constructor (cap: nat, timeout: int)
      ensures Valid() && View() == Init(cap) && heartbeatTimeout == timeout
    {
      maxConnections, heartbeatTimeout := cap, timeout;
      tape, registered, connections, lastSeen, closed := [], [], map[], map[], false;
      fan, begun, sweep, closing, log := NoFan, 0, NoSweep, NotClosing, [];
    }

    method Attach(id: string, since: Since, now: int) returns (r: AttachResult)
      requires Valid() && id !in connections
      modifies this
      ensures Valid() && View() == Apply(old(View()), Action.Attach(id, since, now))
      ensures r == if closed then Closed else if |old(registered)| >= maxConnections then AtLimit else Accepted
      ensures r.Accepted? ==> id in registered && lastSeen == old(lastSeen)[id := now]
      ensures !r.Accepted? ==> registered == old(registered) && connections == old(connections)
    {
      hide Inv, LogOk, WatchOk;
      Steps(View(), Action.Attach(id, since, now));
      if closed { return Closed; }
      if |registered| >= maxConnections { return AtLimit; }
      registered := registered + [id];
      lastSeen := lastSeen[id := now];
      connections := connections[id := Conn(since, if since.After? then Reading else Open, [], begun, [], [])];
      if since.Never? {
        log := log + [Attached(id)];
      }
      r := Accepted;
    }

    method Heartbeat(id: string, now: int) returns (known: bool)
      requires Valid()
      modifies this
      ensures Valid() && View() == Apply(old(View()), Action.Heartbeat(id, now))
      ensures known == (id in registered) && (known ==> lastSeen[id] == now)
    {
      hide Inv, LogOk, WatchOk;
      Steps(View(), Action.Heartbeat(id, now));
      if id !in registered { return false; }
      lastSeen := lastSeen[id := now];
      known := true;
    }

    method DetachOne(id: string) returns (known: bool)
      requires Valid()
      modifies this
      ensures Valid() && View() == Apply(old(View()), Detach(id))
      ensures known == (id in old(registered)) && id !in registered
    {
      hide Inv, LogOk, WatchOk;
      Steps(View(), Detach(id));
      if id !in registered { return false; }
      WithoutFacts(registered, id);
      registered := Without(registered, id);
      log := log + [Detached(id)];
      known := true;
    }

    /** A sweep up to its first await: it lists those silent since before the deadline. */
    method ReapUntilAwait(now: int)
      requires Valid() && sweep.NoSweep?
      modifies this
      ensures Valid() && View() == Apply(old(View()), ReapBegin(now - heartbeatTimeout))
      ensures !closed ==> sweep.Sweep? && forall id :: id in sweep.todo <==>
        id in registered && id in lastSeen && lastSeen[id] < now - heartbeatTimeout
    {
      hide Inv, LogOk, WatchOk, Silent;
      var deadline := now - heartbeatTimeout;
      Steps(View(), ReapBegin(deadline));
      SilentIs(registered, lastSeen, deadline);
      if closed { return; }
      var silent := SilentConnections(deadline);
      sweep := Sweep(deadline, silent, silent);
    }

    method SilentConnections(deadline: int) returns (silent: seq<string>)
      ensures silent == Silent(registered, lastSeen, deadline)
    {
      silent := [];
      Prefixes(registered, 0);
      for i := 0 to |registered|
        invariant silent == Silent(registered[..i], lastSeen, deadline)
      {
        Prefixes(registered, i);
        assert registered[..i + 1][..i] == registered[..i];
        var id := registered[i];
        if id in lastSeen && lastSeen[id] < deadline {
          silent := silent + [id];
        }
      }
    }

    /** One detach of the sweep. */
    method ReapOne()
      requires Valid() && Enabled(View(), ReapNext)
      modifies this
      ensures Valid() && View() == Apply(old(View()), ReapNext)
      ensures old(sweep).todo[0] !in registered
    {
      hide Inv, LogOk, WatchOk;
      ReapNextKeeps(View());
      Steps(View(), ReapNext);
      var id := sweep.todo[0];
      if id in registered {
        registered := Without(registered, id);
        log := log + [Detached(id)];
      }
      sweep := sweep.(todo := sweep.todo[1..]);
    }

    method ReapOver()
      requires Valid() && Enabled(View(), ReapEnd)
      modifies this
      ensures Valid() && View() == Apply(old(View()), ReapEnd)
    {
      hide Inv, LogOk, WatchOk;
      Steps(View(), ReapEnd);
      sweep := NoSweep;
    }

    method ReplayRead(id: string)
      requires Valid() && Enabled(View(), ReadTape(id))
      modifies this
      ensures Valid() && View() == Apply(old(View()), ReadTape(id))
    {
      hide Inv, LogOk, WatchOk;
      Steps(View(), ReadTape(id));
      var c := connections[id];
      var missed := MissedEntries(c.since.id);
      connections := connections[id := c.(phase := Replaying(0), missed := missed)];
    }

    method MissedEntries(since: int) returns (missed: seq<int>)
      ensures missed == Above(tape, since)
    {
      missed := [];
      Prefixes(tape, 0);
      for i := 0 to |tape|
        invariant missed == Above(tape[..i], since)
      {
        Prefixes(tape, i);
        assert tape[..i + 1][..i] == tape[..i];
        if tape[i] > since {
          missed := missed + [tape[i]];
        }
      }
    }

    /** One send of the replay, `delivered` saying whether the callback raised. */
    method ReplaySend(id: string, delivered: bool)
      requires Valid() && Enabled(View(), ReplayNext(id, delivered))
      modifies this
      ensures Valid() && View() == Apply(old(View()), ReplayNext(id, delivered))
      ensures !delivered ==> id !in registered && connections[id].sent == old(connections[id].sent)
      ensures !delivered ==> log == old(log) + [Detached(id)]
    {
      hide Inv, LogOk, WatchOk;
      Steps(View(), ReplayNext(id, delivered));
      var c := connections[id];
      var k := c.phase.k;
      if !delivered {
        WithoutFacts(registered, id);
        registered := Without(registered, id);
        log := log + [Detached(id)];
        connections := connections[id := c.(phase := Failing(k))];
        return;
      }
      if k < |c.missed| {
        connections := connections[id := c.(phase := Replaying(k + 1), sent := c.sent + [Entry(c.missed[k])])];
      } else {
        connections := connections[id := c.(phase := Open, sent := c.sent + [Done(|c.missed|)])];
        log := log + [Attached(id)];
      }
    }

    method ReplayGiveUp(id: string)
      requires Valid() && Enabled(View(), LeaveReplay(id))
      modifies this
      ensures Valid() && View() == Apply(old(View()), LeaveReplay(id))
    {
      hide Inv, LogOk, WatchOk;
      Steps(View(), LeaveReplay(id));
      connections := connections[id := connections[id].(phase := Failed(connections[id].phase.k))];
    }

    method FanoutBegin()
      requires Valid() && fan.NoFan?
      modifies this
      ensures Valid() && View() == Apply(old(View()), FanBegin)
    {
      hide Inv, LogOk, WatchOk;
      Steps(View(), FanBegin);
      if closed { return; }
      fan := Fan(begun, registered, Picking);
      begun := begun + 1;
    }

    /** Up to the lock of the next connection still registered. */
    method FanoutNext() returns (id: string, skipped: bool)
      requires Valid() && Enabled(View(), FanPick)
      modifies this
      ensures Valid() && View() == Apply(old(View()), FanPick)
      ensures id == old(fan).todo[0] && skipped == (id !in registered)
    {
      hide Inv, LogOk, WatchOk;
      Steps(View(), FanPick);
      id := fan.todo[0];
      skipped := id !in registered;
      fan := if skipped then Fan(fan.event, fan.todo[1..], Picking) else fan.(stage := Waiting);
    }

    method FanoutLocked()
      requires Valid() && Enabled(View(), FanLock)
      modifies this
      ensures Valid() && View() == Apply(old(View()), FanLock)
    {
      hide Inv, LogOk, WatchOk;
      Steps(View(), FanLock);
      fan := fan.(stage := Sending);
    }

    method FanoutSent(delivered: bool)
      requires Valid() && Enabled(View(), FanSend(delivered))
      modifies this
      ensures Valid() && View() == Apply(old(View()), FanSend(delivered))
    {
      hide Inv, LogOk, WatchOk;
      Steps(View(), FanSend(delivered));
      var id, n := fan.todo[0], fan.event;
      if delivered {
        var c := connections[id];
        connections := connections[id := c.(live := c.live + [n], sent := c.sent + [Live(n)])];
      } else if id in registered {
        registered := Without(registered, id);
        log := log + [Detached(id)];
      }
      fan := Fan(n, fan.todo[1..], Picking);
    }

    method FanoutOver(cut: bool)
      requires Valid() && fan.Fan? && (!cut ==> fan.todo == [])
      modifies this
      ensures Valid() && View() == Apply(old(View()), if cut then FanAbort else FanEnd)
    {
      hide Inv, LogOk, WatchOk;
      Steps(View(), if cut then FanAbort else FanEnd);
      fan := NoFan;
    }

    /** `close` up to the end of the sweeper: nobody can attach any more. */
    method CloseUntilAwait() returns (first: bool)
      requires Valid()
      modifies this
      ensures Valid() && View() == Apply(old(View()), Action.Close)
      ensures first == !old(closed) && closed
    {
      hide Inv, LogOk, WatchOk;
      Steps(View(), Action.Close);
      if closed { return false; }
      closed, sweep, closing := true, NoSweep, Awaiting;
      first := true;
    }

    /** Behind it: everybody registered by now is to be detached. */
    method CloseGather()
      requires Valid() && Enabled(View(), CloseList)
      modifies this
      ensures Valid() && View() == Apply(old(View()), CloseList)
    {
      hide Inv, LogOk, WatchOk;
      Steps(View(), CloseList);
      closing := Leaving(registered);
    }

    method CloseOne()
      requires Valid() && Enabled(View(), CloseNext)
      modifies this
      ensures Valid() && View() == Apply(old(View()), CloseNext)
    {
      hide Inv, LogOk, WatchOk;
      Steps(View(), CloseNext);
      var id := closing.todo[0];
      if id in registered {
        registered := Without(registered, id);
        log := log + [Detached(id)];
      }
      closing := Leaving(closing.todo[1..]);
    }

    method CloseOver()
      requires Valid() && Enabled(View(), CloseEnd)
      modifies this
      ensures Valid() && View() == Apply(old(View()), CloseEnd) && registered == []
    {
      hide Inv, LogOk;
      Steps(View(), CloseEnd);
      closing := Emptied;
    }

    /** Cancelled while its replay runs, or the tape could not be read. */
    method AttachAborted(id: string)
      requires Valid() && Enabled(View(), AbortAttach(id))
      modifies this
      ensures Valid() && View() == Apply(old(View()), AbortAttach(id))
      ensures registered == old(registered) && connections[id].sent == old(connections[id].sent)
    {
      hide Inv, LogOk, WatchOk;
      Steps(View(), AbortAttach(id));
      var c := connections[id];
      connections := connections[id := c.(phase := Aborted(if c.phase.Reading? then 0 else c.phase.k))];
    }
  }

  lemma Steps(s: State, a: Action)
    requires Inv(s) && LogOk(s) && WatchOk(s) && Enabled(s, a)
    ensures Inv(Apply(s, a)) && LogOk(Apply(s, a)) && WatchOk(Apply(s, a))
  {
    hide Inv, LogOk, WatchOk;
    StepKeepsInv(s, a);
    StepKeepsLog(s, a);
    StepKeepsWatch(s, a);
  }
}
