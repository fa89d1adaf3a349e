/** What a sweep and a `close` do to the registry while heartbeats, replays, fanouts and
    other detaches go on between their steps. */
module SessionSweeps {
  import opened SessionFanout
  import opened SessionFanoutTheorems

  lemma {:induction false} SilentIs(ids: seq<string>, lastSeen: map<string, int>, deadline: int)
    ensures forall x :: x in Silent(ids, lastSeen, deadline) <==> x in ids && x in lastSeen && lastSeen[x] < deadline
  {
    if ids != [] {
      var n := |ids| - 1;
      SilentIs(ids[..n], lastSeen, deadline);
      assert ids == ids[..n] + [ids[n]];
    }
  }

  /** A listed connection is still to be dropped or off the registry; the list of `close`
      holds everybody registered. */
  ghost predicate WatchOk(s: State) {
    && (forall x | x in s.registered :: x in s.lastSeen)
    && (s.sweep.Sweep? ==> !s.closed && forall x | x in s.sweep.listed ::
          x in s.conns && (x in s.sweep.todo || x !in s.registered))
    && (s.sweep.Sweep? ==> forall x | x in s.sweep.todo :: x in s.sweep.listed)
    && (s.closing.NotClosing? <==> !s.closed)
    && (s.closing.Leaving? ==> forall x | x in s.registered :: x in s.closing.todo)
    && (s.closing.Emptied? ==> s.registered == [])
  }

  /** Steps that let nobody onto the registry and leave sweep and `close` where they were. */
  lemma SameWatch(s: State, t: State)
    requires WatchOk(s) && t.sweep == s.sweep && t.closing == s.closing && t.closed == s.closed
    requires forall x | x in t.registered :: x in s.registered
    requires forall x | x in s.conns :: x in t.conns
    requires forall x | x in s.lastSeen :: x in t.lastSeen
    ensures WatchOk(t)
  {
    if t.registered != [] {
      assert t.registered[0] in s.registered;
    }
  }

  lemma FirstAndRest(ids: seq<string>)
    requires ids != []
    ensures forall x :: x in ids <==> x == ids[0] || x in ids[1..]
  {
    assert ids == [ids[0]] + ids[1..];
  }

  lemma ReapNextKeeps(s: State)
    requires WatchOk(s) && Enabled(s, ReapNext)
    ensures WatchOk(Apply(s, ReapNext)) && s.sweep.todo[0] !in Apply(s, ReapNext).registered
  {
    var id := s.sweep.todo[0];
    WithoutFacts(s.registered, id);
    FirstAndRest(s.sweep.todo);
    SameWatch(s, Drop(s, id));
  }

  lemma CloseNextKeeps(s: State)
    requires WatchOk(s) && Enabled(s, CloseNext)
    ensures WatchOk(Apply(s, CloseNext))
  {
    var id := s.closing.todo[0];
    WithoutFacts(s.registered, id);
    FirstAndRest(s.closing.todo);
    SameWatch(s, Drop(s, id));
  }

  lemma AttachKeepsWatch(s: State, id: string, since: Since, now: int)
    requires WatchOk(s) && id !in s.conns
    ensures WatchOk(AttachStep(s, id, since, now))
  {
  }

  /** What begins or ends a sweep or a `close`. */
  lemma TurnKeepsWatch(s: State, a: Action)
    requires Inv(s) && WatchOk(s) && Enabled(s, a)
    requires a.ReapBegin? || a.ReapEnd? || a.Close? || a.CloseList? || a.CloseEnd?
    ensures WatchOk(Apply(s, a))
  {
    hide Inv, Silent;
    if a.ReapBegin? {
      SilentIs(s.registered, s.lastSeen, a.deadline);
      forall x | x in s.registered ensures x in s.conns {
        RegisteredIsKnown(s, x);
      }
    } else {
      assert s.registered != [] ==> s.registered[0] in s.registered;
    }
  }

  lemma StepKeepsWatch(s: State, a: Action)
    requires Inv(s) && WatchOk(s) && Enabled(s, a)
    ensures WatchOk(Apply(s, a))
  {
    hide Inv, WatchOk, Above, Without, Silent;
    if a.ReapNext? { ReapNextKeeps(s); }
    else if a.CloseNext? { CloseNextKeeps(s); }
    else if a.Attach? { AttachKeepsWatch(s, a.id, a.since, a.now); }
    else if a.ReapBegin? || a.ReapEnd? || a.Close? || a.CloseList? || a.CloseEnd? { TurnKeepsWatch(s, a); }
    else {
      RegistryStep(s, a);
      SameWatch(s, Apply(s, a));
    }
  }

  lemma {:induction false} RunKeepsWatch(s: State, acts: seq<Action>)
    requires Inv(s) && WatchOk(s) && Allowed(s, acts)
    ensures Inv(Run(s, acts)) && WatchOk(Run(s, acts))
    decreases |acts|
  {
    hide Inv, WatchOk, Apply, Enabled;
    if acts != [] {
      StepKeepsInv(s, acts[0]);
      StepKeepsWatch(s, acts[0]);
      RunKeepsWatch(Apply(s, acts[0]), acts[1..]);
    }
  }

  /** Over every run: a sweep lists exactly the connections silent since before its
      deadline, and when it is through all of them are off the registry. */
  lemma SweepDrops(cap: nat, acts: seq<Action>, deadline: int)
    requires Allowed(Init(cap), acts)
    ensures var t := Run(Init(cap), acts);
      && (t.sweep.Sweep? && t.sweep.todo == [] ==> forall x | x in t.sweep.listed :: Gone(t, x))
      && (t.sweep.NoSweep? && !t.closed ==> var u := Apply(t, ReapBegin(deadline));
            forall x :: x in u.sweep.listed <==> x in t.registered && x in t.lastSeen && t.lastSeen[x] < deadline)
  {
    hide Run, Allowed, Silent, Inv;
    InitInv(cap);
    RunKeepsWatch(Init(cap), acts);
    var t := Run(Init(cap), acts);
    SilentIs(t.registered, t.lastSeen, deadline);
  }

  /** And over every run: once `close` has returned nobody is registered any more, and
      nobody will be. */
  lemma CloseEmptiesTheRegistry(cap: nat, acts: seq<Action>)
    requires Allowed(Init(cap), acts)
    ensures var t := Run(Init(cap), acts);
      t.closing.Emptied? || (t.closing.Leaving? && t.closing.todo == []) ==> t.registered == []
  {
    hide Run, Allowed, Inv;
    InitInv(cap);
    RunKeepsWatch(Init(cap), acts);
    var t := Run(Init(cap), acts);
    assert t.registered != [] ==> t.registered[0] in t.registered;
  }

  // -- heartbeats during a sweep ------------------------------------------------------------------

  /** The connections whose latest heartbeat since the sweep began was read at its deadline
      or later. */
  function Hear(s: State, a: Action, heard: set<string>): set<string> {
    match a
    case ReapBegin(_) => {}
    case Heartbeat(id, now) =>
      if s.sweep.Sweep? && id in s.registered
      then (if now >= s.sweep.deadline then heard + {id} else heard - {id})
      else heard
    case _ => heard
  }

  function Heard(s: State, acts: seq<Action>, heard: set<string>): set<string>
    requires Allowed(s, acts)
    decreases |acts|
  {
    if acts == [] then heard else Heard(Apply(s, acts[0]), acts[1..], Hear(s, acts[0], heard))
  }

  ghost predicate HeardOk(s: State, heard: set<string>) {
    s.sweep.Sweep? ==> forall x | x in s.sweep.listed && x in s.registered ::
      x in s.lastSeen && (s.lastSeen[x] >= s.sweep.deadline <==> x in heard)
  }

  predicate SameSweep(s: State, t: State) {
    s.sweep.Sweep? && t.sweep.Sweep? && t.sweep.deadline == s.sweep.deadline && t.sweep.listed == s.sweep.listed
  }

  lemma SameHeard(s: State, t: State, heard: set<string>)
    requires HeardOk(s, heard) && (t.sweep.Sweep? ==> SameSweep(s, t))
    requires forall x | x in t.registered && x in s.conns :: x in s.registered
    requires s.sweep.Sweep? ==> forall x | x in s.sweep.listed :: x in s.conns
    requires forall x | x in s.conns && x in s.lastSeen :: x in t.lastSeen && t.lastSeen[x] == s.lastSeen[x]
    ensures HeardOk(t, heard)
  {
  }

  lemma StepKeepsHeard(s: State, a: Action, heard: set<string>)
    requires Inv(s) && WatchOk(s) && HeardOk(s, heard) && Enabled(s, a)
    ensures HeardOk(Apply(s, a), Hear(s, a, heard))
  {
    hide Inv, Above, Without, Silent;
    if a.ReapBegin? {
      SilentIs(s.registered, s.lastSeen, a.deadline);
    } else if !a.Heartbeat? {
      RegistryStep(s, a);
      SeenStays(s, a);
      SameHeard(s, Apply(s, a), heard);
    }
  }

  lemma SeenStays(s: State, a: Action)
    requires Enabled(s, a) && !a.Heartbeat?
    ensures forall x | x in s.conns && x in s.lastSeen ::
      x in Apply(s, a).lastSeen && Apply(s, a).lastSeen[x] == s.lastSeen[x]
    ensures Apply(s, a).sweep.Sweep? && !a.ReapBegin? ==> SameSweep(s, Apply(s, a))
  {
    hide Above, Without, Silent;
  }

  lemma {:induction false} RunKeepsHeard(s: State, acts: seq<Action>, heard: set<string>)
    requires Inv(s) && WatchOk(s) && HeardOk(s, heard) && Allowed(s, acts)
    ensures HeardOk(Run(s, acts), Heard(s, acts, heard))
    decreases |acts|
  {
    hide Inv, WatchOk, HeardOk, Apply, Enabled, Hear;
    if acts != [] {
      StepKeepsInv(s, acts[0]);
      StepKeepsWatch(s, acts[0]);
      StepKeepsHeard(s, acts[0], heard);
      RunKeepsHeard(Apply(s, acts[0]), acts[1..], Hear(s, acts[0], heard));
    }
  }

  /** The next step of the sweep drops a connection that is not silent any more. */
  predicate DropsAlive(s: State) {
    && Enabled(s, ReapNext)
    && var id := s.sweep.todo[0];
      && id in s.registered && id !in Apply(s, ReapNext).registered
      && id in s.lastSeen && s.lastSeen[id] >= s.sweep.deadline
  }

  /** The exact condition, over every run: the sweep drops a connection that has been heard
      of within the time allowed if and only if it sent a heartbeat after the sweep had
      begun and before its own turn came. */
  lemma DropsAliveIffHeard(cap: nat, acts: seq<Action>)
    requires Allowed(Init(cap), acts) && Enabled(Run(Init(cap), acts), ReapNext)
    ensures var t := Run(Init(cap), acts); var id := t.sweep.todo[0];
      DropsAlive(t) <==> id in t.registered && id in Heard(Init(cap), acts, {})
  {
    hide Run, Allowed, Heard, Inv, Apply;
    InitInv(cap);
    RunKeepsWatch(Init(cap), acts);
    RunKeepsHeard(Init(cap), acts, {});
    ReapNextKeeps(Run(Init(cap), acts));
  }

  lemma OneSilent(id: string)
    ensures Silent([id], map[id := 0], 60) == [id]
  {
    assert [id][..0] == [] && Silent([], map[id := 0], 60) == [];
  }

  function OneOpen(id: string): (s: State)
    ensures s.registered == [id] && s.conns == map[id := Conn(Never, Open, [], 0, [], [])] && !s.closed
    ensures s.lastSeen == map[id := 0] && s.sweep == NoSweep && s.log == [Attached(id)]
  {
    AttachStep(Init(1), id, Never, 0)
  }

  /** A sweep has listed the only connection, silent for a minute. */
  function SweepBegun(id: string): (s: State)
    ensures s.registered == [id] && s.conns == map[id := Conn(Never, Open, [], 0, [], [])]
    ensures s.lastSeen == map[id := 0] && s.sweep == Sweep(60, [id], [id]) && s.log == [Attached(id)]
  {
    hide OneOpen, Silent;
    OneSilent(id);
    ReapStep(OneOpen(id), 60)
  }

  /** It sends a heartbeat in the second minute. */
  function HeardOf(id: string): (s: State)
    ensures s.registered == [id] && s.lastSeen == map[id := 120]
    ensures s.sweep == Sweep(60, [id], [id]) && s.log == [Attached(id)]
  {
    hide SweepBegun;
    Apply(SweepBegun(id), Heartbeat(id, 120))
  }

  /** The run that shows it: the heartbeat comes too late. */
  lemma HeartbeatTooLate(id: string)
    ensures DropsAlive(HeardOf(id))
    ensures var t := Drop(HeardOf(id), id); t.registered == [] && t.log == [Attached(id), Detached(id)]
  {
    hide HeardOf;
    assert [id][1..] == [] && Without([id], id) == [];
  }
}
