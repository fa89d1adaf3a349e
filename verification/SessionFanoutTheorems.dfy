/** What the connections of a session see, over every run. */
module SessionFanoutTheorems {
  import opened SessionFanout

  lemma InitInv(cap: nat)
    ensures Inv(Init(cap))
  {
  }

  /** `Above` picks exactly the later entries and keeps their order. */
  lemma {:induction false} AboveIsLater(tape: seq<int>, since: int)
    requires forall i, j | 0 <= i < j < |tape| :: tape[i] < tape[j]
    ensures var r := Above(tape, since);
      && (forall x :: x in r <==> x in tape && x > since)
      && (forall i, j | 0 <= i < j < |r| :: r[i] < r[j])
  {
    if tape != [] {
      var n := |tape| - 1;
      AboveIsLater(tape[..n], since);
      assert tape == tape[..n] + [tape[n]];
      var before := Above(tape[..n], since);
      forall x | x in tape[..n] ensures x < tape[n] {
        var i :| 0 <= i < n && tape[..n][i] == x;
      }
      var r := Above(tape, since);
      assert r == before + if tape[n] > since then [tape[n]] else [];
      forall i, j | 0 <= i < j < |r| ensures r[i] < r[j] {
        assert r[i] == before[i] && before[i] in before;
        if j < |before| { assert r[j] == before[j]; }
      }
    }
  }

  /** Over every interleaving of fanouts, replays, reaping, detaching, cancelled attaches
      and closing: the registry never exceeds its cap, and a connection has been sent first
      the entries behind the one it named, in tape order and with nothing live in between,
      then `replay.done`, then live events in the order of their fanouts, none twice. A
      replay that failed has sent a prefix and at most one live event behind it; one that
      was cut off by a cancellation a prefix and then live events like any other. */
  lemma ReplayThenLive(cap: nat, acts: seq<Action>, id: string)
    requires Allowed(Init(cap), acts)
    ensures var s := Run(Init(cap), acts);
      && |s.registered| <= cap
      && (id in s.conns ==>
            var c := s.conns[id];
            && (!c.phase.Open? ==> SentOf(c.phase) <= |c.missed|)
            && c.sent == Expected(c) && Ascending(c.live)
            && (c.since.After? && !c.phase.Reading? ==> c.missed <= Above(s.tape, c.since.id))
            && (Locked(c.phase) ==> c.live == [])
            && (c.phase.Failed? ==> |c.live| <= 1 && id !in s.registered))
  {
    hide Run, Allowed;
    InitInv(cap);
    RunKeepsInv(Init(cap), acts);
    CapIsFixed(Init(cap), acts);
    var s := Run(Init(cap), acts);
    if id in s.conns {
      assert ConnOk(s, id, s.conns[id]);
    }
  }

  lemma {:induction false} CapIsFixed(s: State, acts: seq<Action>)
    requires Allowed(s, acts)
    ensures Run(s, acts).cap == s.cap
    decreases |acts|
  {
    hide Enabled;
    if acts != [] {
      CapIsFixed(Apply(s, acts[0]), acts[1..]);
    }
  }

  // -- nothing lost between attach and detach ------------------------------------------------------------

  function Range(from: nat, to: nat): seq<nat>
    requires from <= to
  {
    seq(to - from, i requires 0 <= i < to - from => from + i)
  }

  /** It was sent every event fanned out since it came in, each once and in order. */
  predicate UpToDate(s: State, id: string) {
    id in s.conns && var c := s.conns[id]; c.joined <= Served(s, id) && c.live == Range(c.joined, Served(s, id))
  }

  /** A fanout is cut off with this connection still before it. */
  predicate Skips(s: State, a: Action, id: string) {
    a.FanAbort? && s.fan.Fan? && id in s.fan.todo && id in s.registered
  }

  function Skipped(s: State, acts: seq<Action>, id: string): nat
    requires Allowed(s, acts)
    decreases |acts|
  {
    if acts == [] then 0
    else (if Skips(s, acts[0], id) then 1 else 0) + Skipped(Apply(s, acts[0]), acts[1..], id)
  }

  /** While it is registered a connection has been sent all but `k` of the events due. */
  predicate Behind(s: State, id: string, k: int) {
    && (s.fan.Fan? ==> s.next == s.fan.event + 1)
    && (id in s.registered ==>
          id in s.conns && |s.conns[id].live| + k == Served(s, id) - s.conns[id].joined)
  }

  /** Steps on others, or on what does not matter here. */
  lemma SameBehind(s: State, t: State, id: string, k: int)
    requires Behind(s, id, k) && (t.fan.Fan? ==> t.next == t.fan.event + 1)
    requires id in t.registered ==> id in s.registered && id in t.conns
    requires id in s.conns && id in t.conns ==>
      |t.conns[id].live| == |s.conns[id].live| && t.conns[id].joined == s.conns[id].joined
    requires id in t.registered ==> Served(t, id) == Served(s, id)
    ensures Behind(t, id, k)
  {
  }

  lemma FanBehind(s: State, a: Action, id: string, k: int)
    requires Inv(s) && Behind(s, id, k) && Enabled(s, a) && (a.FanPick? || a.FanSend?)
    ensures Behind(Apply(s, a), id, k)
  {
    hide ConnOk, Without, Served;
    TailDistinct(s.fan.todo);
    RegistryStep(s, a);
    ServedNext(s, a, id);
    if !(a == FanSend(true) && Current(s) == id) {
      SameBehind(s, Apply(s, a), id, k);
    }
  }

  lemma ServedNext(s: State, a: Action, id: string)
    requires Inv(s) && Enabled(s, a) && (a.FanPick? || a.FanSend?)
    requires s.next == s.fan.event + 1
    ensures id in Apply(s, a).registered ==>
      Served(Apply(s, a), id) == Served(s, id) + if a == FanSend(true) && Current(s) == id then 1 else 0
    ensures Current(s) == id ==> Served(s, id) == s.fan.event
  {
    hide ConnOk;
    TailDistinct(s.fan.todo);
    if a == FanSend(false) {
      WithoutFacts(s.registered, Current(s));
    }
  }

  lemma AttachBehind(s: State, a: Action, id: string, k: int)
    requires Inv(s) && Behind(s, id, k) && Enabled(s, a) && a.Attach?
    ensures Behind(Apply(s, a), id, if id == a.id then 0 else k)
  {
    hide ConnOk;
    if id == a.id {
      assert id !in s.registered;
    }
  }

  lemma RestBehind(s: State, a: Action, id: string, k: int)
    requires Inv(s) && Behind(s, id, k) && Enabled(s, a)
    requires !a.Attach? && !a.FanPick? && !a.FanSend?
    ensures Behind(Apply(s, a), id, if Skips(s, a, id) then k + 1 else k)
  {
    hide ConnOk, Without, Above, Silent;
    RegistryStep(s, a);
    if !Skips(s, a, id) {
      SameBehind(s, Apply(s, a), id, k);
    }
  }

  lemma StrangerIsNotSkipped(s: State, a: Action, id: string)
    requires Inv(s) && Enabled(s, a) && id !in s.conns
    ensures !Skips(s, a, id)
  {
    hide ConnOk;
  }

  /** `k` events missed so far, none as long as the connection has not come in. */
  lemma StepBehind(s: State, a: Action, id: string, k: int)
    requires Inv(s) && Behind(s, id, k) && Enabled(s, a) && (id !in s.conns ==> k == 0)
    ensures Behind(Apply(s, a), id, if Skips(s, a, id) then k + 1 else k)
    ensures id !in Apply(s, a).conns ==> id !in s.conns && !Skips(s, a, id)
  {
    hide Inv, Behind, Skips, Apply;
    PhaseStep(s, a, id);
    if id !in s.conns {
      StrangerIsNotSkipped(s, a, id);
    }
    if a.Attach? {
      AttachBehind(s, a, id, k);
      OnlyAbortSkips(s, a, id);
    } else if a.FanPick? || a.FanSend? {
      FanBehind(s, a, id, k);
      OnlyAbortSkips(s, a, id);
    } else {
      RestBehind(s, a, id, k);
    }
  }

  lemma OnlyAbortSkips(s: State, a: Action, id: string)
    ensures !a.FanAbort? ==> !Skips(s, a, id)
  {
  }

  lemma {:induction false} RunBehind(s: State, acts: seq<Action>, id: string, k: int)
    requires Inv(s) && Behind(s, id, k) && Allowed(s, acts) && (id !in s.conns ==> k == 0)
    ensures Inv(Run(s, acts)) && Behind(Run(s, acts), id, k + Skipped(s, acts, id))
    decreases |acts|
  {
    hide Inv, Behind, Apply, Enabled, Skips;
    if acts != [] {
      StepKeepsInv(s, acts[0]);
      StepBehind(s, acts[0], id, k);
      RunBehind(Apply(s, acts[0]), acts[1..], id, if Skips(s, acts[0], id) then k + 1 else k);
    }
  }

  /** Ascending numbers that fill their bounds are all of them. */
  lemma {:induction false} FullIsRange(events: seq<nat>, from: nat, to: nat)
    requires from <= to && Ascending(events) && |events| == to - from
    requires forall i | 0 <= i < |events| :: from <= events[i] < to
    ensures events == Range(from, to)
  {
    if events != [] {
      var n := |events| - 1;
      assert forall i | 0 <= i < n :: events[i] < events[n];
      LastIsTop(events, from, to);
      FullIsRange(events[..n], from, to - 1);
      assert events == events[..n] + [events[n]];
    }
  }

  lemma {:induction false} LastIsTop(events: seq<nat>, from: nat, to: nat)
    requires Ascending(events) && events != [] && forall i | 0 <= i < |events| :: from <= events[i]
    ensures events[|events| - 1] >= from + |events| - 1
  {
    if |events| > 1 {
      LastIsTop(events[..|events| - 1], from, to);
    }
  }

  /** The exact condition, over every run: a registered connection has been sent every event
      fanned out since it came in, each once, up to the one being handed out, if and only if
      no fanout was cut off by the bus's deadline with the connection still before it; it
      misses one event for each that was. */
  lemma NoLiveEventIsLostIff(cap: nat, acts: seq<Action>, id: string)
    requires Allowed(Init(cap), acts) && id in Run(Init(cap), acts).registered
    ensures var t := Run(Init(cap), acts);
      && (UpToDate(t, id) <==> Skipped(Init(cap), acts, id) == 0)
      && id in t.conns
      && |t.conns[id].live| + Skipped(Init(cap), acts, id) == Served(t, id) - t.conns[id].joined
  {
    hide Run, Allowed, Skipped, Inv;
    InitInv(cap);
    RunBehind(Init(cap), acts, id, 0);
    var t := Run(Init(cap), acts);
    RegisteredIsKnown(t, id);
    var c := t.conns[id];
    assert ConnOk(t, id, c) by { KnownIsOk(t, id); }
    if Skipped(Init(cap), acts, id) == 0 {
      FullIsRange(c.live, c.joined, Served(t, id));
    }
  }

  lemma KnownIsOk(s: State, id: string)
    requires Inv(s) && id in s.conns
    ensures ConnOk(s, id, s.conns[id])
  {
  }

  // -- how the phase of a connection goes on -------------------------------------------------------------

  function NextPhase(s: State, a: Action, id: string): Phase
    requires id in s.conns && Enabled(s, a)
  {
    var c := s.conns[id];
    match a
    case ReadTape(x) => if x == id then Replaying(0) else c.phase
    case ReplayNext(x, ok) =>
      if x != id then c.phase
      else if !ok then Failing(c.phase.k)
      else if c.phase.k < |c.missed| then Replaying(c.phase.k + 1)
      else Open
    case LeaveReplay(x) => if x == id then Failed(c.phase.k) else c.phase
    case AbortAttach(x) => if x == id then Aborted(SentOf(c.phase)) else c.phase
    case _ => c.phase
  }

  lemma PhaseStep(s: State, a: Action, id: string)
    requires Enabled(s, a)
    ensures id in s.conns ==> id in Apply(s, a).conns && Apply(s, a).conns[id].phase == NextPhase(s, a, id)
    ensures id !in s.conns && id in Apply(s, a).conns ==>
      a.Attach? && a.id == id && var p := Apply(s, a).conns[id].phase; (p.Reading? || p.Open?)
  {
    hide Without, Above, Silent;
  }

  // -- the lifecycle events ------------------------------------------------------------------------------

  predicate Ended(s: State, id: string) {
    id in s.conns && s.conns[id].phase.Open?
  }

  /** A send of its replay raised. */
  predicate Broken(s: State, id: string) {
    id in s.conns && (s.conns[id].phase.Failing? || s.conns[id].phase.Failed?)
  }

  predicate Gone(s: State, id: string) {
    id in s.conns && id !in s.registered
  }

  /** A `detached` for each connection gone from the registry, one `attached` for each
      whose replay ended well or that had none; what is said twice is a `detached` of a
      connection whose replay failed. */
  ghost predicate LogOk(s: State) {
    && (forall i, j | 0 <= i < j < |s.log| && s.log[i] == s.log[j] :: s.log[i].Detached? && Broken(s, s.log[i].id))
    && (forall id :: Detached(id) in s.log <==> Gone(s, id))
    && (forall id :: Attached(id) in s.log <==> Ended(s, id))
  }

  /** One more line on the log, new or a second `detached` of a broken connection. */
  lemma MoreLog(s: State, t: State, e: Life)
    requires LogOk(s) && t.log == s.log + [e]
    requires e !in s.log || (e.Detached? && Broken(t, e.id))
    requires forall id | Broken(s, id) :: Broken(t, id)
    requires forall id :: Gone(t, id) <==> Gone(s, id) || e == Detached(id)
    requires forall id :: Ended(t, id) <==> Ended(s, id) || e == Attached(id)
    ensures LogOk(t)
  {
    hide Broken, Gone, Ended;
    assert forall x :: x in t.log <==> x in s.log || x == e;
    forall i, j | 0 <= i < j < |t.log| && t.log[i] == t.log[j]
      ensures t.log[i].Detached? && Broken(t, t.log[i].id)
    {
      assert t.log[i] == s.log[i];
      if j < |s.log| {
        assert s.log[j] == t.log[j];
      }
    }
  }

  lemma DropLog(s: State, id: string)
    requires Inv(s) && LogOk(s)
    ensures LogOk(Drop(s, id))
  {
    hide ConnOk, LogOk;
    WithoutFacts(s.registered, id);
    if id in s.registered {
      RegisteredIsKnown(s, id);
      NotGone(s, id);
      MoreLog(s, Drop(s, id), Detached(id));
    }
  }

  lemma NotGone(s: State, id: string)
    requires LogOk(s)
    ensures !Gone(s, id) ==> Detached(id) !in s.log
    ensures !Ended(s, id) ==> Attached(id) !in s.log
  {
  }

  lemma RegisteredIsKnown(s: State, id: string)
    requires Inv(s) && id in s.registered
    ensures id in s.conns
  {
    hide ConnOk;
  }

  lemma AttachLog(s: State, id: string, since: Since, now: int)
    requires Inv(s) && LogOk(s) && id !in s.conns
    ensures LogOk(AttachStep(s, id, since, now))
  {
    hide ConnOk, LogOk;
    var t := AttachStep(s, id, since, now);
    if !s.closed && |s.registered| < s.cap {
      assert forall x :: x in t.registered <==> x in s.registered || x == id;
      NotGone(s, id);
      if since.Never? {
        MoreLog(s, t, Attached(id));
      } else {
        SameLog(s, t);
      }
    }
  }

  lemma ReplayLog(s: State, id: string, ok: bool)
    requires Inv(s) && LogOk(s) && Enabled(s, ReplayNext(id, ok))
    ensures LogOk(ReplayStep(s, id, ok))
  {
    hide Inv, LogOk;
    var t := ReplayStep(s, id, ok);
    NotGone(s, id);
    if !ok {
      WithoutFacts(s.registered, id);
      MoreLog(s, t, Detached(id));
    } else if s.conns[id].phase.k == |s.conns[id].missed| {
      MoreLog(s, t, Attached(id));
    } else {
      SameLog(s, t);
    }
  }

  lemma StepKeepsLog(s: State, a: Action)
    requires Inv(s) && LogOk(s) && Enabled(s, a)
    ensures LogOk(Apply(s, a))
  {
    hide ConnOk, Above, LogOk, Inv, Silent;
    if a.Attach? { AttachLog(s, a.id, a.since, a.now); }
    else if a.Detach? { DropLog(s, a.id); }
    else if a.ReplayNext? { ReplayLog(s, a.id, a.ok); }
    else if a.FanSend? && !a.ok {
      DropLog(s, Current(s));
      SameLog(Drop(s, Current(s)), Apply(s, a));
    } else if a.ReapNext? || a.CloseNext? {
      var id := if a.ReapNext? then s.sweep.todo[0] else s.closing.todo[0];
      DropLog(s, id);
      SameLog(Drop(s, id), Apply(s, a));
    } else { SameLog(s, Apply(s, a)); }
  }

  lemma SameLog(s: State, t: State)
    requires LogOk(s) && t.log == s.log
    requires forall id :: Gone(t, id) <==> Gone(s, id)
    requires forall id :: Ended(t, id) <==> Ended(s, id)
    requires forall id | Broken(s, id) :: Broken(t, id)
    ensures LogOk(t)
  {
    hide Gone, Ended, Broken;
  }

  lemma {:induction false} RunKeepsLog(s: State, acts: seq<Action>)
    requires Inv(s) && LogOk(s) && Allowed(s, acts)
    ensures LogOk(Run(s, acts))
    decreases |acts|
  {
    hide Inv, LogOk, Apply, Enabled;
    if acts != [] {
      StepKeepsInv(s, acts[0]);
      StepKeepsLog(s, acts[0]);
      RunKeepsLog(Apply(s, acts[0]), acts[1..]);
    }
  }

  // -- how often -------------------------------------------------------------------------------------------

  /** The replay's send raises although the connection is off the registry already. */
  predicate FailsGone(s: State, a: Action, id: string) {
    a == ReplayNext(id, false) && Gone(s, id)
  }

  predicate FailedGone(s: State, acts: seq<Action>, id: string)
    requires Allowed(s, acts)
    decreases |acts|
  {
    acts != [] && (FailsGone(s, acts[0], id) || FailedGone(Apply(s, acts[0]), acts[1..], id))
  }

  function Times(log: seq<Life>, e: Life): nat {
    multiset(log)[e]
  }

  function One(b: bool): nat {
    if b then 1 else 0
  }

  lemma OneMoreTime(log: seq<Life>, x: Life, e: Life)
    ensures Times(log + [x], e) == Times(log, e) + One(x == e)
  {
  }

  lemma DropCounts(s: State, id: string, x: string)
    requires Inv(s)
    ensures Times(Drop(s, x).log, Detached(id)) + One(Gone(s, id)) ==
      Times(s.log, Detached(id)) + One(Gone(Drop(s, x), id))
  {
    hide ConnOk, Times;
    WithoutFacts(s.registered, x);
    if x in s.registered {
      RegisteredIsKnown(s, x);
      OneMoreTime(s.log, Detached(x), Detached(id));
    }
  }

  lemma ReplayCounts(s: State, id: string, x: string, ok: bool)
    requires Inv(s) && Enabled(s, ReplayNext(x, ok))
    ensures Times(ReplayStep(s, x, ok).log, Detached(id)) + One(Gone(s, id)) ==
      Times(s.log, Detached(id)) + One(Gone(ReplayStep(s, x, ok), id)) + One(FailsGone(s, ReplayNext(x, ok), id))
  {
    hide Inv, Times;
    OneMoreTime(s.log, Attached(x), Detached(id));
    OneMoreTime(s.log, Detached(x), Detached(id));
    WithoutFacts(s.registered, x);
    if ok {
      assert Gone(ReplayStep(s, x, ok), id) == Gone(s, id);
    } else if id == x {
      assert Gone(ReplayStep(s, x, ok), id) && FailsGone(s, ReplayNext(x, ok), id) == Gone(s, id);
    } else {
      assert Gone(ReplayStep(s, x, ok), id) == Gone(s, id);
    }
  }

  lemma StepCounts(s: State, a: Action, id: string)
    requires Inv(s) && Enabled(s, a)
    ensures Times(Apply(s, a).log, Detached(id)) + One(Gone(s, id)) ==
      Times(s.log, Detached(id)) + One(Gone(Apply(s, a), id)) + One(FailsGone(s, a, id))
  {
    hide Inv, Times, One, Above, Silent, Without;
    NoneOf();
    if a.Detach? { DropCounts(s, id, a.id); }
    else if a.FanSend? && !a.ok { DropCounts(s, id, Current(s)); }
    else if a.ReapNext? { DropCounts(s, id, s.sweep.todo[0]); }
    else if a.CloseNext? { DropCounts(s, id, s.closing.todo[0]); }
    else if a.ReplayNext? { ReplayCounts(s, id, a.id, a.ok); }
    else if a.Attach? {
      OneMoreTime(s.log, Attached(a.id), Detached(id));
      JoinsKnown(s, a);
    }
  }

  lemma NoneOf()
    ensures One(false) == 0
  {
  }

  lemma JoinsKnown(s: State, a: Action)
    requires Inv(s) && a.Attach? && Enabled(s, a)
    ensures forall id :: Gone(Apply(s, a), id) <==> Gone(s, id)
  {
    hide ConnOk;
  }

  lemma {:induction false} NotAgain(s: State, acts: seq<Action>, id: string)
    requires Allowed(s, acts) && Broken(s, id)
    ensures !FailedGone(s, acts, id)
    decreases |acts|
  {
    hide Apply, Enabled, Broken;
    if acts != [] {
      StaysBroken(s, acts[0], id);
      NotAgain(Apply(s, acts[0]), acts[1..], id);
    }
  }

  lemma StaysBroken(s: State, a: Action, id: string)
    requires Broken(s, id) && Enabled(s, a)
    ensures Broken(Apply(s, a), id) && !FailsGone(s, a, id)
  {
    hide Apply;
    PhaseStep(s, a, id);
  }

  lemma BreaksNow(s: State, a: Action, id: string)
    requires Enabled(s, a) && FailsGone(s, a, id)
    ensures Broken(Apply(s, a), id)
  {
    hide Apply;
    PhaseStep(s, a, id);
  }

  lemma {:induction false} RunCounts(s: State, acts: seq<Action>, id: string)
    requires Inv(s) && Allowed(s, acts)
    ensures Times(Run(s, acts).log, Detached(id)) + One(Gone(s, id)) ==
      Times(s.log, Detached(id)) + One(Gone(Run(s, acts), id)) + One(FailedGone(s, acts, id))
    ensures FailedGone(s, acts, id) ==> Broken(Run(s, acts), id)
    decreases |acts|
  {
    hide Inv, Apply, Enabled, Times, Gone, FailsGone, Broken;
    if acts != [] {
      var t := Apply(s, acts[0]);
      StepKeepsInv(s, acts[0]);
      StepCounts(s, acts[0], id);
      RunCounts(t, acts[1..], id);
      if FailsGone(s, acts[0], id) {
        BreaksNow(s, acts[0], id);
        NotAgain(t, acts[1..], id);
        BrokenForGood(t, acts[1..], id);
      }
    }
  }

  lemma {:induction false} BrokenForGood(s: State, acts: seq<Action>, id: string)
    requires Allowed(s, acts) && Broken(s, id)
    ensures Broken(Run(s, acts), id)
    decreases |acts|
  {
    hide Apply, Enabled, Broken;
    if acts != [] {
      StaysBroken(s, acts[0], id);
      BrokenForGood(Apply(s, acts[0]), acts[1..], id);
    }
  }

  /** Exactly how often each connection is announced and taken leave of, over every run:
      announced once if its replay ended well or it had none; taken leave of once if it is
      off the registry, and once more if a send of its replay raised when it was off it
      already. */
  lemma LifecycleExact(cap: nat, acts: seq<Action>, id: string)
    requires Allowed(Init(cap), acts)
    ensures var t := Run(Init(cap), acts);
      && Times(t.log, Attached(id)) == One(Ended(t, id))
      && Times(t.log, Detached(id)) == One(Gone(t, id)) + One(FailedGone(Init(cap), acts, id))
      && (FailedGone(Init(cap), acts, id) ==> Gone(t, id))
  {
    hide Run, Allowed, FailedGone, LogOk, Inv, Times;
    InitInv(cap);
    InitLog(cap);
    RunKeepsInv(Init(cap), acts);
    RunKeepsLog(Init(cap), acts);
    RunCounts(Init(cap), acts, id);
    var t := Run(Init(cap), acts);
    AnnouncedOnce(t, id);
    if Broken(t, id) {
      BrokenIsOff(t, id);
    }
    assert Times([], Detached(id)) == 0 by { NotYet(Detached(id)); }
  }

  lemma NotYet(e: Life)
    ensures Times([], e) == 0
  {
  }

  lemma AnnouncedOnce(s: State, id: string)
    requires LogOk(s)
    ensures Times(s.log, Attached(id)) == One(Ended(s, id))
  {
    hide Times;
    OnceOnly(s.log, Attached(id));
  }

  lemma {:induction false} OnceOnly(log: seq<Life>, e: Life)
    requires forall i, j | 0 <= i < j < |log| :: log[i] != log[j] || log[i] != e
    ensures Times(log, e) == One(e in log)
  {
    hide Times;
    if log == [] {
      NotYet(e);
    } else {
      var n := |log| - 1;
      OnceOnly(log[..n], e);
      OneMoreTime(log[..n], log[n], e);
      assert log == log[..n] + [log[n]];
    }
  }

  lemma BrokenIsOff(s: State, id: string)
    requires Inv(s) && Broken(s, id)
    ensures id !in s.registered
  {
    hide Expected, Above;
    assert ConnOk(s, id, s.conns[id]);
  }

  lemma InitLog(cap: nat)
    ensures LogOk(Init(cap))
  {
  }

  /** The run that shows the second `detached`: reaped during its replay, whose next send
      then raises. */
  lemma DetachedTwice(id: string)
    ensures var s0 := Apply(Init(1), Attach(id, After(0), 0));
      var s1 := Apply(s0, Detach(id));
      var t := Apply(Apply(s1, ReadTape(id)), ReplayNext(id, false));
      t.log == [Detached(id), Detached(id)] && t.registered == [] && t.conns[id].sent == []
  {
    var s0 := Apply(Init(1), Attach(id, After(0), 0));
    assert s0.registered == [id] && [id][1..] == [] && Without([id], id) == [];
    var s1 := Apply(s0, Detach(id));
    assert s1.log == [Detached(id)];
    var s2 := Apply(s1, ReadTape(id));
    assert s2.conns[id].missed == [];
  }

  // -- in which order a connection is announced and taken leave of ------------------------------------------

  /** `x` stands in the log before `y`. */
  predicate Before(log: seq<Life>, x: Life, y: Life) {
    exists i, j :: 0 <= i < j < |log| && log[i] == x && log[j] == y
  }

  /** The step takes the connection off the registry while its replay goes on. */
  predicate DropsMidway(s: State, a: Action, id: string) {
    Enabled(s, a) && id in s.registered && id !in Apply(s, a).registered
    && id in Apply(s, a).conns && Midway(Apply(s, a).conns[id].phase)
  }

  predicate DroppedMidway(s: State, acts: seq<Action>, id: string)
    requires Allowed(s, acts)
    decreases |acts|
  {
    acts != [] && (DropsMidway(s, acts[0], id) || DroppedMidway(Apply(s, acts[0]), acts[1..], id))
  }

  /** The replay will never end well. */
  predicate Spoilt(s: State, id: string) {
    id in s.conns && (s.conns[id].phase.Failing? || s.conns[id].phase.Failed? || s.conns[id].phase.Aborted?)
  }

  /** Taken leave of, and not announced before. */
  predicate LeftFirst(s: State, id: string) {
    Before(s.log, Detached(id), Attached(id)) || (Detached(id) in s.log && Attached(id) !in s.log)
  }

  lemma BeforeAppend(log: seq<Life>, e: Life, x: Life, y: Life)
    ensures Before(log + [e], x, y) <==> Before(log, x, y) || (e == y && x in log)
  {
    var more := log + [e];
    if Before(log, x, y) {
      var i, j :| 0 <= i < j < |log| && log[i] == x && log[j] == y;
      assert more[i] == x && more[j] == y;
    }
    if e == y && x in log {
      var i :| 0 <= i < |log| && log[i] == x;
      assert more[i] == x && more[|log|] == y;
    }
  }

  lemma LogGrows(s: State, a: Action)
    requires Enabled(s, a)
    ensures var t := Apply(s, a);
      t.log == s.log || (|t.log| == |s.log| + 1 && t.log == s.log + [t.log[|s.log|]])
  {
    hide Without, Above, Silent;
  }

  lemma PhasesGoOn(s: State, a: Action, id: string)
    requires Enabled(s, a) && id in s.conns
    ensures var t := Apply(s, a);
      && id in t.conns
      && (Spoilt(s, id) ==> Spoilt(t, id))
      && (Ended(s, id) ==> Ended(t, id))
  {
    hide Apply;
    PhaseStep(s, a, id);
  }

  lemma {:induction false} SpoiltForGood(s: State, acts: seq<Action>, id: string)
    requires Allowed(s, acts) && Spoilt(s, id)
    ensures Spoilt(Run(s, acts), id) && !Ended(Run(s, acts), id)
    decreases |acts|
  {
    hide Apply, Enabled;
    if acts != [] {
      PhasesGoOn(s, acts[0], id);
      SpoiltForGood(Apply(s, acts[0]), acts[1..], id);
    }
  }

  lemma LogMeans(s: State, id: string)
    requires LogOk(s)
    ensures Detached(id) in s.log <==> Gone(s, id)
    ensures Attached(id) in s.log <==> Ended(s, id)
    ensures Before(s.log, Detached(id), Attached(id)) ==> Detached(id) in s.log && Attached(id) in s.log
  {
  }

  lemma NeverBefore(s: State, id: string)
    requires LogOk(s) && (Detached(id) !in s.log || Attached(id) !in s.log)
    ensures !Before(s.log, Detached(id), Attached(id))
  {
  }

  lemma LeavingStep(s: State, a: Action, id: string)
    requires Inv(s) && LogOk(s) && Enabled(s, a) && LogOk(Apply(s, a)) && !Spoilt(Apply(s, a), id)
    ensures LeftFirst(Apply(s, a), id) <==> LeftFirst(s, id) || DropsMidway(s, a, id)
  {
    hide LogOk, Inv, Apply, Enabled, Before;
    var t := Apply(s, a);
    var d, e := Detached(id), Attached(id);
    LogGrows(s, a);
    LogMeans(s, id);
    LogMeans(t, id);
    KnownStaysKnown(s, a, id);
    if t.log != s.log {
      var x := t.log[|s.log|];
      BeforeAppend(s.log, x, d, e);
      NewLife(s.log, x, d);
      NewLife(s.log, x, e);
      if d !in s.log || e !in s.log {
        NeverBefore(s, id);
      }
      if x == d || x == e {
        TwiceNever(t, |s.log|);
      }
    }
  }

  lemma NewLife(log: seq<Life>, x: Life, y: Life)
    ensures y in log + [x] <==> y in log || y == x
  {
  }

  lemma TwiceNever(t: State, n: nat)
    requires LogOk(t) && n < |t.log| && (t.log[n].Detached? ==> !Broken(t, t.log[n].id))
    ensures t.log[n] !in t.log[..n]
  {
  }

  lemma KnownStaysKnown(s: State, a: Action, id: string)
    requires Inv(s) && Enabled(s, a)
    ensures id in s.conns ==> id in Apply(s, a).conns
    ensures id in s.conns && id in Apply(s, a).registered ==> id in s.registered
    ensures id in s.conns && Ended(s, id) ==> Ended(Apply(s, a), id)
    ensures id in s.registered ==> id in s.conns
    ensures id !in s.conns && id in Apply(s, a).conns ==> id in Apply(s, a).registered
  {
    hide Apply, ConnOk;
    RegistryStep(s, a);
    PhaseStep(s, a, id);
    ComesRegistered(s, a, id);
  }

  lemma ComesRegistered(s: State, a: Action, id: string)
    requires Enabled(s, a)
    ensures id !in s.conns && id in Apply(s, a).conns ==> id in Apply(s, a).registered
  {
    hide Above, Silent, Without;
  }

  /** Nobody comes onto the registry but by attaching. */
  lemma RegistryStep(s: State, a: Action)
    requires Enabled(s, a)
    ensures forall x | x in Apply(s, a).registered ::
      x in s.registered || (a.Attach? && a.id == x && !s.closed)
  {
    hide Above, Silent;
    if a.Detach? {
      WithoutFacts(s.registered, a.id);
    } else if a.ReplayNext? {
      WithoutFacts(s.registered, a.id);
    } else if a.FanSend? {
      WithoutFacts(s.registered, Current(s));
    } else if a.ReapNext? {
      WithoutFacts(s.registered, s.sweep.todo[0]);
    } else if a.CloseNext? {
      WithoutFacts(s.registered, s.closing.todo[0]);
    }
  }

  lemma {:induction false} LeavingRun(s: State, acts: seq<Action>, id: string)
    requires Inv(s) && LogOk(s) && Allowed(s, acts) && Ended(Run(s, acts), id)
    ensures LeftFirst(Run(s, acts), id) <==> LeftFirst(s, id) || DroppedMidway(s, acts, id)
    decreases |acts|
  {
    hide Inv, LogOk, Apply, Enabled, LeftFirst, DropsMidway, Spoilt, Ended;
    if acts != [] {
      var t := Apply(s, acts[0]);
      StepKeepsInv(s, acts[0]);
      StepKeepsLog(s, acts[0]);
      if Spoilt(t, id) {
        SpoiltForGood(t, acts[1..], id);
      }
      LeavingStep(s, acts[0], id);
      LeavingRun(t, acts[1..], id);
    }
  }

  /** The exact condition, over every run: a connection is announced after it was taken
      leave of if and only if it was dropped while its replay was under way and the replay
      then ended well. */
  lemma AttachedAfterDetachedIff(cap: nat, acts: seq<Action>, id: string)
    requires Allowed(Init(cap), acts)
    ensures var t := Run(Init(cap), acts);
      Before(t.log, Detached(id), Attached(id)) <==> DroppedMidway(Init(cap), acts, id) && Ended(t, id)
  {
    hide Run, Allowed, DroppedMidway, LogOk, Inv;
    InitInv(cap);
    InitLog(cap);
    RunKeepsLog(Init(cap), acts);
    var t := Run(Init(cap), acts);
    LogMeans(t, id);
    if Ended(t, id) {
      LeavingRun(Init(cap), acts, id);
    }
  }

  // -- live events behind a failed replay ----------------------------------------------------------------------

  predicate FailsUnderFan(s: State, a: Action, id: string) {
    a == ReplayNext(id, false) && AtConn(s, id) == 1
  }

  /** The replay's send failed while a fanout stood at the connection, waiting for its lock. */
  predicate FailedUnderFan(s: State, acts: seq<Action>, id: string)
    requires Allowed(s, acts)
    decreases |acts|
  {
    acts != [] && (FailsUnderFan(s, acts[0], id) || FailedUnderFan(Apply(s, acts[0]), acts[1..], id))
  }

  predicate SendsTo(s: State, a: Action, id: string) {
    Enabled(s, a) && a == FanSend(true) && Current(s) == id
  }

  /** A fanout's send to the connection succeeded. */
  predicate SentTo(s: State, acts: seq<Action>, id: string)
    requires Allowed(s, acts)
    decreases |acts|
  {
    acts != [] && (SendsTo(s, acts[0], id) || SentTo(Apply(s, acts[0]), acts[1..], id))
  }

  predicate HasLived(s: State, id: string) {
    id in s.conns && s.conns[id].live != []
  }

  lemma LivesStep(s: State, a: Action, id: string)
    requires Enabled(s, a)
    ensures HasLived(Apply(s, a), id) <==> HasLived(s, id) || SendsTo(s, a, id)
  {
    hide Without, Above, Silent;
  }

  lemma {:induction false} LivesRun(s: State, acts: seq<Action>, id: string)
    requires Allowed(s, acts)
    ensures HasLived(Run(s, acts), id) <==> HasLived(s, id) || SentTo(s, acts, id)
    decreases |acts|
  {
    hide Apply, Enabled, HasLived, SendsTo;
    if acts != [] {
      LivesStep(s, acts[0], id);
      LivesRun(Apply(s, acts[0]), acts[1..], id);
    }
  }

  lemma BrokenStep(s: State, a: Action, id: string)
    requires Inv(s) && Broken(s, id) && Enabled(s, a)
    ensures Broken(Apply(s, a), id)
    ensures AtConn(Apply(s, a), id) == 1 || SendsTo(s, a, id) ==> AtConn(s, id) == 1
  {
    hide Inv;
    StaysBroken(s, a, id);
    BrokenIsOff(s, id);
    OnlyTheFanMoves(s, a, id);
  }

  lemma OnlyTheFanMoves(s: State, a: Action, id: string)
    requires Enabled(s, a) && id !in s.registered
    ensures AtConn(Apply(s, a), id) == 1 || SendsTo(s, a, id) ==> AtConn(s, id) == 1
  {
    hide Without, Above, Silent;
  }

  /** Once broken, a connection is sent to only by the fanout that stands at it already. */
  lemma {:induction false} BrokenRun(s: State, acts: seq<Action>, id: string)
    requires Inv(s) && Broken(s, id) && Allowed(s, acts) && SentTo(s, acts, id)
    ensures AtConn(s, id) == 1
    decreases |acts|
  {
    hide Inv, Apply, Enabled, Broken, SendsTo, AtConn;
    BrokenStep(s, acts[0], id);
    if !SendsTo(s, acts[0], id) {
      StepKeepsInv(s, acts[0]);
      BrokenRun(Apply(s, acts[0]), acts[1..], id);
    }
  }

  lemma SpoiltStep(s: State, a: Action, id: string)
    requires Enabled(s, a)
    ensures Spoilt(Apply(s, a), id) <==> Spoilt(s, id) || a == AbortAttach(id) || a == ReplayNext(id, false)
  {
    hide Apply;
    PhaseStep(s, a, id);
  }

  lemma {:induction false} SpoiltRun(s: State, acts: seq<Action>, id: string)
    requires Allowed(s, acts)
    ensures Spoilt(Run(s, acts), id) <==>
      Spoilt(s, id) || AbortAttach(id) in acts || ReplayNext(id, false) in acts
    decreases |acts|
  {
    hide Apply, Enabled, Spoilt;
    if acts != [] {
      assert acts == [acts[0]] + acts[1..];
      SpoiltStep(s, acts[0], id);
      SpoiltRun(Apply(s, acts[0]), acts[1..], id);
    }
  }

  predicate HasDone(sent: seq<Message>) {
    exists i :: 0 <= i < |sent| && sent[i].Done?
  }

  predicate HasLive(sent: seq<Message>) {
    exists i :: 0 <= i < |sent| && sent[i].Live?
  }

  lemma SentKinds(c: Conn)
    requires !c.phase.Open? ==> SentOf(c.phase) <= |c.missed|
    requires Locked(c.phase) ==> c.live == []
    ensures HasLive(Expected(c)) <==> c.live != []
    ensures HasDone(Expected(c)) <==> c.phase.Open? && c.since.After?
  {
    var sent, n := Expected(c), |c.live|;
    if n > 0 {
      assert sent[|sent| - n].Live?;
    }
    if c.phase.Open? && c.since.After? {
      assert sent[|c.missed|].Done?;
    }
  }

  /** When the promise of the replay fails, over every run: a connection that asked for one
      has a live event and no `replay.done` before it if and only if its attach was cut off
      or a send of its replay raised, and a fanout's send to it succeeded all the same. */
  lemma LiveWithoutDoneIff(cap: nat, acts: seq<Action>, id: string)
    requires Allowed(Init(cap), acts) && id in Run(Init(cap), acts).conns
    requires Run(Init(cap), acts).conns[id].since.After?
    ensures var sent := Run(Init(cap), acts).conns[id].sent;
      HasLive(sent) && !HasDone(sent) <==>
        SentTo(Init(cap), acts, id) && (AbortAttach(id) in acts || ReplayNext(id, false) in acts)
  {
    hide Run, Allowed, Expected, HasLive, HasDone, SentTo;
    ReplayThenLive(cap, acts, id);
    SentKinds(Run(Init(cap), acts).conns[id]);
    LivesRun(Init(cap), acts, id);
    SpoiltRun(Init(cap), acts, id);
  }

  predicate MayFail(s: State, id: string) {
    id in s.conns ==> Midway(s.conns[id].phase)
  }

  predicate Settled(s: State, id: string) {
    id in s.conns && (s.conns[id].phase.Aborted? || s.conns[id].phase.Open?)
  }

  lemma MayFailStep(s: State, a: Action, id: string)
    requires Inv(s) && MayFail(s, id) && Enabled(s, a)
    ensures !SendsTo(s, a, id)
    ensures MayFail(Apply(s, a), id) || Broken(Apply(s, a), id) || Settled(Apply(s, a), id)
    ensures Broken(Apply(s, a), id) ==> a == ReplayNext(id, false) && AtConn(Apply(s, a), id) == AtConn(s, id)
  {
    hide Apply, ConnOk;
    PhaseStep(s, a, id);
    if a == ReplayNext(id, false) {
      FanStays(s, id);
    }
  }

  lemma FanStays(s: State, id: string)
    requires Enabled(s, ReplayNext(id, false))
    ensures Apply(s, ReplayNext(id, false)).fan == s.fan
  {
  }

  lemma {:induction false} NeverBroken(s: State, acts: seq<Action>, id: string)
    requires Allowed(s, acts) && Settled(s, id)
    ensures !Broken(Run(s, acts), id)
    decreases |acts|
  {
    hide Apply, Enabled;
    if acts != [] {
      SettledPhases(s, acts[0], id);
      NeverBroken(Apply(s, acts[0]), acts[1..], id);
    }
  }

  lemma SettledPhases(s: State, a: Action, id: string)
    requires Enabled(s, a) && Settled(s, id)
    ensures Settled(Apply(s, a), id)
  {
    hide Apply;
    PhaseStep(s, a, id);
  }

  lemma {:induction false} FailingRun(s: State, acts: seq<Action>, id: string)
    requires Inv(s) && MayFail(s, id) && Allowed(s, acts) && Broken(Run(s, acts), id)
    ensures SentTo(s, acts, id) ==> FailedUnderFan(s, acts, id)
    decreases |acts|
  {
    hide Inv, Apply, Enabled, MayFail, Broken, SendsTo, AtConn, Settled;
    if acts != [] {
      var t := Apply(s, acts[0]);
      MayFailStep(s, acts[0], id);
      StepKeepsInv(s, acts[0]);
      if MayFail(t, id) {
        FailingRun(t, acts[1..], id);
      } else if Broken(t, id) {
        if SentTo(t, acts[1..], id) {
          BrokenRun(t, acts[1..], id);
        }
      } else {
        NeverBroken(t, acts[1..], id);
      }
    }
  }

  /** The exact condition, over every run: a connection whose replay failed has a live
      event if and only if a fanout stood at it, waiting for its lock, when the replay's
      send failed, and the fanout's own send succeeded. */
  lemma LiveBehindAFailureIff(cap: nat, acts: seq<Action>, id: string)
    requires Allowed(Init(cap), acts)
    requires var t := Run(Init(cap), acts); id in t.conns && t.conns[id].phase.Failed?
    ensures Run(Init(cap), acts).conns[id].live != [] <==>
      FailedUnderFan(Init(cap), acts, id) && SentTo(Init(cap), acts, id)
  {
    hide Run, Allowed, FailedUnderFan, SentTo, Inv;
    InitInv(cap);
    LivesRun(Init(cap), acts, id);
    FailingRun(Init(cap), acts, id);
  }

  // -- two runs the code's comments do not expect --------------------------------------------------------

  /** A fanout that waits for a connection's lock while its replay runs. */
  function FanWaits(id: string): (s: State)
    ensures s.fan == Fan(0, [id], Waiting) && s.registered == [id] && s.log == []
    ensures s.conns == map[id := Conn(After(0), Replaying(0), [], 0, [], [])]
  {
    var s := Apply(Init(1), Attach(id, After(0), 0));
    assert s.registered == [id];
    Apply(Apply(Apply(s, ReadTape(id)), FanBegin), FanPick)
  }

  /** The same, behind the replay's failure. */
  function FanStillWaits(id: string): (s: State)
    ensures s.fan == Fan(0, [id], Waiting) && s.registered == [] && s.log == [Detached(id)]
    ensures s.conns == map[id := Conn(After(0), Failed(0), [], 0, [], [])]
  {
    hide FanWaits;
    assert [id][1..] == [] && Without([id], id) == [];
    Apply(Apply(FanWaits(id), ReplayNext(id, false)), LeaveReplay(id))
  }

  /** A fanout that holds a connection's lock sends its event. */
  lemma OneLiveSend(s: State, id: string, phase: Phase)
    requires s.fan == Fan(0, [id], Waiting) && !Locked(phase)
    requires s.conns == map[id := Conn(After(0), phase, [], 0, [], [])]
    ensures Allowed(s, [FanLock, FanSend(true)])
    ensures var t := Run(s, [FanLock, FanSend(true)]);
      && t.conns == map[id := Conn(After(0), phase, [], 0, [0], [Live(0)])]
      && t.registered == s.registered && t.log == s.log
  {
    assert [FanLock, FanSend(true)][1..] == [FanSend(true)] && [FanSend(true)][1..] == [];
    var u := Apply(s, FanLock);
    assert [] + [0] == [0] && [] + [Live(0)] == [Live(0)];
    assert Run(u, [FanSend(true)]) == Apply(u, FanSend(true));
  }

  /** It does not look at the registry again: it sends its event to a connection whose
      replay has just failed. */
  lemma LiveBehindAFailedReplay(id: string)
    ensures Allowed(FanStillWaits(id), [FanLock, FanSend(true)])
    ensures var t := Run(FanStillWaits(id), [FanLock, FanSend(true)]);
      && id in t.conns && t.conns[id].phase.Failed? && t.conns[id].sent == [Live(0)]
      && t.registered == [] && t.log == [Detached(id)]
  {
    hide FanStillWaits, Apply, Run, Allowed;
    OneLiveSend(FanStillWaits(id), id, Failed(0));
  }

  /** The same, the attach cancelled during its replay. */
  function FanWaitsAlone(id: string): (s: State)
    ensures s.fan == Fan(0, [id], Waiting) && s.registered == [id] && s.log == []
    ensures s.conns == map[id := Conn(After(0), Aborted(0), [], 0, [], [])]
  {
    hide FanWaits;
    Apply(FanWaits(id), AbortAttach(id))
  }

  /** That leaves the connection on the registry, where it is never announced and is sent
      live events behind a bare prefix of the replay. */
  lemma CancelledAttachGoesLive(id: string)
    ensures Allowed(FanWaitsAlone(id), [FanLock, FanSend(true)])
    ensures var t := Run(FanWaitsAlone(id), [FanLock, FanSend(true)]);
      && id in t.conns && t.conns[id].phase.Aborted? && t.conns[id].sent == [Live(0)]
      && t.registered == [id] && t.log == []
  {
    hide FanWaitsAlone, Apply, Run, Allowed;
    OneLiveSend(FanWaitsAlone(id), id, Aborted(0));
  }

  /** A connection reaped while its replay runs is announced after it was taken leave of. */
  lemma AttachedAfterDetached(id: string)
    ensures var s0 := Apply(Init(1), Attach(id, After(0), 0));
      var s1 := Apply(s0, Detach(id));
      var t := Apply(Apply(s1, ReadTape(id)), ReplayNext(id, true));
      t.log == [Detached(id), Attached(id)] && t.registered == [] && t.conns[id].sent == [Done(0)]
  {
    var s0 := Apply(Init(1), Attach(id, After(0), 0));
    assert s0.registered == [id] && [id][1..] == [] && Without([id], id) == [];
    var s1 := Apply(s0, Detach(id));
    assert s1.log == [Detached(id)];
    var s2 := Apply(s1, ReadTape(id));
    assert s2.conns[id].missed == [];
  }
}
