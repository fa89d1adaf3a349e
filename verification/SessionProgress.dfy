/** What a replay reads, when the context is closed, and that fanouts, sweeps and `close` get
    to their ends: from the actions of a run. */
module SessionProgress {
  import opened Common
  import opened SessionFanout
  import opened SessionFanoutTheorems
  import opened SessionSweeps

  // -- the tape and what a replay reads of it -----------------------------------------------------

  function Persists(acts: seq<Action>): nat {
    if acts == [] then 0 else (if acts[0].Persist? then 1 else 0) + Persists(acts[1..])
  }

  /** The ids 1 to `n`. */
  function Numbers(n: nat): seq<int> {
    if n == 0 then [] else Numbers(n - 1) + [n]
  }

  lemma NumbersNext(tape: seq<int>)
    requires tape == Numbers(|tape|)
    ensures tape + [|tape| + 1] == Numbers(|tape| + 1)
  {
  }

  lemma TapeStep(s: State, a: Action)
    requires Enabled(s, a)
    ensures Apply(s, a).tape == if a.Persist? then s.tape + [|s.tape| + 1] else s.tape
  {
    hide Without, Above, Silent;
  }

  /** How many entries the tape held when the connection's replay read it. */
  function ReadAt(acts: seq<Action>, id: string, held: nat): nat {
    if acts == [] || acts[0] == ReadTape(id) then held
    else ReadAt(acts[1..], id, held + if acts[0].Persist? then 1 else 0)
  }

  /** The step sets what the connection missed, or leaves it. */
  lemma MissedStep(s: State, a: Action, id: string)
    requires Enabled(s, a)
    ensures id in s.conns ==> id in Apply(s, a).conns
    ensures id in Apply(s, a).conns ==> Apply(s, a).conns[id].since == if id in s.conns then s.conns[id].since
      else if a.Attach? then a.since else Never
    ensures id in Apply(s, a).conns ==>
      Apply(s, a).conns[id].missed
        == if a == ReadTape(id) then Above(s.tape, s.conns[id].since.id)
           else if id in s.conns then s.conns[id].missed else []
    ensures a == ReadTape(id) ==> id in s.conns && s.conns[id].phase.Reading?
  {
    hide Without, Above, Silent;
  }

  predicate NotReading(s: State, id: string) {
    id in s.conns && !s.conns[id].phase.Reading?
  }

  lemma NotReadingStep(s: State, a: Action, id: string)
    requires NotReading(s, id) && Enabled(s, a)
    ensures NotReading(Apply(s, a), id) && a != ReadTape(id)
  {
    hide Apply;
    PhaseStep(s, a, id);
  }

  lemma {:induction false} ReadOnce(s: State, acts: seq<Action>, id: string)
    requires NotReading(s, id) && Allowed(s, acts)
    ensures id in Run(s, acts).conns && Run(s, acts).conns[id].missed == s.conns[id].missed
    ensures Run(s, acts).conns[id].since == s.conns[id].since && ReadTape(id) !in acts
    decreases |acts|
  {
    hide Apply, Enabled, NotReading;
    ThereIs(s, id);
    if acts != [] {
      assert acts == [acts[0]] + acts[1..];
      NotReadingStep(s, acts[0], id);
      MissedStep(s, acts[0], id);
      ReadOnce(Apply(s, acts[0]), acts[1..], id);
    }
  }

  lemma ThereIs(s: State, id: string)
    requires NotReading(s, id)
    ensures id in s.conns
  {
  }

  lemma ReadsNow(s: State, id: string)
    requires Enabled(s, ReadTape(id))
    ensures NotReading(Apply(s, ReadTape(id)), id)
  {
  }

  predicate Unread(s: State, id: string) {
    id in s.conns ==> s.conns[id].missed == []
  }

  lemma {:induction false} MissedRun(s: State, acts: seq<Action>, id: string)
    requires Unread(s, id) && s.tape == Numbers(|s.tape|) && Allowed(s, acts)
    ensures var t := Run(s, acts);
      && t.tape == Numbers(|s.tape| + Persists(acts))
      && (ReadTape(id) in acts ==>
            && id in t.conns && t.conns[id].since.After?
            && t.conns[id].missed == Above(Numbers(ReadAt(acts, id, |s.tape|)), t.conns[id].since.id))
      && (ReadTape(id) !in acts && id in t.conns ==> t.conns[id].missed == [])
    decreases |acts|
  {
    hide Apply, Enabled, Above, NotReading, Numbers;
    if acts != [] {
      var t := Apply(s, acts[0]);
      assert acts == [acts[0]] + acts[1..];
      TapeStep(s, acts[0]);
      MissedStep(s, acts[0], id);
      if acts[0] == ReadTape(id) {
        ReadsNow(s, id);
        ReadOnce(t, acts[1..], id);
        TapeRun(t, acts[1..]);
        ReadableIs(s, id);
        assert t.tape == s.tape;
      } else {
        NumbersNext(s.tape);
        MissedRun(t, acts[1..], id);
      }
    }
  }

  lemma ReadableIs(s: State, id: string)
    requires Enabled(s, ReadTape(id))
    ensures id in s.conns && s.conns[id].since.After?
  {
  }

  lemma {:induction false} TapeRun(s: State, acts: seq<Action>)
    requires s.tape == Numbers(|s.tape|) && Allowed(s, acts)
    ensures Run(s, acts).tape == Numbers(|s.tape| + Persists(acts))
    decreases |acts|
  {
    hide Apply, Enabled, Numbers;
    if acts != [] {
      TapeStep(s, acts[0]);
      NumbersNext(s.tape);
      TapeRun(Apply(s, acts[0]), acts[1..]);
    }
  }

  lemma NumbersNone()
    ensures Numbers(0) == []
  {
  }

  /** Over every run, from its actions alone: the tape holds one entry for each written, and
      a replay that has read it missed exactly those of the entries written by then that are
      behind the one the connection named; before that nothing. */
  lemma MissedIs(cap: nat, acts: seq<Action>, id: string)
    requires Allowed(Init(cap), acts) && id in Run(Init(cap), acts).conns
    ensures var t := Run(Init(cap), acts);
      var c := t.conns[id];
      && t.tape == Numbers(Persists(acts))
      && (ReadTape(id) in acts ==>
            c.since.After? && c.missed == Above(Numbers(ReadAt(acts, id, 0)), c.since.id))
      && (ReadTape(id) !in acts ==> c.missed == [])
  {
    hide Run, Allowed, Above, Numbers, ReadAt;
    NumbersNone();
    MissedRun(Init(cap), acts, id);
  }

  // -- closing ----------------------------------------------------------------------------------------

  lemma ClosedStep(s: State, a: Action)
    requires Enabled(s, a)
    ensures Apply(s, a).closed <==> s.closed || a.Close?
  {
    hide Without, Above, Silent;
  }

  lemma {:induction false} ClosedRun(s: State, acts: seq<Action>)
    requires Allowed(s, acts)
    ensures Run(s, acts).closed <==> s.closed || Close in acts
    decreases |acts|
  {
    hide Apply, Enabled;
    if acts != [] {
      assert acts == [acts[0]] + acts[1..];
      ClosedStep(s, acts[0]);
      ClosedRun(Apply(s, acts[0]), acts[1..]);
    }
  }

  /** Over every run the context is closed exactly if somebody closed it; from then on nobody
      is let in, no fanout and no sweep begins, and closing it again changes nothing. */
  lemma ClosedIff(cap: nat, acts: seq<Action>, id: string, since: Since, now: int, deadline: int)
    requires Allowed(Init(cap), acts)
    ensures var t := Run(Init(cap), acts);
      && (t.closed <==> Close in acts)
      && (t.closed ==>
            && Apply(t, Close) == t
            && (Enabled(t, Attach(id, since, now)) ==> Apply(t, Attach(id, since, now)) == t)
            && (Enabled(t, FanBegin) ==> Apply(t, FanBegin) == t)
            && (Enabled(t, ReapBegin(deadline)) ==> Apply(t, ReapBegin(deadline)) == t))
      && (!t.closed ==> Apply(t, Close).closing == Awaiting && Apply(t, Close).sweep == NoSweep)
  {
    hide Run, Allowed;
    ClosedRun(Init(cap), acts);
  }

  // -- in which order connections are served ----------------------------------------------------------------

  predicate Precedes(ids: seq<string>, x: string, y: string) {
    exists i, j :: 0 <= i < j < |ids| && ids[i] == x && ids[j] == y
  }

  lemma PrecedesFirst(ids: seq<string>, x: string, y: string)
    requires ids != []
    ensures Precedes(ids, x, y) <==> (ids[0] == x && y in ids[1..]) || Precedes(ids[1..], x, y)
  {
    var rest := ids[1..];
    if i, j :| 0 <= i < j < |ids| && ids[i] == x && ids[j] == y {
      assert rest[j - 1] == y && (i > 0 ==> rest[i - 1] == x);
    }
    if ids[0] == x && y in rest {
      var j :| 0 <= j < |rest| && rest[j] == y;
      assert ids[j + 1] == y;
    }
    if i, j :| 0 <= i < j < |rest| && rest[i] == x && rest[j] == y {
      assert ids[i + 1] == x && ids[j + 1] == y;
    }
  }

  lemma {:induction false} WithoutKeepsOrder(ids: seq<string>, gone: string, x: string, y: string)
    requires Precedes(ids, x, y) && x != gone && y != gone
    ensures Precedes(Without(ids, gone), x, y)
  {
    hide Precedes;
    if ids == [] {
      NobodyPrecedes(x, y);
    } else {
      var left := Without(ids, gone);
      PrecedesFirst(ids, x, y);
      WithoutFacts(ids[1..], gone);
      if Precedes(ids[1..], x, y) {
        WithoutKeepsOrder(ids[1..], gone, x, y);
      }
      if ids[0] == gone {
        assert left == Without(ids[1..], gone);
      } else {
        assert left == [ids[0]] + Without(ids[1..], gone);
        PrecedesFirst(left, x, y);
      }
    }
  }

  lemma NobodyPrecedes(x: string, y: string)
    ensures !Precedes([], x, y)
  {
  }

  lemma AppendKeepsOrder(ids: seq<string>, id: string, x: string, y: string)
    requires Precedes(ids, x, y) || (x in ids && y == id)
    ensures Precedes(ids + [id], x, y)
  {
    var more := ids + [id];
    if i, j :| 0 <= i < j < |ids| && ids[i] == x && ids[j] == y {
      assert more[i] == x && more[j] == y;
    } else {
      var i :| 0 <= i < |ids| && ids[i] == x;
      assert more[i] == x && more[|ids|] == y;
    }
  }

  lemma OrderStep(s: State, a: Action, x: string, y: string)
    requires Enabled(s, a) && Precedes(s.registered, x, y) && x in Apply(s, a).registered && y in Apply(s, a).registered
    ensures Precedes(Apply(s, a).registered, x, y)
  {
    hide Precedes, Above, Silent, Without;
    if a.Attach? {
      AppendKeepsOrder(s.registered, a.id, x, y);
    } else {
      var gone := Goes(s, a);
      if gone.Some? {
        WithoutFacts(s.registered, gone.value);
        if x != gone.value && y != gone.value {
          WithoutKeepsOrder(s.registered, gone.value, x, y);
        }
      }
    }
  }

  /** Whom the step would take off the registry. */
  function Goes(s: State, a: Action): Option<string>
    requires Enabled(s, a)
  {
    match a
    case Detach(id) => Some(id)
    case ReplayNext(id, ok) => if ok then None else Some(id)
    case FanSend(ok) => if ok then None else Some(Current(s))
    case ReapNext => Some(s.sweep.todo[0])
    case CloseNext => Some(s.closing.todo[0])
    case _ => None
  }

  lemma {:induction false} OrderRun(s: State, acts: seq<Action>, x: string, y: string)
    requires Inv(s) && Allowed(s, acts) && Precedes(s.registered, x, y) && x in s.conns && y in s.conns
    requires x in Run(s, acts).registered && y in Run(s, acts).registered
    ensures Precedes(Run(s, acts).registered, x, y)
    decreases |acts|
  {
    hide Inv, Apply, Enabled, Precedes;
    if acts != [] {
      var t := Apply(s, acts[0]);
      StepKeepsInv(s, acts[0]);
      KnownStaysKnown(s, acts[0], x);
      KnownStaysKnown(s, acts[0], y);
      if x !in t.registered {
        OffForGood(t, acts[1..], x);
      } else if y !in t.registered {
        OffForGood(t, acts[1..], y);
      } else {
        OrderStep(s, acts[0], x, y);
        OrderRun(t, acts[1..], x, y);
      }
    }
  }

  lemma {:induction false} OffForGood(s: State, acts: seq<Action>, id: string)
    requires Inv(s) && Allowed(s, acts) && id in s.conns && id !in s.registered
    ensures id in Run(s, acts).conns && id !in Run(s, acts).registered
    decreases |acts|
  {
    hide Inv, Apply, Enabled;
    if acts != [] {
      KnownStaysKnown(s, acts[0], id);
      StepKeepsInv(s, acts[0]);
      OffForGood(Apply(s, acts[0]), acts[1..], id);
    }
  }

  /** Over every run: of two connections still registered a fanout serves the one first that
      was there when the other came in. */
  lemma FirstComeFirstServed(cap: nat, before: seq<Action>, x: string, y: string, since: Since, now: int,
      later: seq<Action>)
    requires Allowed(Init(cap), before) && x in Run(Init(cap), before).registered
    requires Enabled(Run(Init(cap), before), Attach(y, since, now))
    requires Allowed(Apply(Run(Init(cap), before), Attach(y, since, now)), later)
    ensures var t := Run(Apply(Run(Init(cap), before), Attach(y, since, now)), later);
      && (x in t.registered && y in t.registered ==> Precedes(t.registered, x, y))
      && (!t.closed && Enabled(t, FanBegin) ==> Apply(t, FanBegin).fan == Fan(t.next, t.registered, Picking))
  {
    hide Run, Allowed, Inv, Precedes;
    InitInv(cap);
    RunKeepsInv(Init(cap), before);
    var s := Run(Init(cap), before);
    var u := Apply(s, Attach(y, since, now));
    StepKeepsInv(s, Attach(y, since, now));
    RegisteredIsKnown(s, x);
    var t := Run(u, later);
    if x in t.registered && y in t.registered {
      if y in u.registered {
        NewcomerIsLast(s, y, since, now, x);
        OrderRun(u, later, x, y);
      } else {
        RefusedStaysOff(s, y, since, now);
        assert u == s;
        NotRefused(s, later, x, y);
      }
    }
  }

  lemma NewcomerIsLast(s: State, y: string, since: Since, now: int, x: string)
    requires Inv(s) && y !in s.conns && x in s.registered && y in AttachStep(s, y, since, now).registered
    ensures Precedes(AttachStep(s, y, since, now).registered, x, y)
    ensures x in AttachStep(s, y, since, now).conns && y in AttachStep(s, y, since, now).conns
  {
    hide ConnOk;
    RegisteredIsKnown(s, x);
    if y in s.registered {
      RegisteredIsKnown(s, y);
    } else {
      AppendKeepsOrder(s.registered, y, x, y);
    }
  }

  lemma RefusedStaysOff(s: State, y: string, since: Since, now: int)
    requires y !in AttachStep(s, y, since, now).registered
    ensures AttachStep(s, y, since, now) == s
  {
  }

  /** A connection that comes in later still stands behind those already there. */
  lemma {:induction false} NotRefused(s: State, acts: seq<Action>, x: string, y: string)
    requires Inv(s) && Allowed(s, acts) && x in s.registered && y !in s.conns
    requires x in Run(s, acts).registered && y in Run(s, acts).registered
    ensures Precedes(Run(s, acts).registered, x, y)
    decreases |acts|
  {
    hide Inv, Apply, Enabled, Precedes;
    RegisteredIsKnown(s, x);
    if acts != [] {
      var t := Apply(s, acts[0]);
      StepKeepsInv(s, acts[0]);
      KnownStaysKnown(s, acts[0], x);
      KnownStaysKnown(s, acts[0], y);
      if x !in t.registered {
        OffForGood(t, acts[1..], x);
      } else if y !in t.conns {
        NotRefused(t, acts[1..], x, y);
      } else {
        ComesByAttach(s, acts[0], y);
        AttachIs(s, acts[0]);
        NewcomerIsLast(s, y, acts[0].since, acts[0].now, x);
        OrderRun(t, acts[1..], x, y);
      }
    } else {
      RegisteredIsKnown(s, y);
    }
  }

  lemma ComesByAttach(s: State, a: Action, y: string)
    requires Enabled(s, a) && y !in s.conns && y in Apply(s, a).conns
    ensures a.Attach? && a.id == y && y in Apply(s, a).registered
  {
    hide Apply;
    PhaseStep(s, a, y);
    ComesRegistered(s, a, y);
  }

  lemma AttachIs(s: State, a: Action)
    requires a.Attach? && Enabled(s, a)
    ensures Apply(s, a) == AttachStep(s, a.id, a.since, a.now)
  {
  }

  // -- getting to the end ---------------------------------------------------------------------------------

  function Times(a: Action, n: nat): seq<Action> {
    if n == 0 then [] else [a] + Times(a, n - 1)
  }

  lemma DropStays(s: State, id: string)
    ensures Drop(s, id).sweep == s.sweep && Drop(s, id).closing == s.closing
  {
    hide Without;
  }

  lemma {:induction false} SweepRuns(s: State)
    requires s.sweep.Sweep?
    ensures var acts := Times(ReapNext, |s.sweep.todo|);
      Allowed(s, acts) && var t := Run(s, acts); t.sweep == Sweep(s.sweep.deadline, s.sweep.listed, [])
    decreases |s.sweep.todo|
  {
    hide Drop;
    if s.sweep.todo != [] {
      DropStays(s, s.sweep.todo[0]);
      var acts := Times(ReapNext, |s.sweep.todo|);
      assert acts[0] == ReapNext && acts[1..] == Times(ReapNext, |s.sweep.todo| - 1);
      SweepRuns(Apply(s, ReapNext));
    }
  }

  lemma {:induction false} CloseRuns(s: State)
    requires s.closing.Leaving?
    ensures var acts := Times(CloseNext, |s.closing.todo|);
      Allowed(s, acts) && var t := Run(s, acts); t.closing == Leaving([])
    decreases |s.closing.todo|
  {
    hide Drop;
    if s.closing.todo != [] {
      DropStays(s, s.closing.todo[0]);
      var acts := Times(CloseNext, |s.closing.todo|);
      assert acts[0] == CloseNext && acts[1..] == Times(CloseNext, |s.closing.todo| - 1);
      CloseRuns(Apply(s, CloseNext));
    }
  }

  /** A sweep ends behind one drop for each connection it listed, whereupon the next can begin;
      so does `close`, which lists everybody registered, and nobody is registered any more. */
  lemma SweepAndCloseEnd(s: State)
    requires Inv(s) && WatchOk(s)
    ensures s.sweep.Sweep? ==>
      var acts := Times(ReapNext, |s.sweep.todo|);
      Allowed(s, acts) && var t := Run(s, acts);
      Enabled(t, ReapEnd) && Apply(t, ReapEnd).sweep == NoSweep
    ensures s.closing.Awaiting? ==> Enabled(s, CloseList) && Apply(s, CloseList).closing == Leaving(s.registered)
    ensures s.closing.Leaving? ==>
      var acts := Times(CloseNext, |s.closing.todo|);
      Allowed(s, acts) && var t := Run(s, acts);
      Enabled(t, CloseEnd) && Apply(t, CloseEnd).closing == Emptied && t.registered == []
  {
    hide Run, Allowed, Inv, WatchOk;
    if s.sweep.Sweep? {
      SweepRuns(s);
    }
    if s.closing.Leaving? {
      CloseRuns(s);
      var acts := Times(CloseNext, |s.closing.todo|);
      RunKeepsWatch(s, acts);
      NobodyLeft(Run(s, acts));
    }
  }

  lemma NobodyLeft(s: State)
    requires WatchOk(s) && s.closing == Leaving([])
    ensures s.registered == []
  {
    OnlyListed(s.registered, s.closing.todo);
  }

  lemma OnlyListed(ids: seq<string>, todo: seq<string>)
    requires forall x | x in ids :: x in todo
    ensures todo == [] ==> ids == []
  {
    if ids != [] {
      assert ids[0] in ids && ids[0] in todo;
    }
  }

  /** How far a fanout has still to go. */
  function FanWork(f: Fan): nat {
    match f
    case NoFan => 0
    case Fan(_, todo, stage) =>
      3 + 3 * |todo| - match stage case Picking => 0 case Waiting => 1 case Sending => 2
  }

  lemma FanStepNearer(s: State, a: Action)
    requires s.fan.Fan?
    ensures Enabled(s, a) && (a.FanPick? || a.FanLock? || a.FanSend? || a.FanEnd? || a.FanAbort?) ==>
      FanWork(Apply(s, a).fan) < FanWork(s.fan)
    ensures Enabled(s, FanAbort) && Apply(s, FanAbort).fan == NoFan
    ensures Enabled(s, FanEnd) ==> Apply(s, FanEnd).fan == NoFan
  {
    hide Without, Above, Silent;
  }

  lemma SomeFanStep(s: State)
    requires Inv(s) && s.fan.Fan?
    ensures s.fan.todo == [] ==> Enabled(s, FanEnd)
    ensures s.fan.todo != [] ==>
      Enabled(s, FanPick) || Enabled(s, FanLock) || Enabled(s, FanSend(true))
      || (s.fan.stage.Waiting? && Current(s) in s.conns && Locked(s.conns[Current(s)].phase))
  {
    hide ConnOk;
  }

  /** Every step of a fanout brings it nearer to its end, and one is always possible unless it
      waits for a lock, which the replay that holds it gives back at its own end. */
  lemma FanGoesOn(s: State, a: Action)
    requires Inv(s) && s.fan.Fan?
    ensures Enabled(s, a) && (a.FanPick? || a.FanLock? || a.FanSend? || a.FanEnd? || a.FanAbort?) ==>
      FanWork(Apply(s, a).fan) < FanWork(s.fan)
    ensures Enabled(s, FanPick) || Enabled(s, FanLock) || Enabled(s, FanSend(true)) || Enabled(s, FanEnd)
      || (s.fan.stage.Waiting? && Current(s) in s.conns && Locked(s.conns[Current(s)].phase))
    ensures s.fan.todo == [] ==> Enabled(s, FanEnd) && Apply(s, FanEnd).fan == NoFan
    ensures Enabled(s, FanAbort) && Apply(s, FanAbort).fan == NoFan
  {
    hide Inv, FanWork, Apply;
    FanStepNearer(s, a);
    SomeFanStep(s);
  }

  /** The steps a replay can take by itself until it gives its lock back. */
  lemma LockIsGivenBack(s: State, id: string)
    requires Inv(s) && id in s.conns && Locked(s.conns[id].phase)
    ensures Enabled(s, ReadTape(id)) || Enabled(s, ReplayNext(id, true)) || Enabled(s, LeaveReplay(id))
    ensures Enabled(s, ReplayNext(id, true)) && s.conns[id].phase.k == |s.conns[id].missed| ==>
      !Locked(Apply(s, ReplayNext(id, true)).conns[id].phase)
    ensures Enabled(s, LeaveReplay(id)) ==> !Locked(Apply(s, LeaveReplay(id)).conns[id].phase)
  {
    hide Expected, Above;
    KnownIsOk(s, id);
  }
}
