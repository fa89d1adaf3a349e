/** Connections of one session: replay of missed entries under the connection's own
    lock, live fanout, heartbeats and sweeps, closing, and detaching for any reason at
    any moment. One step per stretch of code between two awaits; fanouts come one after
    another, as the bus delivers a session's events, and so do sweeps. */
module SessionFanout {
  import opened Common

  datatype Message = Entry(id: int) | Done(replayed: nat) | Live(event: nat)

  /** Where `attach` stands, with the number of entries sent. `Reading`, `Replaying` and
      `Failing` hold the connection's lock; `Failed` is behind a send that raised;
      `Aborted` behind a cancellation or a tape read that raised, where nobody takes the
      connection off the registry; `Open` is past the replay or never had one. */
  datatype Phase =
    | Reading
    | Replaying(k: nat)
    | Failing(k: nat)
    | Failed(k: nat)
    | Aborted(k: nat)
    | Open

  /** `missed` is what the replay read; `joined` the number of the first fanout begun
      after the connection came in; `live` the fanouts that got through to it. */
  datatype Conn = Conn(since: Since, phase: Phase, missed: seq<int>, joined: nat, live: seq<nat>, sent: seq<Message>)

  datatype Since = Never | After(id: int)

  datatype Stage = Picking | Waiting | Sending

  datatype Fan = NoFan | Fan(event: nat, todo: seq<string>, stage: Stage)

  datatype Life = Attached(id: string) | Detached(id: string)

  /** A sweep under way: the ids it listed, and those it still has to drop. */
  datatype Sweep = NoSweep | Sweep(deadline: int, listed: seq<string>, todo: seq<string>)

  /** `close` waits for the sweeper to end, then goes through everybody registered. */
  datatype Closing = NotClosing | Awaiting | Leaving(todo: seq<string>) | Emptied

  datatype State = State(
    cap: nat,
    tape: seq<int>,
    conns: map<string, Conn>,
    registered: seq<string>,
    closed: bool,
    fan: Fan,
    next: nat,
    lastSeen: map<string, int>,
    sweep: Sweep,
    closing: Closing,
    log: seq<Life>
  )

  function Init(cap: nat): State {
    State(cap, [], map[], [], false, NoFan, 0, map[], NoSweep, NotClosing, [])
  }

  datatype Action =
    | Persist
    | Attach(id: string, since: Since, now: int)
    | ReadTape(id: string)
    | ReplayNext(id: string, ok: bool)
    | LeaveReplay(id: string)
    | AbortAttach(id: string)
    | Detach(id: string)
    | FanBegin
    | FanPick
    | FanLock
    | FanSend(ok: bool)
    | FanAbort
    | FanEnd
    | Heartbeat(id: string, now: int)
    | ReapBegin(deadline: int)
    | ReapNext
    | ReapEnd
    | Close
    | CloseList
    | CloseNext
    | CloseEnd

  /** The replay is under way. */
  predicate Midway(p: Phase) {
    p.Reading? || p.Replaying?
  }

  function SentOf(p: Phase): nat
    requires !p.Open?
  {
    if p.Reading? then 0 else p.k
  }

  predicate Locked(p: Phase) {
    p.Reading? || p.Replaying? || p.Failing?
  }

  function Without(ids: seq<string>, id: string): seq<string> {
    if ids == [] then [] else (if ids[0] == id then [] else [ids[0]]) + Without(ids[1..], id)
  }

  function Above(tape: seq<int>, since: int): seq<int> {
    if tape == [] then [] else
    Above(tape[..|tape| - 1], since) + if tape[|tape| - 1] > since then [tape[|tape| - 1]] else []
  }

  predicate Enabled(s: State, a: Action) {
    match a
    case Attach(id, _, _) => id !in s.conns
    case ReadTape(id) => id in s.conns && s.conns[id].phase.Reading? && s.conns[id].since.After?
    case ReplayNext(id, _) => id in s.conns && s.conns[id].phase.Replaying? &&
        s.conns[id].phase.k <= |s.conns[id].missed|
    case LeaveReplay(id) => id in s.conns && s.conns[id].phase.Failing?
    case AbortAttach(id) => id in s.conns && Midway(s.conns[id].phase)
    case FanBegin => s.fan.NoFan?
    case FanPick => s.fan.Fan? && s.fan.todo != [] && s.fan.stage.Picking?
    case FanLock => s.fan.Fan? && s.fan.todo != [] && s.fan.stage.Waiting? && Current(s) in s.conns &&
        !Locked(s.conns[Current(s)].phase)
    case FanSend(_) => s.fan.Fan? && s.fan.todo != [] && s.fan.stage.Sending? && Current(s) in s.conns
    case FanAbort => s.fan.Fan?
    case FanEnd => s.fan.Fan? && s.fan.todo == []
    case ReapBegin(_) => s.sweep.NoSweep?
    case ReapNext => s.sweep.Sweep? && s.sweep.todo != []
    case ReapEnd => s.sweep.Sweep? && s.sweep.todo == []
    case CloseList => s.closing.Awaiting?
    case CloseNext => s.closing.Leaving? && s.closing.todo != []
    case CloseEnd => s.closing.Leaving? && s.closing.todo == []
    case _ => true
  }

  function Current(s: State): string
    requires s.fan.Fan? && s.fan.todo != []
  {
    s.fan.todo[0]
  }

  /** Off the registry and taken leave of, there or not. */
  function Expel(s: State, id: string): State {
    s.(registered := Without(s.registered, id), log := s.log + [Detached(id)])
  }

  function Drop(s: State, id: string): State {
    if id in s.registered then Expel(s, id) else s
  }

  /** Those last seen before the deadline. */
  function Silent(ids: seq<string>, lastSeen: map<string, int>, deadline: int): seq<string> {
    if ids == [] then [] else
    Silent(ids[..|ids| - 1], lastSeen, deadline) +
    var id := ids[|ids| - 1]; if id in lastSeen && lastSeen[id] < deadline then [id] else []
  }

  function AttachStep(s: State, id: string, since: Since, now: int): State {
    if s.closed || |s.registered| >= s.cap then s
    else
      s.(registered := s.registered + [id],
         conns := s.conns[id := Conn(since, if since.After? then Reading else Open, [], s.next, [], [])],
         lastSeen := s.lastSeen[id := now],
         log := if since.After? then s.log else s.log + [Attached(id)])
  }

  /** One send of the replay: the next entry, or `replay.done` behind the last. A send
      that raises expels the connection without asking whether it is still registered. */
  function ReplayStep(s: State, id: string, ok: bool): State
    requires id in s.conns && s.conns[id].phase.Replaying? && s.conns[id].phase.k <= |s.conns[id].missed|
  {
    var c := s.conns[id];
    var k := c.phase.k;
    if !ok then Expel(s, id).(conns := s.conns[id := c.(phase := Failing(k))])
    else if k < |c.missed| then s.(conns := s.conns[id := c.(phase := Replaying(k + 1),
        sent := c.sent + [Entry(c.missed[k])])])
    else s.(conns := s.conns[id := c.(phase := Open, sent := c.sent + [Done(|c.missed|)])],
        log := s.log + [Attached(id)])
  }

  function PickStep(s: State): State
    requires s.fan.Fan? && s.fan.todo != []
  {
    if Current(s) in s.registered then s.(fan := s.fan.(stage := Waiting))
    else s.(fan := Fan(s.fan.event, s.fan.todo[1..], Picking))
  }

  function SendStep(s: State, ok: bool): State
    requires s.fan.Fan? && s.fan.todo != [] && Current(s) in s.conns
  {
    var id, n := Current(s), s.fan.event;
    var c := s.conns[id];
    var t := if ok then s.(conns := s.conns[id := c.(live := c.live + [n],
        sent := c.sent + [Live(n)])]) else Drop(s, id);
    t.(fan := Fan(n, s.fan.todo[1..], Picking))
  }

  function ReapStep(s: State, deadline: int): State {
    if s.closed then s
    else
      var silent := Silent(s.registered, s.lastSeen, deadline);
      s.(sweep := Sweep(deadline, silent, silent))
  }

  function Apply(s: State, a: Action): State
    requires Enabled(s, a)
  {
    match a
    case Persist => s.(tape := s.tape + [|s.tape| + 1])
    case Attach(id, since, now) => AttachStep(s, id, since, now)
    case ReadTape(id) =>
      s.(conns := s.conns[id := s.conns[id].(phase := Replaying(0), missed := Above(s.tape, s.conns[id].since.id))])
    case ReplayNext(id, ok) => ReplayStep(s, id, ok)
    case AbortAttach(id) =>
      s.(conns := s.conns[id := s.conns[id].(phase := Aborted(SentOf(s.conns[id].phase)))])
    case LeaveReplay(id) => s.(conns := s.conns[id := s.conns[id].(phase := Failed(s.conns[id].phase.k))])
    case Detach(id) => Drop(s, id)
    case FanBegin => if s.closed then s else s.(fan := Fan(s.next, s.registered, Picking), next := s.next + 1)
    case FanPick => PickStep(s)
    case FanLock => s.(fan := s.fan.(stage := Sending))
    case FanSend(ok) => SendStep(s, ok)
    case FanAbort => s.(fan := NoFan)
    case FanEnd => s.(fan := NoFan)
    case Heartbeat(id, now) => if id in s.registered then s.(lastSeen := s.lastSeen[id := now]) else s
    case ReapBegin(deadline) => ReapStep(s, deadline)
    case ReapNext => Drop(s, s.sweep.todo[0]).(sweep := s.sweep.(todo := s.sweep.todo[1..]))
    case ReapEnd => s.(sweep := NoSweep)
    case Close => if s.closed then s else s.(closed := true, sweep := NoSweep, closing := Awaiting)
    case CloseList => s.(closing := Leaving(s.registered))
    case CloseNext => Drop(s, s.closing.todo[0]).(closing := Leaving(s.closing.todo[1..]))
    case CloseEnd => s.(closing := Emptied)
  }

  predicate Allowed(s: State, acts: seq<Action>)
    decreases |acts|
  {
    acts == [] || (Enabled(s, acts[0]) && Allowed(Apply(s, acts[0]), acts[1..]))
  }

  function Run(s: State, acts: seq<Action>): State
    requires Allowed(s, acts)
    decreases |acts|
  {
    if acts == [] then s else Run(Apply(s, acts[0]), acts[1..])
  }

  // -- what a connection has been sent ---------------------------------------------------------------

  function Entries(ids: seq<int>): seq<Message> {
    seq(|ids|, i requires 0 <= i < |ids| => Entry(ids[i]))
  }

  function Lives(events: seq<nat>): seq<Message> {
    seq(|events|, i requires 0 <= i < |events| => Live(events[i]))
  }

  /** The entries of the replay so far, `replay.done` once they are all out, and live
      events only behind the replay or what was left of it. */
  function Expected(c: Conn): seq<Message>
    requires !c.phase.Open? ==> SentOf(c.phase) <= |c.missed|
  {
    match c.phase
    case Reading => []
    case Replaying(k) => Entries(c.missed[..k])
    case Failing(k) => Entries(c.missed[..k])
    case Failed(k) => Entries(c.missed[..k]) + Lives(c.live)
    case Aborted(k) => Entries(c.missed[..k]) + Lives(c.live)
    case Open => (if c.since.After? then Entries(c.missed) + [Done(|c.missed|)] else []) + Lives(c.live)
  }

  predicate Ascending(events: seq<nat>) {
    forall i, j | 0 <= i < j < |events| :: events[i] < events[j]
  }

  /** The fanout number up to which a connection has been served. */
  function Served(s: State, id: string): nat {
    if s.fan.Fan? && id in s.fan.todo then s.fan.event else s.next
  }

  function AtConn(s: State, id: string): nat {
    if s.fan.Fan? && !s.fan.stage.Picking? && s.fan.todo != [] && s.fan.todo[0] == id then 1 else 0
  }

  predicate ConnOk(s: State, id: string, c: Conn) {
    && (!c.phase.Open? ==> SentOf(c.phase) <= |c.missed|)
    && c.sent == Expected(c)
    && (Locked(c.phase) ==> c.live == [])
    && (c.since.Never? ==> c.phase.Open? && c.missed == [])
    && (c.phase.Failing? || c.phase.Failed? ==> id !in s.registered && |c.live| + AtConn(s, id) <= 1)
    && (c.phase.Reading? ==> c.missed == [])
    && (c.since.After? && !c.phase.Reading? ==> c.missed <= Above(s.tape, c.since.id))
    && c.joined <= Served(s, id)
    && Ascending(c.live) && (forall i | 0 <= i < |c.live| :: c.joined <= c.live[i] < Served(s, id))
  }

  predicate Distinct(ids: seq<string>) {
    forall i, j | 0 <= i < j < |ids| :: ids[i] != ids[j]
  }

  predicate FanOk(s: State) {
    s.fan.Fan? ==>
      && s.fan.event < s.next && Distinct(s.fan.todo)
      && (forall i | 0 <= i < |s.fan.todo| :: s.fan.todo[i] in s.conns)
      && (s.fan.stage.Sending? ==> s.fan.todo != [] && !Locked(s.conns[s.fan.todo[0]].phase))
  }

  predicate RegistryOk(s: State) {
    && |s.registered| <= s.cap && Distinct(s.registered)
    && (forall i | 0 <= i < |s.registered| :: s.registered[i] in s.conns)
  }

  ghost predicate Inv(s: State) {
    && RegistryOk(s) && FanOk(s)
    && (forall id | id in s.conns :: ConnOk(s, id, s.conns[id]))
  }

  // -- small facts -------------------------------------------------------------------------------------

  lemma {:induction false} WithoutFacts(ids: seq<string>, id: string)
    ensures |Without(ids, id)| <= |ids|
    ensures forall x :: x in Without(ids, id) <==> x in ids && x != id
    ensures Distinct(ids) ==> Distinct(Without(ids, id))
  {
    if ids != [] {
      WithoutFacts(ids[1..], id);
      var w := Without(ids[1..], id);
      assert forall x :: x in ids <==> x == ids[0] || x in ids[1..];
      if Distinct(ids) {
        assert ids[0] !in ids[1..];
        assert forall i | 0 <= i < |w| :: w[i] in w;
      }
    }
  }

  lemma {:induction false} WithoutStranger(ids: seq<string>, id: string)
    requires id !in ids
    ensures Without(ids, id) == ids
  {
    if ids != [] {
      WithoutStranger(ids[1..], id);
    }
  }

  lemma AboveAppend(tape: seq<int>, x: int, since: int)
    ensures Above(tape, since) <= Above(tape + [x], since)
  {
    assert (tape + [x])[..|tape|] == tape;
  }

  lemma LivesAppend(events: seq<nat>, n: nat)
    ensures Lives(events + [n]) == Lives(events) + [Live(n)]
  {
  }

  lemma EntriesNext(ids: seq<int>, k: nat)
    requires k < |ids|
    ensures Entries(ids[..k + 1]) == Entries(ids[..k]) + [Entry(ids[k])]
  {
    assert ids[..k + 1] == ids[..k] + [ids[k]];
  }

  // -- one step ----------------------------------------------------------------------------------------

  /** A connection the step does not touch. */
  lemma ConnSame(s: State, t: State, id: string, c: Conn)
    requires ConnOk(s, id, c)
    requires Served(s, id) <= Served(t, id) && AtConn(t, id) <= AtConn(s, id)
    requires id in t.registered ==> id in s.registered
    requires c.since.After? ==> Above(s.tape, c.since.id) <= Above(t.tape, c.since.id)
    ensures ConnOk(t, id, c)
  {
  }

  lemma DropFacts(s: State, id: string)
    requires Inv(s)
    ensures Inv(Drop(s, id)) && id !in Drop(s, id).registered
  {
    hide ConnOk;
    var t := Drop(s, id);
    WithoutFacts(s.registered, id);
    forall i | 0 <= i < |t.registered| ensures t.registered[i] in s.conns {
      assert t.registered[i] in t.registered;
    }
    forall x | x in s.conns ensures ConnOk(t, x, s.conns[x]) {
      ConnSame(s, t, x, s.conns[x]);
    }
  }

  lemma ExpelFacts(s: State, id: string)
    requires Inv(s)
    ensures Inv(Expel(s, id)) && id !in Expel(s, id).registered
    ensures Expel(s, id).registered == Drop(s, id).registered
  {
    hide ConnOk;
    DropFacts(s, id);
    if id !in s.registered {
      WithoutStranger(s.registered, id);
      FanOnlyKeeps(s, Expel(s, id));
    }
  }

  /** Steps that keep the connections and the registry and serve nobody less. */
  lemma OthersSame(s: State, t: State, id: string)
    requires Inv(s)
    requires t.conns.Keys == s.conns.Keys && forall x | x in s.conns && x != id :: t.conns[x] == s.conns[x]
    requires forall x | x in s.conns && x != id :: Served(s, x) <= Served(t, x) && AtConn(t, x) <= AtConn(s, x)
    requires t.registered == s.registered && t.tape == s.tape
    ensures forall x | x in t.conns && x != id :: ConnOk(t, x, t.conns[x])
  {
    hide ConnOk;
    forall x | x in t.conns && x != id ensures ConnOk(t, x, t.conns[x]) {
      ConnSame(s, t, x, s.conns[x]);
    }
  }

  lemma PersistKeeps(s: State)
    requires Inv(s)
    ensures Inv(Apply(s, Persist))
  {
    hide ConnOk;
    var t := Apply(s, Persist);
    forall x | x in t.conns ensures ConnOk(t, x, t.conns[x]) {
      if s.conns[x].since.After? {
        AboveAppend(s.tape, |s.tape| + 1, s.conns[x].since.id);
      }
      ConnSame(s, t, x, s.conns[x]);
    }
  }

  lemma NewConn(s: State, id: string, since: Since, now: int)
    requires id !in s.registered && FanOk(s) && id !in s.conns && !s.closed && |s.registered| < s.cap
    ensures ConnOk(AttachStep(s, id, since, now), id, AttachStep(s, id, since, now).conns[id])
  {
  }

  lemma AttachKeeps(s: State, id: string, since: Since, now: int)
    requires Inv(s) && id !in s.conns
    ensures Inv(AttachStep(s, id, since, now))
  {
    hide ConnOk;
    var t := AttachStep(s, id, since, now);
    if !s.closed && |s.registered| < s.cap {
      NewConn(s, id, since, now);
      forall x | x in s.conns ensures ConnOk(t, x, t.conns[x]) {
        ConnSame(s, t, x, s.conns[x]);
      }
    }
  }

  lemma ReadConn(s: State, id: string)
    requires Enabled(s, ReadTape(id)) && ConnOk(s, id, s.conns[id])
    ensures ConnOk(Apply(s, ReadTape(id)), id, Apply(s, ReadTape(id)).conns[id])
  {
    hide Above;
    var c := Apply(s, ReadTape(id)).conns[id];
    assert c.missed[..0] == [];
  }

  lemma ReadKeeps(s: State, id: string)
    requires Inv(s) && Enabled(s, ReadTape(id))
    ensures Inv(Apply(s, ReadTape(id)))
  {
    hide Above, ConnOk;
    ReadConn(s, id);
    OthersSame(s, Apply(s, ReadTape(id)), id);
  }

  lemma ReplayedConn(s: State, id: string)
    requires Enabled(s, ReplayNext(id, true)) && ConnOk(s, id, s.conns[id])
    ensures ConnOk(ReplayStep(s, id, true), id, ReplayStep(s, id, true).conns[id])
  {
    hide Above, Entries;
    var c := s.conns[id];
    if c.phase.k < |c.missed| {
      EntriesNext(c.missed, c.phase.k);
    } else {
      assert c.missed[..c.phase.k] == c.missed;
      assert Lives([]) == [];
    }
  }

  lemma FailedConn(s: State, u: State, id: string)
    requires Enabled(s, ReplayNext(id, false)) && ConnOk(u, id, s.conns[id])
    requires u == Expel(s, id) && id !in u.registered
    ensures ConnOk(ReplayStep(s, id, false), id, ReplayStep(s, id, false).conns[id])
  {
    hide Above, Entries;
  }

  lemma ReplayKeeps(s: State, id: string, ok: bool)
    requires Inv(s) && Enabled(s, ReplayNext(id, ok))
    ensures Inv(ReplayStep(s, id, ok))
  {
    hide ConnOk;
    var t := ReplayStep(s, id, ok);
    if !ok {
      ExpelFacts(s, id);
      FailedConn(s, Expel(s, id), id);
      OthersSame(Expel(s, id), t, id);
    } else {
      ReplayedConn(s, id);
      OthersSame(s, t, id);
    }
  }

  lemma LeftConn(s: State, id: string)
    requires Enabled(s, LeaveReplay(id)) && ConnOk(s, id, s.conns[id])
    ensures ConnOk(Apply(s, LeaveReplay(id)), id, Apply(s, LeaveReplay(id)).conns[id])
  {
    hide Above, Entries;
    var c := s.conns[id];
    assert Entries(c.missed[..c.phase.k]) + Lives([]) == Entries(c.missed[..c.phase.k]);
  }

  lemma LeaveKeeps(s: State, id: string)
    requires Inv(s) && Enabled(s, LeaveReplay(id))
    ensures Inv(Apply(s, LeaveReplay(id)))
  {
    hide ConnOk;
    LeftConn(s, id);
    OthersSame(s, Apply(s, LeaveReplay(id)), id);
  }

  lemma AbortedConn(s: State, id: string)
    requires Enabled(s, AbortAttach(id)) && ConnOk(s, id, s.conns[id])
    ensures ConnOk(Apply(s, AbortAttach(id)), id, Apply(s, AbortAttach(id)).conns[id])
  {
    hide Above, Entries;
    var c := s.conns[id];
    NoEntries(c.missed);
    assert Entries(c.missed[..SentOf(c.phase)]) + Lives([]) == Entries(c.missed[..SentOf(c.phase)]);
  }

  lemma NoEntries(ids: seq<int>)
    ensures Entries(ids[..0]) == []
  {
  }

  lemma AbortKeeps(s: State, id: string)
    requires Inv(s) && Enabled(s, AbortAttach(id))
    ensures Inv(Apply(s, AbortAttach(id)))
  {
    hide ConnOk;
    AbortedConn(s, id);
    OthersSame(s, Apply(s, AbortAttach(id)), id);
  }

  lemma FanOnlyKeeps(s: State, t: State)
    requires Inv(s) && FanOk(t)
    requires t.conns == s.conns && t.registered == s.registered && t.tape == s.tape && t.cap == s.cap
    requires forall x | x in s.conns :: Served(s, x) <= Served(t, x)
    requires forall x | x in s.conns :: AtConn(t, x) <= AtConn(s, x) || (AtConn(t, x) <= 1 && x in s.registered)
    ensures Inv(t)
  {
    forall x | x in t.conns ensures ConnOk(t, x, t.conns[x]) {
      assert ConnOk(s, x, s.conns[x]);
    }
  }

  lemma TailDistinct(ids: seq<string>)
    requires Distinct(ids) && ids != []
    ensures Distinct(ids[1..]) && ids[0] !in ids[1..]
    ensures forall x :: x in ids <==> x == ids[0] || x in ids[1..]
    ensures forall i | 0 <= i < |ids| - 1 :: ids[1..][i] == ids[i + 1]
  {
    assert ids == [ids[0]] + ids[1..];
  }

  lemma PickKeeps(s: State)
    requires Inv(s) && Enabled(s, FanPick)
    ensures Inv(PickStep(s))
  {
    hide ConnOk;
    TailDistinct(s.fan.todo);
    FanOnlyKeeps(s, PickStep(s));
  }

  lemma SendKeeps(s: State, ok: bool)
    requires Inv(s) && Enabled(s, FanSend(ok))
    ensures Inv(SendStep(s, ok))
  {
    hide ConnOk;
    var t := SendStep(s, ok);
    var id := Current(s);
    TailDistinct(s.fan.todo);
    if ok {
      SentKeeps(s, id, s.fan.event);
      OthersSame(s, t, id);
    } else {
      DropFacts(s, id);
      FanOnlyKeeps(Drop(s, id), t);
    }
  }

  lemma SentKeeps(s: State, id: string, n: nat)
    requires FanOk(s) && Enabled(s, FanSend(true)) && id == Current(s) && n == s.fan.event
    requires ConnOk(s, id, s.conns[id])
    requires id !in s.fan.todo[1..]
    ensures ConnOk(SendStep(s, true), id, SendStep(s, true).conns[id])
  {
    hide Above, Entries, Lives;
    var t := SendStep(s, true);
    var c := s.conns[id];
    assert !Locked(c.phase);
    LivesAppend(c.live, n);
    if c.phase.Open? {
      Regroup(if c.since.After? then Entries(c.missed) + [Done(|c.missed|)] else [], Lives(c.live), [Live(n)]);
    } else {
      Regroup(Entries(c.missed[..SentOf(c.phase)]), Lives(c.live), [Live(n)]);
    }
    assert t.conns[id].sent == Expected(t.conns[id]);
  }

  lemma StepKeepsInv(s: State, a: Action)
    requires Inv(s) && Enabled(s, a)
    ensures Inv(Apply(s, a))
  {
    hide ConnOk;
    if a.Persist? { PersistKeeps(s); }
    else if a.Attach? { AttachKeeps(s, a.id, a.since, a.now); }
    else if a.ReadTape? { ReadKeeps(s, a.id); }
    else if a.ReplayNext? { ReplayKeeps(s, a.id, a.ok); }
    else if a.LeaveReplay? { LeaveKeeps(s, a.id); }
    else if a.AbortAttach? { AbortKeeps(s, a.id); }
    else if a.Detach? { DropFacts(s, a.id); }
    else if a.FanPick? { PickKeeps(s); }
    else if a.FanSend? { SendKeeps(s, a.ok); }
    else if a.ReapNext? || a.CloseNext? {
      var id := if a.ReapNext? then s.sweep.todo[0] else s.closing.todo[0];
      DropFacts(s, id);
      FanOnlyKeeps(Drop(s, id), Apply(s, a));
    } else { FanOnlyKeeps(s, Apply(s, a)); }
  }

  lemma {:induction false} RunKeepsInv(s: State, acts: seq<Action>)
    requires Inv(s) && Allowed(s, acts)
    ensures Inv(Run(s, acts))
    decreases |acts|
  {
    hide Inv, Apply, Enabled;
    if acts != [] {
      StepKeepsInv(s, acts[0]);
      RunKeepsInv(Apply(s, acts[0]), acts[1..]);
    }
  }
}
