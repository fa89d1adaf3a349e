/** Correlation of responses with the requests that await them, and the request's
    own life: tracked, resolved by an event, or left by timeout or cancellation. */
module RequestTracker {

  /** `Resolved(source)` records the request id the completing event carried. */
  datatype Outcome = Open | Resolved(source: string) | CancelledOutcome

  /** A future and the request it was created for. */
  datatype Future = Future(owner: string, outcome: Outcome)

  /** What became of each request the loop ever issued, by id. */
  datatype Request = Awaiting(fut: nat) | Returned(fut: nat) | Abandoned(fut: nat)

  datatype State = State(
    pending: map<string, nat>,
    deltas: map<string, string>,
    futures: seq<Future>,
    requests: map<string, Request>
  )

  const Init := State(map[], map[], [], map[])

  datatype Action =
    | Issue(id: string, sid: string)
    | Response(id: string)
    | Malformed
    | Return(id: string)
    | Leave(id: string, awaited: bool)
    | CancelAll

  function Complete(fs: seq<Future>, f: nat, o: Outcome): seq<Future>
    requires f < |fs|
  {
    fs[f := fs[f].(outcome := o)]
  }

  function Track(s: State, id: string, sid: string): State {
    s.(pending := s.pending[id := |s.futures|], deltas := s.deltas[id := sid],
       futures := s.futures + [Future(id, Open)], requests := s.requests[id := Awaiting(|s.futures|)])
  }

  function Resolve(s: State, id: string): State {
    var dropped := s.(pending := s.pending - {id}, deltas := s.deltas - {id});
    if id in s.pending && s.pending[id] < |s.futures| && s.futures[s.pending[id]].outcome.Open?
    then dropped.(futures := Complete(s.futures, s.pending[id], Resolved(id)))
    else dropped
  }

  /** The asking side gives up: its id is forgotten, and its future cancelled if it was
      awaited already. If the publish before that failed, nobody ever completes it. */
  function Discard(s: State, id: string, awaited: bool): State
    requires id in s.requests && s.requests[id].fut < |s.futures|
  {
    var f := s.requests[id].fut;
    s.(pending := s.pending - {id}, deltas := s.deltas - {id},
       futures := if awaited && s.futures[f].outcome.Open? then Complete(s.futures, f, CancelledOutcome) else s.futures,
       requests := s.requests[id := Abandoned(f)])
  }

  function Cancelled(s: State, i: nat): Future
    requires i < |s.futures|
  {
    if i in s.pending.Values && s.futures[i].outcome.Open? then s.futures[i].(outcome := CancelledOutcome)
    else s.futures[i]
  }

  function DropAll(s: State): State {
    s.(pending := map[], deltas := map[],
       futures := seq(|s.futures|, i requires 0 <= i < |s.futures| => Cancelled(s, i)))
  }

  predicate Enabled(s: State, a: Action) {
    match a
    case Issue(id, _) => id !in s.requests
    case Return(id) =>
      id in s.requests && s.requests[id].Awaiting? && s.requests[id].fut < |s.futures|
      && s.futures[s.requests[id].fut].outcome.Resolved?
    case Leave(id, _) => id in s.requests && s.requests[id].Awaiting? && s.requests[id].fut < |s.futures|
    case _ => true
  }

  function Apply(s: State, a: Action): State
    requires Enabled(s, a)
  {
    match a
    case Issue(id, sid) => Track(s, id, sid)
    case Response(id) => Resolve(s, id)
    case Malformed => s
    case Return(id) => s.(requests := s.requests[id := Returned(s.requests[id].fut)])
    case Leave(id, awaited) => Discard(s, id, awaited)
    case CancelAll => DropAll(s)
  }

  ghost predicate Run(s: State, acts: seq<Action>, s': State)
    decreases |acts|
  {
    if acts == [] then s' == s
    else Enabled(s, acts[0]) && Run(Apply(s, acts[0]), acts[1..], s')
  }

  /** Request `id` and its future belong together. */
  predicate RequestOk(s: State, id: string, r: Request) {
    && r.fut < |s.futures| && s.futures[r.fut].owner == id
    && (s.futures[r.fut].outcome.Resolved? ==> s.futures[r.fut].outcome.source == id)
    && (r.Returned? ==> s.futures[r.fut].outcome.Resolved?)
  }

  ghost predicate Inv(s: State) {
    && s.pending.Keys == s.deltas.Keys
    && (forall id | id in s.requests :: RequestOk(s, id, s.requests[id]))
    && (forall id | id in s.pending ::
          id in s.requests && s.requests[id] == Awaiting(s.pending[id]) && s.futures[s.pending[id]].outcome.Open?)
  }

  lemma StepKeepsInv(s: State, a: Action)
    requires Inv(s) && Enabled(s, a)
    ensures Inv(Apply(s, a))
  {
    match a
    case Issue(id, sid) => TrackKeeps(s, id, sid);
    case Response(id) => ResolveKeeps(s, id);
    case Leave(id, awaited) => DiscardKeeps(s, id, awaited);
    case CancelAll => DropAllKeeps(s);
    case Malformed =>
    case Return(id) =>
  }

  lemma TrackKeeps(s: State, id: string, sid: string)
    requires Inv(s) && id !in s.requests
    ensures Inv(Track(s, id, sid))
  {
    var s' := Track(s, id, sid);
    assert s'.futures[|s.futures|] == Future(id, Open);
    assert forall i | 0 <= i < |s.futures| :: s'.futures[i] == s.futures[i];
  }

  lemma ResolveKeeps(s: State, id: string)
    requires Inv(s)
    ensures Inv(Resolve(s, id))
  {
    var s' := Resolve(s, id);
    assert s'.pending.Keys == s'.deltas.Keys;
  }

  lemma DiscardKeeps(s: State, id: string, awaited: bool)
    requires Inv(s) && Enabled(s, Leave(id, awaited))
    ensures Inv(Discard(s, id, awaited))
  {
    var s' := Discard(s, id, awaited);
    assert s'.pending.Keys == s'.deltas.Keys;
  }

  lemma DropAllKeeps(s: State)
    requires Inv(s)
    ensures Inv(DropAll(s))
  {
    assert forall i | 0 <= i < |s.futures| :: DropAll(s).futures[i] == Cancelled(s, i);
  }

  /** A completed future is never completed again, by anything. */
  lemma CompletedOnce(s: State, a: Action, f: nat)
    requires Inv(s) && Enabled(s, a) && f < |s.futures| && !s.futures[f].outcome.Open?
    ensures f < |Apply(s, a).futures| && Apply(s, a).futures[f] == s.futures[f]
  {
  }

  lemma {:induction false} RunKeepsInv(s: State, acts: seq<Action>, s': State)
    requires Inv(s) && Run(s, acts, s')
    ensures Inv(s')
    decreases |acts|
  {
    if acts != [] {
      StepKeepsInv(s, acts[0]);
      RunKeepsInv(Apply(s, acts[0]), acts[1..], s');
    }
  }

  /** In every reachable state: the ids with a pending future are exactly the ids
      with a delta session; a request that has returned or left is in neither, so
      no later delta finds a target; and a request's future is resolved only by an
      event that carried the request's own id. */
  lemma Correlated(acts: seq<Action>, s: State)
    requires Run(Init, acts, s)
    ensures s.pending.Keys == s.deltas.Keys
    ensures forall id | id in s.requests && !s.requests[id].Awaiting? :: id !in s.pending && id !in s.deltas
    ensures forall id | id in s.requests ::
      var r := s.requests[id];
      r.fut < |s.futures| && (s.futures[r.fut].outcome.Resolved? ==> s.futures[r.fut].outcome == Resolved(id))
      && (r.Returned? ==> s.futures[r.fut].outcome == Resolved(id))
  {
    RunKeepsInv(Init, acts, s);
    forall id | id in s.requests && !s.requests[id].Awaiting? ensures id !in s.pending && id !in s.deltas {
      assert id in s.pending.Keys <==> id in s.deltas.Keys;
    }
  }

  // -- what became of a request, from the actions alone ----------------------------------------------

  /** `Known` is waiting for its answer; `Dropped` has been given up, its future cancelled or
      left open for good. */
  datatype Fate = Unknown | Known | Answered | Dropped(cancelled: bool)

  function NextFate(f: Fate, a: Action, id: string): Fate {
    match a
    case Issue(x, _) => if x == id then Known else f
    case Response(x) => if x == id && f.Known? then Answered else f
    case Leave(x, awaited) => if x == id && f.Known? then Dropped(awaited) else f
    case CancelAll => if f.Known? then Dropped(true) else f
    case _ => f
  }

  function FateFrom(f: Fate, acts: seq<Action>, id: string): Fate
    decreases |acts|
  {
    if acts == [] then f else FateFrom(NextFate(f, acts[0], id), acts[1..], id)
  }

  predicate HasFate(s: State, id: string, f: Fate) {
    && (f.Unknown? <==> id !in s.requests)
    && (f.Known? <==> id in s.pending)
    && (f == Dropped(false) && id in s.requests ==> s.requests[id].Abandoned?)
    && (id in s.requests && s.requests[id].fut < |s.futures| ==>
          s.futures[s.requests[id].fut].outcome
            == match f case Answered => Resolved(id) case Dropped(true) => CancelledOutcome case _ => Open)
  }

  lemma IssueFate(s: State, x: string, sid: string, id: string, f: Fate)
    requires Inv(s) && HasFate(s, id, f) && x !in s.requests
    ensures HasFate(Track(s, x, sid), id, NextFate(f, Issue(x, sid), id))
  {
  }

  lemma OneFuture(s: State, id: string, x: string)
    requires Inv(s) && id in s.requests && x in s.requests && id != x
    ensures s.requests[id].fut != s.requests[x].fut
  {
  }

  lemma ResponseFate(s: State, x: string, id: string, f: Fate)
    requires Inv(s) && HasFate(s, id, f)
    ensures HasFate(Resolve(s, x), id, NextFate(f, Response(x), id))
  {
    if id in s.requests && x in s.requests && id != x {
      OneFuture(s, id, x);
    }
  }

  lemma LeaveFate(s: State, x: string, awaited: bool, id: string, f: Fate)
    requires Inv(s) && HasFate(s, id, f) && Enabled(s, Leave(x, awaited))
    ensures HasFate(Discard(s, x, awaited), id, NextFate(f, Leave(x, awaited), id))
  {
    if id in s.requests && id != x {
      OneFuture(s, id, x);
    }
  }

  lemma CancelFate(s: State, id: string, f: Fate)
    requires Inv(s) && HasFate(s, id, f)
    ensures HasFate(DropAll(s), id, NextFate(f, CancelAll, id))
  {
    if id in s.requests {
      var i := s.requests[id].fut;
      assert DropAll(s).futures[i] == Cancelled(s, i);
      if i in s.pending.Values {
        var x :| x in s.pending && s.pending[x] == i;
        assert s.futures[i].owner == x;
      }
      if id in s.pending {
        assert s.pending[id] == i;
      }
    }
  }

  lemma StepFate(s: State, a: Action, id: string, f: Fate)
    requires Inv(s) && Enabled(s, a) && HasFate(s, id, f)
    ensures HasFate(Apply(s, a), id, NextFate(f, a, id))
  {
    hide Inv, Track, Resolve, Discard, DropAll;
    match a
    case Issue(x, sid) => IssueFate(s, x, sid, id, f);
    case Response(x) => ResponseFate(s, x, id, f);
    case Leave(x, awaited) => LeaveFate(s, x, awaited, id, f);
    case CancelAll => CancelFate(s, id, f);
    case Malformed =>
    case Return(x) =>
  }

  lemma {:induction false} RunFate(s: State, acts: seq<Action>, s': State, id: string, f: Fate)
    requires Inv(s) && HasFate(s, id, f) && Run(s, acts, s')
    ensures Inv(s') && HasFate(s', id, FateFrom(f, acts, id))
    decreases |acts|
  {
    hide Inv, Apply, Enabled, HasFate, NextFate;
    if acts != [] {
      StepKeepsInv(s, acts[0]);
      StepFate(s, acts[0], id, f);
      RunFate(Apply(s, acts[0]), acts[1..], s', id, NextFate(f, acts[0], id));
    }
  }

  /** Over every run, from its actions alone: a request that was issued has its future
      resolved if and only if the first thing that happened to it was an event with its id,
      cancelled if it was given up while awaited or with all the others, and open otherwise;
      it can come back exactly if it was answered, and has done so only then. */
  lemma FateIs(acts: seq<Action>, s: State, id: string)
    requires Run(Init, acts, s)
    ensures var f := FateFrom(Unknown, acts, id);
      && (id in s.requests <==> !f.Unknown?) && (id in s.pending <==> f.Known?)
      && (id in s.requests ==>
            && s.requests[id].fut < |s.futures|
            && s.futures[s.requests[id].fut].outcome
                 == (match f case Answered => Resolved(id) case Dropped(true) => CancelledOutcome case _ => Open)
            && (s.requests[id].Awaiting? ==> (Enabled(s, Return(id)) <==> f.Answered?))
            && (s.requests[id].Returned? ==> f.Answered?))
  {
    hide Run;
    RunFate(Init, acts, s, id, Unknown);
  }

  lemma SettleStep(s: State, a: Action, id: string)
    requires Enabled(s, a) && id in Apply(s, a).requests
    ensures Apply(s, a).requests[id].Returned? <==> (id in s.requests && s.requests[id].Returned?) || a == Return(id)
    ensures Apply(s, a).requests[id].Abandoned? <==>
      (id in s.requests && s.requests[id].Abandoned?) || (a.Leave? && a.id == id)
    ensures id in s.requests || (a.Issue? && a.id == id)
  {
  }

  /** Coming back and giving up are final. */
  lemma {:induction false} SettledForGood(s: State, acts: seq<Action>, s': State, id: string)
    requires Run(s, acts, s') && id in s.requests
    ensures id in s'.requests
    ensures s'.requests[id].Returned? <==> s.requests[id].Returned? || Return(id) in acts
    ensures s'.requests[id].Abandoned? <==>
      s.requests[id].Abandoned? || Leave(id, true) in acts || Leave(id, false) in acts
    decreases |acts|
  {
    hide Enabled, Apply;
    if acts != [] {
      assert acts == [acts[0]] + acts[1..];
      StaysKnown(s, acts[0], id);
      SettleStep(s, acts[0], id);
      SettledForGood(Apply(s, acts[0]), acts[1..], s', id);
    }
  }

  lemma StaysKnown(s: State, a: Action, id: string)
    requires Enabled(s, a) && id in s.requests
    ensures id in Apply(s, a).requests
  {
  }

  /** Requests, events and stopping are possible at any time. */
  lemma AlwaysOpen(s: State, id: string, sid: string)
    ensures Enabled(s, Response(id)) && Enabled(s, Malformed) && Enabled(s, CancelAll)
    ensures id !in s.requests ==> Enabled(s, Issue(id, sid))
  {
  }

  lemma DeltaStep(s: State, a: Action, id: string)
    requires Enabled(s, a) && id in Apply(s, a).deltas
    ensures (id in s.deltas && Apply(s, a).deltas[id] == s.deltas[id]) || a == Issue(id, Apply(s, a).deltas[id])
  {
  }

  /** Over every run a streamed delta is forwarded to the session its request was issued for. */
  lemma {:induction false} DeltaIsItsSession(s: State, acts: seq<Action>, s': State, id: string)
    requires Run(s, acts, s') && id in s'.deltas
    ensures (id in s.deltas && s'.deltas[id] == s.deltas[id]) || Issue(id, s'.deltas[id]) in acts
    decreases |acts|
  {
    hide Apply, Enabled;
    if acts != [] {
      assert acts == [acts[0]] + acts[1..];
      DeltaIsItsSession(Apply(s, acts[0]), acts[1..], s', id);
      if id in Apply(s, acts[0]).deltas {
        DeltaStep(s, acts[0], id);
      }
    }
  }

  /** The tracker's two maps, updated in place. */
  class Tracker {
    var pending: map<string, nat>
    var deltaSessions: map<string, string>
    var futures: seq<Future>
    ghost var requests: map<string, Request>

    ghost function View(): State reads this {
      State(pending, deltaSessions, futures, requests)
    }

    constructor ()
      ensures View() == Init
    {
      pending, deltaSessions, futures, requests := map[], map[], [], map[];
    }

    method Issue(id: string, sid: string) returns (fut: nat)
      requires Inv(View()) && Enabled(View(), Action.Issue(id, sid))
      modifies this
      ensures Inv(View()) && View() == Apply(old(View()), Action.Issue(id, sid))
      ensures fut == |old(futures)|
    {
      fut := |futures|;
      futures := futures + [Future(id, Open)];
      pending := pending[id := fut];
      deltaSessions := deltaSessions[id := sid];
      requests := requests[id := Awaiting(fut)];
      StepKeepsInv(old(View()), Action.Issue(id, sid));
    }

    method Resolve(id: string)
      requires Inv(View())
      modifies this
      ensures Inv(View()) && View() == Apply(old(View()), Action.Response(id))
    {
      var found := id in pending;
      var fut := if found then pending[id] else 0;
      pending := pending - {id};
      deltaSessions := deltaSessions - {id};
      if found && futures[fut].outcome.Open? {
        futures := Complete(futures, fut, Resolved(id));
      }
      StepKeepsInv(old(View()), Action.Response(id));
    }

    /** The request's own handler of failures: `awaited` tells whether the wait for its
        future had begun, which then cancels it. */
    method Discard(id: string, fut: nat, awaited: bool)
      requires Inv(View()) && Enabled(View(), Leave(id, awaited)) && requests[id].fut == fut
      modifies this
      ensures Inv(View()) && View() == Apply(old(View()), Leave(id, awaited))
      ensures id !in pending && id !in deltaSessions
    {
      StepKeepsInv(View(), Leave(id, awaited));
      if awaited && futures[fut].outcome.Open? {
        futures := Complete(futures, fut, CancelledOutcome);
      }
      pending := pending - {id};
      deltaSessions := deltaSessions - {id};
      requests := requests[id := Abandoned(fut)];
    }

    method CancelAll()
      requires Inv(View())
      modifies this
      ensures Inv(View()) && View() == Apply(old(View()), Action.CancelAll)
    {
      ghost var s := View();
      var dropped := pending.Values;
      pending, deltaSessions := map[], map[];
      var i := 0;
      while i < |futures|
        invariant i <= |futures| == |s.futures|
        invariant forall k | 0 <= k < |futures| :: futures[k] == if k < i then Cancelled(s, k) else s.futures[k]
        invariant pending == map[] && deltaSessions == map[] && requests == s.requests
      {
        if i in dropped && futures[i].outcome.Open? {
          futures := Complete(futures, i, CancelledOutcome);
        }
        i := i + 1;
      }
      assert futures == Apply(s, Action.CancelAll).futures;
      StepKeepsInv(s, Action.CancelAll);
    }

    /** The session a streamed delta is forwarded to, if any. */
    method DeltaSession(id: string) returns (known: bool, sid: string)
      ensures known == (id in deltaSessions) && (known ==> sid == deltaSessions[id])
    {
      known := id in deltaSessions;
      sid := if known then deltaSessions[id] else "";
    }
  }
}
