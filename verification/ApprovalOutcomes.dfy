/** Why a request ended as it did: its outcome read off the answers, deadlines and shutdowns
    of the run. */
module ApprovalOutcomes {
  import opened Approval

  // -- the deadline -----------------------------------------------------------------------------

  predicate TimedOut(s: State, id: string) {
    id in s.requests && var q := s.requests[id];
      (q.Waiting? && q.expired) || q.Expiring? || (q.Ended? && q.outcome == Cancelled(Timeout))
  }

  lemma TimedOutStep(s: State, a: Action, id: string)
    requires Enabled(s, a)
    ensures TimedOut(Apply(s, a), id) <==> TimedOut(s, id) || a == Expire(id)
  {
    hide Lists;
  }

  lemma {:induction false} TimedOutRun(s: State, acts: seq<Action>, id: string)
    requires Allowed(s, acts)
    ensures TimedOut(Run(s, acts), id) <==> TimedOut(s, id) || Expire(id) in acts
    decreases |acts|
  {
    hide TimedOut, Apply, Enabled;
    if acts != [] {
      assert acts == [acts[0]] + acts[1..];
      TimedOutStep(s, acts[0], id);
      TimedOutRun(Apply(s, acts[0]), acts[1..], id);
    }
  }

  // -- the shutdown -----------------------------------------------------------------------------

  /** `stop` settles this request. */
  predicate Settles(s: State, a: Action, id: string) {
    a.StopSettle? && s.stop.Stopping? && s.stop.todo != [] && s.stop.todo[0] == id
  }

  predicate Settled(s: State, acts: seq<Action>, id: string)
    requires Allowed(s, acts)
    decreases |acts|
  {
    acts != [] && (Settles(s, acts[0], id) || Settled(Apply(s, acts[0]), acts[1..], id))
  }

  predicate ShutOff(s: State, id: string) {
    id in s.requests && var q := s.requests[id];
      (Undecided(q) && q.fut.ShutDown?) || (q.Ended? && q.outcome == Cancelled(Shutdown))
  }

  /** Only a deadline drops a future. */
  predicate DroppedLate(s: State, id: string) {
    id in s.requests && Undecided(s.requests[id]) && s.requests[id].fut.Dropped? ==>
      s.requests[id].Waiting? && s.requests[id].expired
  }

  lemma ShutOffStep(s: State, a: Action, id: string)
    requires Enabled(s, a) && DroppedLate(s, id) && ExpiredIsClosed(s)
    ensures DroppedLate(Apply(s, a), id)
    ensures ShutOff(Apply(s, a), id) ==> ShutOff(s, id) || Settles(s, a, id)
  {
    hide Lists;
  }

  lemma {:induction false} ShutOffRun(s: State, acts: seq<Action>, id: string)
    requires Allowed(s, acts) && DroppedLate(s, id) && ExpiredIsClosed(s) && ShutOff(Run(s, acts), id)
    ensures ShutOff(s, id) || Settled(s, acts, id)
    decreases |acts|
  {
    hide ShutOff, DroppedLate, ExpiredIsClosed, Apply, Enabled, Settles;
    if acts != [] {
      ShutOffStep(s, acts[0], id);
      StepKeepsClosed(s, acts[0]);
      ShutOffRun(Apply(s, acts[0]), acts[1..], id);
    }
  }

  // -- main results -----------------------------------------------------------------------------

  /** Over every run, from its actions alone: a request that asked comes back with a response
      only if somebody said so for its id, or said nonsense, which is `reject`; with a timeout
      if and only if its deadline came, whatever was answered; and with a shutdown only if
      `stop` settled it. */
  lemma OutcomeIs(acts: seq<Action>, id: string)
    requires Allowed(Init, acts) && id in Run(Init, acts).requests && Run(Init, acts).requests[id].Ended?
    ensures var outcome := Run(Init, acts).requests[id].outcome;
      && (outcome == Cancelled(Timeout) <==> Expire(id) in acts)
      && (outcome == Cancelled(Shutdown) ==> Settled(Init, acts, id))
      && (outcome.Returned? ==>
            || Respond(id, Says(outcome.r)) in acts
            || (outcome.r == Reject && Respond(id, Nonsense) in acts))
  {
    hide Run, Allowed, Settled;
    InitClosed();
    TimedOutRun(Init, acts, id);
    var outcome := Run(Init, acts).requests[id].outcome;
    if outcome == Cancelled(Shutdown) {
      ShutOffRun(Init, acts, id);
    } else if outcome.Returned? {
      NobodyHasAnswer(id, outcome.r);
      AnsweredByItsOwn(Init, acts, id, outcome.r);
    }
  }

  lemma NobodyHasAnswer(id: string, r: Response)
    ensures !HasAnswer(Init, id, r)
  {
  }

  /** The request can go on by itself: it is at its first await, or its future is there. */
  predicate CanGoOn(s: State, id: string) {
    Enabled(s, Published(id)) || Enabled(s, Resume(id))
  }

  predicate Holds(s: State, id: string, r: Response) {
    id in s.requests && var q := s.requests[id];
      || (q.Publishing? && q.fut == Answered(r)) || (q.Waiting? && !q.expired && q.fut == Answered(r))
      || (q.Ended? && q.outcome == Returned(r))
  }

  lemma HoldsStep(s: State, a: Action, id: string, r: Response)
    requires Holds(s, id, r) && Enabled(s, a) && a != Expire(id)
    ensures Holds(Apply(s, a), id, r)
  {
    hide Lists;
  }

  lemma {:induction false} HoldsRun(s: State, acts: seq<Action>, id: string, r: Response)
    requires Holds(s, id, r) && Allowed(s, acts) && Expire(id) !in acts
    ensures Holds(Run(s, acts), id, r)
    decreases |acts|
  {
    hide Holds, Apply, Enabled;
    if acts != [] {
      assert acts == [acts[0]] + acts[1..];
      HoldsStep(s, acts[0], id, r);
      HoldsRun(Apply(s, acts[0]), acts[1..], id, r);
    }
  }

  /** And the other half: the first answer to a request that is pending and open is the one
      it comes back with, `reject` for nonsense, whatever follows, unless its deadline comes
      first; and nothing keeps it from coming back. */
  lemma FirstAnswerWins(before: seq<Action>, id: string, answer: Answer, acts: seq<Action>, r: Response)
    requires Allowed(Init, before) && id in Run(Init, before).pending && Lost(Run(Init, before), id)
    requires Allowed(Apply(Run(Init, before), Respond(id, answer)), acts) && Expire(id) !in acts
    requires answer == Says(r) || (answer == Nonsense && r == Reject)
    ensures var t := Run(Apply(Run(Init, before), Respond(id, answer)), acts);
      && id in t.requests
      && (Over(t, id) ==> OutcomeOf(t, id) == Returned(r))
      && (!Over(t, id) ==> CanGoOn(t, id))
      && (Enabled(t, Resume(id)) ==> Over(Apply(t, Resume(id)), id))
  {
    hide Run, Allowed;
    InitClosed();
    RunKeepsClosed(Init, before);
    HoldsRun(Apply(Run(Init, before), Respond(id, answer)), acts, id, r);
  }

  // -- being started ------------------------------------------------------------------------------

  /** The last of `start` and `stop` was a `start`. */
  function Up(acts: seq<Action>): bool {
    acts != [] && var a := acts[|acts| - 1]; a.Start? || (!a.StopBegin? && Up(acts[..|acts| - 1]))
  }

  lemma {:induction false} UpLater(acts: seq<Action>, a: Action)
    ensures Up([a] + acts) == if Up(acts) || SomeTurn(acts) then Up(acts) else a.Start?
    decreases |acts|
  {
    var all := [a] + acts;
    if acts == [] {
      assert all == [a] && all[..0] == [];
    } else {
      var n := |acts| - 1;
      assert all[|all| - 1] == acts[n] && all[..|all| - 1] == [a] + acts[..n];
      UpLater(acts[..n], a);
      SomeTurnLast(acts);
    }
  }

  predicate SomeTurn(acts: seq<Action>) {
    exists i :: 0 <= i < |acts| && (acts[i].Start? || acts[i].StopBegin?)
  }

  lemma SomeTurnLast(acts: seq<Action>)
    requires acts != []
    ensures var n := |acts| - 1;
      SomeTurn(acts) <==> acts[n].Start? || acts[n].StopBegin? || SomeTurn(acts[..n])
    ensures SomeTurn(acts) <==> acts[0].Start? || acts[0].StopBegin? || SomeTurn(acts[1..])
  {
    var n := |acts| - 1;
    if i :| 0 <= i < n && (acts[..n][i].Start? || acts[..n][i].StopBegin?) {
      assert acts[i].Start? || acts[i].StopBegin?;
    }
    if i :| 0 <= i < n && (acts[1..][i].Start? || acts[1..][i].StopBegin?) {
      assert acts[i + 1].Start? || acts[i + 1].StopBegin?;
    }
    if i :| 0 <= i < |acts| && (acts[i].Start? || acts[i].StopBegin?) {
      assert i < n ==> acts[..n][i] == acts[i];
      assert i > 0 ==> acts[1..][i - 1] == acts[i];
    }
  }

  lemma StartedStep(s: State, a: Action)
    requires Enabled(s, a)
    ensures Apply(s, a).started == if a.Start? then true else if a.StopBegin? then false else s.started
  {
    hide Lists;
  }

  lemma {:induction false} StartedRun(s: State, acts: seq<Action>)
    requires Allowed(s, acts)
    ensures Run(s, acts).started == if SomeTurn(acts) then Up(acts) else s.started
    ensures !SomeTurn(acts) ==> !Up(acts)
    decreases |acts|
  {
    hide Apply, Enabled;
    if acts != [] {
      assert acts == [acts[0]] + acts[1..];
      StartedStep(s, acts[0]);
      StartedRun(Apply(s, acts[0]), acts[1..]);
      UpLater(acts[1..], acts[0]);
      SomeTurnLast(acts);
    }
  }

  /** Over every run: a request that comes in when the runtime is not started, that is unless
      the last of `start` and `stop` was a `start`, is refused, and leaves nothing pending and
      nothing published; and so `stop` is then an empty gesture. */
  lemma RefusedUnlessStarted(acts: seq<Action>, id: string, key: Key, order: seq<string>)
    requires Allowed(Init, acts) && id !in Run(Init, acts).requests && !Up(acts)
    ensures var s := Run(Init, acts);
      var t := Apply(s, Enter(id, key));
      && Over(t, id) && OutcomeOf(t, id) == NotStarted && t.pending == s.pending && t.events == s.events
      && (Enabled(s, StopBegin(order)) ==> Apply(s, StopBegin(order)) == s)
  {
    hide Run, Allowed, Up, SomeTurn;
    StartedRun(Init, acts);
  }

  // -- stopping, step by step -----------------------------------------------------------------------

  function ShutdownIds(events: seq<Event>): seq<string> {
    if events == [] then []
    else
      var e := events[|events| - 1];
      ShutdownIds(events[..|events| - 1]) + if e.Withdrawn? && e.reason.Shutdown? then [e.id] else []
  }

  lemma ShutdownAppend(events: seq<Event>, e: Event)
    ensures ShutdownIds(events + [e]) ==
      ShutdownIds(events) + if e.Withdrawn? && e.reason.Shutdown? then [e.id] else []
  {
    assert (events + [e])[..|events|] == events;
  }

  /** `stop` has withdrawn exactly those of its list that are not before it any more, and the
      one it is at once that is published. */
  predicate Withdrawing(s: State, before: seq<string>, order: seq<string>) {
    && s.stop.Stopping? && |s.stop.todo| <= |order|
    && s.stop.todo == order[|order| - |s.stop.todo|..]
    && (s.stop.published ==> s.stop.todo != [])
    && ShutdownIds(s.events)
         == before + order[..|order| - |s.stop.todo| + if s.stop.published then 1 else 0]
  }

  lemma WithdrawingStep(s: State, a: Action, before: seq<string>, order: seq<string>)
    requires Withdrawing(s, before, order) && Enabled(s, a) && !a.StopEnd?
    ensures Withdrawing(Apply(s, a), before, order)
  {
    hide Lists, ShutdownIds;
    var t := Apply(s, a);
    if t.events != s.events {
      ShutdownAppend(s.events, t.events[|s.events|]);
      assert t.events == s.events + [t.events[|s.events|]];
    }
    if a.StopPublish? {
      var k := |order| - |s.stop.todo|;
      assert order[..k + 1] == order[..k] + [order[k]];
      assert before + order[..k] + [order[k]] == before + order[..k + 1];
    } else {
      assert ShutdownIds(s.events) + [] == ShutdownIds(s.events);
    }
  }

  lemma {:induction false} WithdrawingRun(s: State, acts: seq<Action>, before: seq<string>, order: seq<string>)
    requires Withdrawing(s, before, order) && Allowed(s, acts) && StopEnd !in acts
    ensures Withdrawing(Run(s, acts), before, order)
    decreases |acts|
  {
    hide Withdrawing, Apply, Enabled;
    if acts != [] {
      assert acts == [acts[0]] + acts[1..];
      WithdrawingStep(s, acts[0], before, order);
      WithdrawingRun(Apply(s, acts[0]), acts[1..], before, order);
    }
  }

  /** Over every run of `stop`: it publishes one withdrawal for each id it found pending, in
      that order, and settles each only behind its own; it can always go on; and when it has
      returned the next one can begin. */
  lemma StopWithdrawsEach(s: State, order: seq<string>, acts: seq<Action>, next: seq<string>)
    requires s.started && Enabled(s, StopBegin(order))
    requires Allowed(Apply(s, StopBegin(order)), acts) && StopEnd !in acts
    ensures var t := Run(Apply(s, StopBegin(order)), acts);
      && t.stop.Stopping? && |t.stop.todo| <= |order|
      && ShutdownIds(s.events) + order[..|order| - |t.stop.todo|] <= ShutdownIds(t.events)
      && (Enabled(t, StopEnd) ==>
            ShutdownIds(t.events) == ShutdownIds(s.events) + order && Apply(t, StopEnd).stop == Idle)
      && (Enabled(t, StopSettle) ==>
            ShutdownIds(t.events) == ShutdownIds(s.events) + order[..|order| - |t.stop.todo|] + [t.stop.todo[0]])
      && (Enabled(t, StopPublish) || Enabled(t, StopSettle) || Enabled(t, StopEnd))
  {
    hide Run, Allowed, ShutdownIds, Lists;
    var s1 := Apply(s, StopBegin(order));
    assert order[|order| - |order|..] == order && order[..0] == [];
    assert ShutdownIds(s.events) + [] == ShutdownIds(s.events);
    WithdrawingRun(s1, acts, ShutdownIds(s.events), order);
    var t := Run(s1, acts);
    var k := |order| - |t.stop.todo|;
    assert order[..|order|] == order;
    if k < |order| {
      assert order[..k + 1] == order[..k] + [order[k]] && t.stop.todo[0] == order[k];
      assert ShutdownIds(s.events) + order[..k] + [order[k]] == ShutdownIds(s.events) + order[..k + 1];
    }
  }

  predicate HoldsShutdown(s: State, id: string) {
    id in s.requests && var q := s.requests[id];
      || (q.Publishing? && q.fut.ShutDown?) || (q.Waiting? && !q.expired && q.fut.ShutDown?)
      || (q.Ended? && q.outcome == Cancelled(Shutdown))
  }

  lemma HoldsShutdownStep(s: State, a: Action, id: string)
    requires HoldsShutdown(s, id) && Enabled(s, a) && a != Expire(id)
    ensures HoldsShutdown(Apply(s, a), id)
  {
    hide Lists;
  }

  lemma {:induction false} HoldsShutdownRun(s: State, acts: seq<Action>, id: string)
    requires HoldsShutdown(s, id) && Allowed(s, acts) && Expire(id) !in acts
    ensures HoldsShutdown(Run(s, acts), id)
    decreases |acts|
  {
    hide HoldsShutdown, Apply, Enabled;
    if acts != [] {
      assert acts == [acts[0]] + acts[1..];
      HoldsShutdownStep(s, acts[0], id);
      HoldsShutdownRun(Apply(s, acts[0]), acts[1..], id);
    }
  }

  /** An open request `stop` settles comes back as cancelled by the shutdown, unless its
      deadline comes first; nothing keeps it from coming back. */
  lemma SettledComesBack(before: seq<Action>, id: string, acts: seq<Action>)
    requires Allowed(Init, before) && Lost(Run(Init, before), id) && Settles(Run(Init, before), StopSettle, id)
    requires Enabled(Run(Init, before), StopSettle)
    requires Allowed(Apply(Run(Init, before), StopSettle), acts) && Expire(id) !in acts
    ensures var t := Run(Apply(Run(Init, before), StopSettle), acts);
      && id in t.requests
      && (Over(t, id) ==> OutcomeOf(t, id) == Cancelled(Shutdown))
      && (!Over(t, id) ==> CanGoOn(t, id))
      && (Enabled(t, Resume(id)) ==> Over(Apply(t, Resume(id)), id))
  {
    hide Run, Allowed;
    InitClosed();
    RunKeepsClosed(Init, before);
    HoldsShutdownRun(Apply(Run(Init, before), StopSettle), acts, id);
  }
}
