/** Approval prompts: requests, answers, deadlines and shutdown, one step per stretch
    of code between two awaits. Ids are taken to be fresh. */
module Approval {

  datatype Response = Approve | ApproveForSession | Reject

  /** What an `approval.response` says, as the handler classifies it. */
  datatype Answer = Says(r: Response) | Nonsense

  function Understood(a: Answer): Response {
    match a
    case Says(r) => r
    case Nonsense => Reject
  }

  datatype Key = Key(session: string, tool: string, fingerprint: string)

  datatype Reason = Timeout | Shutdown

  datatype Outcome = Returned(r: Response) | Cancelled(reason: Reason) | NotStarted

  /** The future a request awaits. `Dropped` is what the deadline makes of it. */
  datatype Future = Open | Answered(r: Response) | ShutDown | Dropped

  /** Where a request stands: publishing its prompt, at its await, publishing its
      cancellation, or over. `Short` ended at once: no future, nothing published. */
  datatype Request =
    | Publishing(key: Key, fut: Future)
    | Waiting(key: Key, fut: Future, expired: bool)
    | Expiring(key: Key)
    | Ended(key: Key, outcome: Outcome)
    | Short(key: Key, outcome: Outcome)

  datatype Event = Asked(id: string) | Withdrawn(id: string, reason: Reason)

  /** `stop` under way: the ids it still has to settle, and whether it has published
      the cancellation of the first. */
  datatype Stop = Idle | Stopping(todo: seq<string>, published: bool)

  datatype State = State(
    started: bool,
    pending: set<string>,
    requests: map<string, Request>,
    allowed: set<Key>,
    stop: Stop,
    events: seq<Event>
  )

  const Init := State(false, {}, map[], {}, Idle, [])

  datatype Action =
    | Start
    | Enter(id: string, key: Key)
    | Published(id: string)
    | Respond(id: string, answer: Answer)
    | Malformed
    | Expire(id: string)
    | Resume(id: string)
    | Raise(id: string)
    | StopBegin(order: seq<string>)
    | StopPublish
    | StopSettle
    | StopEnd

  predicate Undecided(r: Request) {
    r.Publishing? || r.Waiting?
  }

  /** A request nobody has answered, shut down or timed out. */
  predicate Unresolved(r: Request) {
    Undecided(r) && r.fut.Open?
  }

  predicate Enabled(s: State, a: Action) {
    match a
    case Start => true
    case Enter(id, _) => id !in s.requests
    case Published(id) => id in s.requests && s.requests[id].Publishing?
    case Respond(_, _) => true
    case Malformed => true
    case Expire(id) => id in s.requests && s.requests[id].Waiting?
    case Resume(id) => id in s.requests && s.requests[id].Waiting? &&
        (s.requests[id].expired || !s.requests[id].fut.Open?)
    case Raise(id) => id in s.requests && s.requests[id].Expiring?
    case StopBegin(order) => s.stop.Idle? && Lists(order, s.pending)
    case StopPublish => s.stop.Stopping? && s.stop.todo != [] && !s.stop.published
    case StopSettle => s.stop.Stopping? && s.stop.todo != [] && s.stop.published
    case StopEnd => s.stop.Stopping? && s.stop.todo == []
  }

  predicate Lists(order: seq<string>, ids: set<string>) {
    (forall i | 0 <= i < |order| :: order[i] in ids) && (forall id | id in ids :: id in order)
  }

  function WithFuture(r: Request, fut: Future): Request
    requires Undecided(r)
  {
    if r.Publishing? then Publishing(r.key, fut) else Waiting(r.key, fut, r.expired)
  }

  function EnterStep(s: State, id: string, key: Key): State {
    if !s.started then s.(requests := s.requests[id := Short(key, NotStarted)])
    else if key in s.allowed then s.(requests := s.requests[id := Short(key, Returned(ApproveForSession))])
    else s.(pending := s.pending + {id}, requests := s.requests[id := Publishing(key, Open)],
        events := s.events + [Asked(id)])
  }

  function RespondStep(s: State, id: string, answer: Answer): State {
    if id !in s.pending then s
    else if id in s.requests && Unresolved(s.requests[id])
    then s.(pending := s.pending - {id}, requests := s.requests[id := WithFuture(s.requests[id],
        Answered(Understood(answer)))])
    else s.(pending := s.pending - {id})
  }

  /** The deadline wins even over an answer the request has not woken up to. */
  function ExpireStep(s: State, id: string): State
    requires id in s.requests && s.requests[id].Waiting?
  {
    var r := s.requests[id];
    s.(requests := s.requests[id := Waiting(r.key, if r.fut.Open? then Dropped else r.fut, true)])
  }

  function ResumeStep(s: State, id: string): State
    requires id in s.requests && s.requests[id].Waiting?
  {
    var r := s.requests[id];
    if r.expired then
      s.(pending := s.pending - {id}, requests := s.requests[id := Expiring(r.key)],
          events := s.events + [Withdrawn(id, Timeout)])
    else if r.fut.Answered? then
      s.(requests := s.requests[id := Ended(r.key, Returned(r.fut.r))],
         allowed := if r.fut.r.ApproveForSession? then s.allowed + {r.key} else s.allowed)
    else s.(requests := s.requests[id := Ended(r.key, Cancelled(Shutdown))])
  }

  function SettleStep(s: State): State
    requires s.stop.Stopping? && s.stop.todo != []
  {
    var id := s.stop.todo[0];
    var rest := Stopping(s.stop.todo[1..], false);
    if id in s.requests && Unresolved(s.requests[id])
    then s.(requests := s.requests[id := WithFuture(s.requests[id], ShutDown)], stop := rest)
    else s.(stop := rest)
  }

  function Apply(s: State, a: Action): State
    requires Enabled(s, a)
  {
    match a
    case Start => s.(started := true)
    case Enter(id, key) => EnterStep(s, id, key)
    case Published(id) => s.(requests := s.requests[id := Waiting(s.requests[id].key, s.requests[id].fut, false)])
    case Respond(id, answer) => RespondStep(s, id, answer)
    case Malformed => s
    case Expire(id) => ExpireStep(s, id)
    case Resume(id) => ResumeStep(s, id)
    case Raise(id) => s.(requests := s.requests[id := Ended(s.requests[id].key, Cancelled(Timeout))])
    case StopBegin(order) => if !s.started then s else s.(started := false, stop := Stopping(order, false))
    case StopPublish => s.(stop := Stopping(s.stop.todo, true), events := s.events + [Withdrawn(s.stop.todo[0],
        Shutdown)])
    case StopSettle => SettleStep(s)
    case StopEnd => s.(pending := {}, stop := Idle)
  }

  predicate Allowed(s: State, acts: seq<Action>)
    decreases |acts|
  {
    acts == [] || (Enabled(s, acts[0]) && Allowed(Apply(s, acts[0]), acts[1..]))
  }

  function Run(s: State, acts: seq<Action>): State
    requires Allowed(s, acts)
    decreases |acts|
  {
    if acts == [] then s else Run(Apply(s, acts[0]), acts[1..])
  }

  // -- the invariant -------------------------------------------------------------------------------

  function OutcomeOf(s: State, id: string): (o: Outcome)
    requires id in s.requests && (s.requests[id].Ended? || s.requests[id].Short?)
  {
    s.requests[id].outcome
  }

  /** The request with this id came back with `approve_for_session`. */
  predicate Granted(s: State, id: string, key: Key) {
    && id in s.requests && (s.requests[id].Ended? || s.requests[id].Short?)
    && s.requests[id].key == key && s.requests[id].outcome == Returned(ApproveForSession)
  }

  /** The allowlist is exactly the keys of the requests granted for their session. */
  ghost predicate ExactAllowlist(s: State) {
    && (forall id, key | Granted(s, id, key) :: key in s.allowed)
    && (forall key | key in s.allowed :: exists id :: Granted(s, id, key))
  }

  predicate Unanswered(r: Request) {
    if Undecided(r) then !r.fut.Answered? else r.Ended? && r.outcome == Cancelled(Shutdown)
  }

  /** A pending id belongs to a request no answer has reached. */
  ghost predicate PendingUnanswered(s: State) {
    forall id | id in s.pending :: id in s.requests && Unanswered(s.requests[id])
  }

  ghost predicate Inv(s: State) {
    ExactAllowlist(s) && PendingUnanswered(s)
  }

  lemma SameGrants(s: State, t: State)
    requires ExactAllowlist(s) && t.allowed == s.allowed
    requires forall id, key :: Granted(t, id, key) <==> Granted(s, id, key)
    ensures ExactAllowlist(t)
  {
    hide Granted;
    forall key | key in t.allowed ensures exists id :: Granted(t, id, key) {
      var id :| Granted(s, id, key);
      assert Granted(t, id, key);
    }
  }

  lemma EnterKeeps(s: State, id: string, key: Key)
    requires Inv(s) && id !in s.requests
    ensures Inv(EnterStep(s, id, key))
  {
    var t := EnterStep(s, id, key);
    forall k | k in t.allowed ensures exists i :: Granted(t, i, k) {
      var i :| Granted(s, i, k);
      assert Granted(t, i, k);
    }
    forall i, k | Granted(t, i, k) ensures k in t.allowed {
      if i != id { assert Granted(s, i, k); }
    }
  }

  lemma ResumeKeeps(s: State, id: string)
    requires Inv(s) && Enabled(s, Resume(id))
    ensures Inv(ResumeStep(s, id))
  {
    var t := ResumeStep(s, id);
    var key := s.requests[id].key;
    assert t.requests[id].key == key;
    forall k | k in t.allowed ensures exists i :: Granted(t, i, k) {
      if k in s.allowed {
        var i :| Granted(s, i, k);
        assert Granted(t, i, k);
      } else {
        assert Granted(t, id, k);
      }
    }
    forall i, k | Granted(t, i, k) ensures k in t.allowed {
      if i != id { assert Granted(s, i, k); }
    }
  }

  /** Steps that only touch requests before and after which none of them is over with
      `approve_for_session`. */
  lemma QuietKeeps(s: State, t: State, id: string)
    requires Inv(s) && id in s.requests && t.allowed == s.allowed && t.pending <= s.pending
    requires id in t.requests && t.requests == s.requests[id := t.requests[id]]
    requires !s.requests[id].Ended? && !s.requests[id].Short? && t.requests[id].key == s.requests[id].key
    requires t.requests[id].Ended? || t.requests[id].Short? ==> t.requests[id].outcome != Returned(ApproveForSession)
    requires id in t.pending ==> Unanswered(t.requests[id])
    ensures Inv(t)
  {
    forall i, k ensures Granted(t, i, k) <==> Granted(s, i, k) {
    }
    SameGrants(s, t);
  }

  lemma StepKeepsInv(s: State, a: Action)
    requires Inv(s) && Enabled(s, a)
    ensures Inv(Apply(s, a))
  {
    hide ExactAllowlist, PendingUnanswered, Granted, Lists;
    var t := Apply(s, a);
    if a.Enter? {
      EnterKeeps(s, a.id, a.key);
    } else if a.Resume? {
      ResumeKeeps(s, a.id);
    } else if a.Respond? {
      RespondKeeps(s, a.id, a.answer);
    } else if a.StopSettle? {
      SettleKeeps(s);
    } else if a.Published? || a.Expire? || a.Raise? {
      OneKeeps(s, a);
    } else {
      SameRequestsKeep(s, t);
    }
  }

  lemma SameRequestsKeep(s: State, t: State)
    requires Inv(s) && t.requests == s.requests && t.allowed == s.allowed && t.pending <= s.pending
    ensures Inv(t)
  {
    forall id, key ensures Granted(t, id, key) <==> Granted(s, id, key) {
    }
    SameGrants(s, t);
  }

  lemma RespondKeeps(s: State, id: string, answer: Answer)
    requires Inv(s)
    ensures Inv(RespondStep(s, id, answer))
  {
    hide ExactAllowlist, Granted;
    var t := RespondStep(s, id, answer);
    if id in s.pending && id in s.requests && Unresolved(s.requests[id]) {
      assert t.requests == s.requests[id := t.requests[id]];
      QuietKeeps(s, t, id);
    } else {
      SameRequestsKeep(s, t);
    }
  }

  lemma SettleKeeps(s: State)
    requires Inv(s) && s.stop.Stopping? && s.stop.todo != []
    ensures Inv(SettleStep(s))
  {
    hide ExactAllowlist, Granted;
    var t := SettleStep(s);
    var id := s.stop.todo[0];
    if id in s.requests && Unresolved(s.requests[id]) {
      assert t.requests == s.requests[id := t.requests[id]];
      QuietKeeps(s, t, id);
    } else {
      SameRequestsKeep(s, t);
    }
  }

  lemma OneKeeps(s: State, a: Action)
    requires Inv(s) && Enabled(s, a) && (a.Published? || a.Expire? || a.Raise?)
    ensures Inv(Apply(s, a))
  {
    hide ExactAllowlist, Granted;
    var t := Apply(s, a);
    assert t.requests == s.requests[a.id := t.requests[a.id]];
    QuietKeeps(s, t, a.id);
  }

  /** Over every interleaving of requests, answers, deadlines and shutdowns: a key is
      on a session's allowlist exactly when some request for it came back with
      `approve_for_session`, and an id is pending only while no answer has reached it. */
  lemma {:induction false} AllowlistIsExact(s: State, acts: seq<Action>)
    requires Inv(s) && Allowed(s, acts)
    ensures ExactAllowlist(Run(s, acts)) && PendingUnanswered(Run(s, acts))
    decreases |acts|
  {
    hide ExactAllowlist, PendingUnanswered, Apply, Enabled;
    if acts != [] {
      StepKeepsInv(s, acts[0]);
      AllowlistIsExact(Apply(s, acts[0]), acts[1..]);
    }
  }

  lemma InitInv()
    ensures Inv(Init)
  {
  }

  // -- one outcome each ------------------------------------------------------------------------------

  predicate Over(s: State, id: string) {
    id in s.requests && (s.requests[id].Ended? || s.requests[id].Short?)
  }

  lemma StepKeepsOutcome(s: State, a: Action, id: string)
    requires Over(s, id) && Enabled(s, a)
    ensures Over(Apply(s, a), id) && Apply(s, a).requests[id] == s.requests[id]
  {
    hide Lists;
  }

  /** An outcome is final: nothing that happens later gives a request a second one. */
  lemma {:induction false} OutcomeIsFinal(s: State, acts: seq<Action>, id: string)
    requires Over(s, id) && Allowed(s, acts)
    ensures Over(Run(s, acts), id) && Run(s, acts).requests[id] == s.requests[id]
    decreases |acts|
  {
    hide Apply, Enabled;
    if acts != [] {
      StepKeepsOutcome(s, acts[0], id);
      OutcomeIsFinal(Apply(s, acts[0]), acts[1..], id);
    }
  }

  /** The steps a request can take by itself until it is over, answered or not. */
  function OwnSteps(r: Request, id: string): seq<Action> {
    match r
    case Publishing(_, _) => [Published(id), Expire(id), Resume(id), Raise(id)]
    case Waiting(_, _, _) => [Expire(id), Resume(id), Raise(id)]
    case Expiring(_) => [Raise(id)]
    case _ => []
  }

  /** And it gets one: from any state, whatever the others do not do, a request that
      entered can always be run to its end by its own deadline. */
  lemma {:induction false} EveryRequestEnds(s: State, id: string)
    requires id in s.requests
    ensures Allowed(s, OwnSteps(s.requests[id], id))
    ensures Over(Run(s, OwnSteps(s.requests[id], id)), id)
    decreases match s.requests[id] case Publishing(_, _) => 3 case Waiting(_, _,
        _) => 2 case Expiring(_) => 1 case _ => 0
  {
    var r := s.requests[id];
    var own := OwnSteps(r, id);
    if r.Publishing? {
      var t := Apply(s, own[0]);
      assert own[1..] == OwnSteps(t.requests[id], id);
      EveryRequestEnds(t, id);
    } else if r.Waiting? {
      var t := Apply(s, own[0]);
      var u := Apply(t, Resume(id));
      assert own[1..] == [Resume(id), Raise(id)] && own[1..][1..] == OwnSteps(u.requests[id], id);
      EveryRequestEnds(u, id);
    } else if r.Expiring? {
      assert own[1..] == [];
    }
  }

  // -- what a request publishes -------------------------------------------------------------------------

  function Count(events: seq<Event>, e: Event): nat {
    if events == [] then 0 else Count(events[..|events| - 1], e) + if events[|events| - 1] == e then 1 else 0
  }

  lemma CountAppend(events: seq<Event>, x: Event, e: Event)
    ensures Count(events + [x], e) == Count(events, e) + if x == e then 1 else 0
  {
    assert (events + [x])[..|events|] == events;
  }

  /** A prompt is published once for each request that had to ask, and never for one
      that was refused or listed; shutdown withdraws only ids that were pending. */
  ghost predicate PromptsExact(s: State) {
    && (forall id | id in s.requests && !s.requests[id].Short? :: Count(s.events, Asked(id)) == 1)
    && (forall id | id !in s.requests || s.requests[id].Short? ::
          Count(s.events, Asked(id)) == 0 && Count(s.events, Withdrawn(id, Timeout)) == 0 && Count(s.events,
              Withdrawn(id, Shutdown)) == 0)
    && (forall id | id in s.pending :: id in s.requests && !s.requests[id].Short?)
    && (s.stop.Stopping? ==>
          forall i | 0 <= i < |s.stop.todo| ::
            s.stop.todo[i] in s.requests && !s.requests[s.stop.todo[i]].Short?)
  }

  predicate TodoFrom(s: State, t: State) {
    t.stop.Stopping? ==> forall i | 0 <= i < |t.stop.todo| ::
      t.stop.todo[i] in s.pending || (s.stop.Stopping? && t.stop.todo[i] in s.stop.todo)
  }

  lemma SamePrompts(s: State, t: State)
    requires PromptsExact(s) && t.events == s.events && t.pending <= s.pending
    requires t.requests.Keys == s.requests.Keys
    requires forall id | id in s.requests :: t.requests[id].Short? <==> s.requests[id].Short?
    requires TodoFrom(s, t)
    ensures PromptsExact(t)
  {
    hide Count;
  }

  lemma MorePrompts(s: State, t: State, e: Event)
    requires PromptsExact(s) && t.events == s.events + [e] && t.pending <= s.pending
    requires t.requests.Keys == s.requests.Keys
    requires forall id | id in s.requests :: t.requests[id].Short? <==> s.requests[id].Short?
    requires TodoFrom(s, t)
    requires e.Withdrawn? && ((e.id in s.requests && !s.requests[e.id].Short?) || (s.stop.Stopping? &&
        e.id in s.stop.todo))
    ensures PromptsExact(t)
  {
    hide Count;
    forall id
      ensures Count(t.events, Asked(id)) == Count(s.events, Asked(id))
      ensures id != e.id ==> Count(t.events, Withdrawn(id, Timeout)) == Count(s.events, Withdrawn(id, Timeout))
      ensures id != e.id ==> Count(t.events, Withdrawn(id, Shutdown)) == Count(s.events, Withdrawn(id, Shutdown))
    {
      CountAppend(s.events, e, Asked(id));
      CountAppend(s.events, e, Withdrawn(id, Timeout));
      CountAppend(s.events, e, Withdrawn(id, Shutdown));
    }
  }

  /** Refused or listed: nothing is published. */
  lemma ShortPrompts(s: State, id: string, r: Request)
    requires PromptsExact(s) && id !in s.requests && r.Short?
    ensures PromptsExact(s.(requests := s.requests[id := r]))
  {
    hide Count;
  }

  lemma AskedPrompts(s: State, id: string, r: Request)
    requires PromptsExact(s) && id !in s.requests && !r.Short?
    ensures PromptsExact(s.(pending := s.pending + {id}, requests := s.requests[id := r],
        events := s.events + [Asked(id)]))
  {
    hide Count;
    forall e: Event
      ensures Count(s.events + [Asked(id)], e) == Count(s.events, e) + if e == Asked(id) then 1 else 0
    {
      CountAppend(s.events, Asked(id), e);
    }
  }

  lemma EnterPrompts(s: State, id: string, key: Key)
    requires PromptsExact(s) && id !in s.requests
    ensures PromptsExact(EnterStep(s, id, key))
  {
    hide PromptsExact;
    if !s.started {
      ShortPrompts(s, id, Short(key, NotStarted));
    } else if key in s.allowed {
      ShortPrompts(s, id, Short(key, Returned(ApproveForSession)));
    } else {
      AskedPrompts(s, id, Publishing(key, Open));
    }
  }

  lemma StepKeepsPrompts(s: State, a: Action)
    requires PromptsExact(s) && Enabled(s, a)
    ensures PromptsExact(Apply(s, a))
  {
    hide Count, PromptsExact;
    var t := Apply(s, a);
    if a.Enter? {
      EnterPrompts(s, a.id, a.key);
    } else if a.StopPublish? {
      MorePrompts(s, t, Withdrawn(s.stop.todo[0], Shutdown));
    } else if a.Resume? && s.requests[a.id].expired {
      MorePrompts(s, t, Withdrawn(a.id, Timeout));
    } else {
      SamePrompts(s, t);
    }
  }

  /** Over every run: exactly one prompt for each request that had to ask, nothing at
      all for a request whose key was listed when it came in or that was refused. */
  lemma {:induction false} ListedRequestsAreSilent(s: State, acts: seq<Action>)
    requires PromptsExact(s) && Allowed(s, acts)
    ensures PromptsExact(Run(s, acts))
    decreases |acts|
  {
    hide PromptsExact, Apply, Enabled;
    if acts != [] {
      StepKeepsPrompts(s, acts[0]);
      ListedRequestsAreSilent(Apply(s, acts[0]), acts[1..]);
    }
  }

  /** In every reachable state a request that comes in is answered on the spot and without
      a prompt exactly if an earlier one for its key came back with `approve_for_session`. */
  lemma SilentIffGranted(acts: seq<Action>, id: string, key: Key)
    requires Allowed(Init, acts) && Run(Init, acts).started && id !in Run(Init, acts).requests
    ensures var t := Run(Init, acts); var u := Apply(t, Enter(id, key));
      && (u.events == t.events <==> exists earlier :: Granted(t, earlier, key))
      && (u.events == t.events <==> Over(u, id))
      && (Over(u, id) ==> OutcomeOf(u, id) == Returned(ApproveForSession))
  {
    hide Run, Allowed, Granted;
    InitInv();
    AllowlistIsExact(Init, acts);
    var t := Run(Init, acts);
    assert |t.events + [Asked(id)]| != |t.events|;
  }

  // -- whose answer it was --------------------------------------------------------------------------------

  predicate HasAnswer(s: State, id: string, r: Response) {
    id in s.requests && var q := s.requests[id];
      (Undecided(q) && q.fut == Answered(r)) || (q.Ended? && q.outcome == Returned(r))
  }

  /** This response for this id, or something no handler understands, which means `reject`. */
  predicate Answers(a: Action, id: string, r: Response) {
    a == Respond(id, Says(r)) || (r == Reject && a == Respond(id, Nonsense))
  }

  lemma StepAnswers(s: State, a: Action, id: string, r: Response)
    requires Enabled(s, a) && HasAnswer(Apply(s, a), id, r)
    ensures HasAnswer(s, id, r) || Answers(a, id, r)
  {
    hide Lists;
  }

  /** A request that asked comes back with a response only if an `approval.response`
      for its own id said so, or said something no handler understands and meant `reject`. */
  lemma {:induction false} AnsweredByItsOwn(s: State, acts: seq<Action>, id: string, r: Response)
    requires Allowed(s, acts) && HasAnswer(Run(s, acts), id, r) && !HasAnswer(s, id, r)
    ensures exists i :: 0 <= i < |acts| && Answers(acts[i], id, r)
    decreases |acts|
  {
    hide HasAnswer, Apply, Enabled, Answers;
    var t := Apply(s, acts[0]);
    if HasAnswer(t, id, r) {
      StepAnswers(s, acts[0], id, r);
      assert Answers(acts[0], id, r);
    } else {
      AnsweredByItsOwn(t, acts[1..], id, r);
      var i :| 0 <= i < |acts| - 1 && Answers(acts[1..][i], id, r);
      assert Answers(acts[i + 1], id, r);
    }
  }

  // -- stopping --------------------------------------------------------------------------------------------

  predicate Lost(s: State, id: string) {
    id in s.requests && Unresolved(s.requests[id])
  }

  /** The runtime takes the request in and asks. */
  predicate LetIn(s: State, a: Action, id: string) {
    a.Enter? && a.id == id && s.started && a.key !in s.allowed
  }

  /** An answer to it arrives, or its deadline does. */
  predicate Touches(a: Action, id: string) {
    (a.Respond? && a.id == id) || a == Expire(id)
  }

  predicate Touched(acts: seq<Action>, id: string) {
    exists i :: 0 <= i < |acts| && Touches(acts[i], id)
  }

  /** The request is let in during these steps, and from then on neither answered nor expired. */
  predicate LeftWaiting(s: State, acts: seq<Action>, id: string)
    requires Allowed(s, acts)
    decreases |acts|
  {
    acts != [] && ((LetIn(s, acts[0], id) && !Touched(acts[1..], id)) || LeftWaiting(Apply(s, acts[0]), acts[1..], id))
  }

  /** A wait that ran into its deadline has no open future. */
  ghost predicate ExpiredIsClosed(s: State) {
    forall id | id in s.requests && s.requests[id].Waiting? && s.requests[id].expired :: !s.requests[id].fut.Open?
  }

  lemma StepKeepsClosed(s: State, a: Action)
    requires ExpiredIsClosed(s) && Enabled(s, a)
    ensures ExpiredIsClosed(Apply(s, a))
  {
    hide Lists;
  }

  lemma {:induction false} RunKeepsClosed(s: State, acts: seq<Action>)
    requires ExpiredIsClosed(s) && Allowed(s, acts)
    ensures ExpiredIsClosed(Run(s, acts))
    decreases |acts|
  {
    hide ExpiredIsClosed, Apply, Enabled;
    if acts != [] {
      StepKeepsClosed(s, acts[0]);
      RunKeepsClosed(Apply(s, acts[0]), acts[1..]);
    }
  }

  /** `stop` is at work and does not have this request before it. */
  predicate Bypassed(s: State, id: string) {
    s.stop.Stopping? && id !in s.stop.todo
  }

  lemma StaysBypassed(s: State, a: Action, id: string)
    requires Bypassed(s, id) && Enabled(s, a) && !a.StopEnd?
    ensures Bypassed(Apply(s, a), id)
  {
    hide Lists;
  }

  lemma BypassedStep(s: State, a: Action, id: string)
    requires Lost(s, id) && Bypassed(s, id) && ExpiredIsClosed(s) && Enabled(s, a) && !a.StopEnd?
    ensures Lost(Apply(s, a), id) <==> a != Expire(id) && !(id in s.pending && Touches(a, id))
    ensures id !in s.pending ==> id !in Apply(s, a).pending
    ensures id in s.pending && !Touches(a, id) ==> id in Apply(s, a).pending
  {
    hide Lists;
  }

  lemma ResolvedStep(s: State, a: Action, id: string)
    requires id in s.requests && !Lost(s, id) && Enabled(s, a)
    ensures id in Apply(s, a).requests && !Lost(Apply(s, a), id)
  {
    hide Lists;
  }

  lemma {:induction false} ResolvedRun(s: State, acts: seq<Action>, id: string)
    requires id in s.requests && !Lost(s, id) && Allowed(s, acts)
    ensures !Lost(Run(s, acts), id)
    decreases |acts|
  {
    hide Lost, Apply, Enabled;
    if acts != [] {
      ResolvedStep(s, acts[0], id);
      ResolvedRun(Apply(s, acts[0]), acts[1..], id);
    }
  }

  lemma TouchedFirst(acts: seq<Action>, id: string)
    requires acts != []
    ensures Touched(acts, id) <==> Touches(acts[0], id) || Touched(acts[1..], id)
  {
    hide Touches;
    if Touched(acts[1..], id) {
      var i :| 0 <= i < |acts| - 1 && Touches(acts[1..][i], id);
      assert acts[i + 1] == acts[1..][i];
    }
    if Touched(acts, id) {
      var i :| 0 <= i < |acts| && Touches(acts[i], id);
      if i > 0 {
        assert acts[1..][i - 1] == acts[i];
      }
    }
  }

  /** A pending request `stop` does not have before it is resolved by its answer or deadline
      alone, one that is not pending any more by its deadline alone. */
  lemma {:induction false} BypassedRun(s: State, acts: seq<Action>, id: string)
    requires Lost(s, id) && Bypassed(s, id) && ExpiredIsClosed(s) && Allowed(s, acts) && StopEnd !in acts
    ensures id in s.pending ==> (Lost(Run(s, acts), id) <==> !Touched(acts, id))
    ensures id !in s.pending ==> (Lost(Run(s, acts), id) <==> Expire(id) !in acts)
    decreases |acts|
  {
    hide Lost, Bypassed, ExpiredIsClosed, Apply, Enabled, Touched;
    if acts != [] {
      var t := Apply(s, acts[0]);
      assert acts == [acts[0]] + acts[1..];
      TouchedFirst(acts, id);
      LostIsThere(s, id);
      BypassedStep(s, acts[0], id);
      StaysBypassed(s, acts[0], id);
      StepKeepsClosed(s, acts[0]);
      StaysThere(s, acts[0], id);
      if Lost(t, id) {
        BypassedRun(t, acts[1..], id);
      } else {
        ResolvedRun(t, acts[1..], id);
      }
    } else {
      NothingTouches(id);
    }
  }

  lemma NothingTouches(id: string)
    ensures !Touched([], id)
  {
  }

  lemma LostIsThere(s: State, id: string)
    ensures Lost(s, id) ==> id in s.requests
  {
  }

  lemma StaysThere(s: State, a: Action, id: string)
    requires Enabled(s, a)
    ensures id in s.requests ==> id in Apply(s, a).requests
    ensures id !in s.requests && id in Apply(s, a).requests ==> a.Enter? && a.id == id
  {
    hide Lists;
  }

  lemma EnteringStep(s: State, id: string, key: Key)
    requires id !in s.requests
    ensures var t := Apply(s, Enter(id, key));
      (Lost(t, id) <==> LetIn(s, Enter(id, key), id)) && (Lost(t, id) ==> id in t.pending)
  {
  }

  lemma {:induction false} NeverLetIn(s: State, acts: seq<Action>, id: string)
    requires id in s.requests && Allowed(s, acts)
    ensures !LeftWaiting(s, acts, id)
    decreases |acts|
  {
    hide Apply, Touched;
    if acts != [] {
      StaysThere(s, acts[0], id);
      NeverLetIn(Apply(s, acts[0]), acts[1..], id);
    }
  }

  /** A request that is not there yet. */
  lemma {:induction false} NewcomerRun(s: State, acts: seq<Action>, id: string)
    requires id !in s.requests && Bypassed(s, id) && ExpiredIsClosed(s) && Allowed(s, acts) && StopEnd !in acts
    ensures Lost(Run(s, acts), id) <==> LeftWaiting(s, acts, id)
    decreases |acts|
  {
    hide Lost, Bypassed, ExpiredIsClosed, Apply, Touched, LetIn;
    LostIsThere(s, id);
    if acts != [] {
      var t := Apply(s, acts[0]);
      assert acts == [acts[0]] + acts[1..];
      StaysBypassed(s, acts[0], id);
      StepKeepsClosed(s, acts[0]);
      StaysThere(s, acts[0], id);
      if id !in t.requests {
        NotLetIn(s, acts[0], id);
        NewcomerRun(t, acts[1..], id);
      } else {
        EnteringStep(s, id, acts[0].key);
        NeverLetIn(t, acts[1..], id);
        if Lost(t, id) {
          BypassedRun(t, acts[1..], id);
        } else {
          ResolvedRun(t, acts[1..], id);
        }
      }
    }
  }

  lemma NotLetIn(s: State, a: Action, id: string)
    requires Enabled(s, a) && id !in Apply(s, a).requests
    ensures !LetIn(s, a, id)
  {
    hide Lists;
  }

  /** While `stop` runs, a request it found pending is resolved or ahead of it. */
  predicate Ahead(s: State, id: string) {
    s.stop.Stopping? && id in s.requests && (Lost(s, id) ==> id in s.stop.todo)
  }

  lemma StepKeepsAhead(s: State, a: Action, id: string)
    requires Ahead(s, id) && Enabled(s, a) && !a.StopEnd?
    ensures Ahead(Apply(s, a), id)
  {
    hide Lists;
    if a.StopSettle? {
      assert s.stop.todo == [s.stop.todo[0]] + Apply(s, a).stop.todo;
    }
  }

  lemma {:induction false} RunKeepsAhead(s: State, acts: seq<Action>, id: string)
    requires Ahead(s, id) && Allowed(s, acts) && StopEnd !in acts
    ensures Ahead(Run(s, acts), id)
    decreases |acts|
  {
    hide Ahead, Apply, Enabled;
    if acts != [] {
      assert acts == [acts[0]] + acts[1..];
      StepKeepsAhead(s, acts[0], id);
      RunKeepsAhead(Apply(s, acts[0]), acts[1..], id);
    }
  }

  /** The request was open before `stop` began, though an earlier `stop` has forgotten it,
      and its deadline does not come either. */
  predicate LostBefore(s: State, acts: seq<Action>, id: string) {
    Lost(s, id) && id !in s.pending && Expire(id) !in acts
  }

  lemma StopRun(s: State, order: seq<string>, acts: seq<Action>, id: string)
    requires Inv(s) && ExpiredIsClosed(s) && s.started && Enabled(s, StopBegin(order))
    requires Allowed(Apply(s, StopBegin(order)), acts) && StopEnd !in acts
    requires var u := Run(Apply(s, StopBegin(order)), acts); u.stop.Stopping? && u.stop.todo == []
    ensures Lost(Run(Apply(s, StopBegin(order)), acts), id) <==>
      LeftWaiting(Apply(s, StopBegin(order)), acts, id) || LostBefore(s, acts, id)
  {
    hide Run, Allowed, LeftWaiting, ExactAllowlist;
    var s1 := Apply(s, StopBegin(order));
    StepKeepsClosed(s, StopBegin(order));
    if id !in s.requests {
      assert id !in s.pending;
      NewcomerRun(s1, acts, id);
    } else {
      NeverLetIn(s1, acts, id);
      if id in s.pending {
        RunKeepsAhead(s1, acts, id);
      } else if Lost(s, id) {
        BypassedRun(s1, acts, id);
      } else {
        ResolvedRun(s1, acts, id);
      }
    }
  }

  /** The exact condition, over every run of `stop`: when it returns nothing is pending, and
      a request is left with its future open if and only if it was let in while `stop` ran,
      which takes a `start` during it, and neither answered nor timed out before the end; or
      if it had been left so before, and its deadline has not come since. Whoever was pending
      when `stop` began is resolved. */
  lemma StopLosesIff(before: seq<Action>, order: seq<string>, acts: seq<Action>, id: string)
    requires Allowed(Init, before) && Run(Init, before).started && Enabled(Run(Init, before), StopBegin(order))
    requires Allowed(Apply(Run(Init, before), StopBegin(order)), acts) && StopEnd !in acts
    requires var u := Run(Apply(Run(Init, before), StopBegin(order)), acts); u.stop.Stopping? && u.stop.todo == []
    ensures var s := Run(Init, before);
      var s1 := Apply(s, StopBegin(order));
      var t := Apply(Run(s1, acts), StopEnd);
      && t.pending == {}
      && (Lost(t, id) <==> LeftWaiting(s1, acts, id) || LostBefore(s, acts, id))
      && (id in s.pending ==> !Lost(t, id))
  {
    hide Run, Allowed, LeftWaiting, Inv, ExpiredIsClosed, Lists;
    InitInv();
    InitClosed();
    AllowlistIsExact(Init, before);
    RunKeepsClosed(Init, before);
    var s := Run(Init, before);
    assert Inv(s) by { InvIs(s); }
    StopRun(s, order, acts, id);
    if id in s.pending {
      PendingIsThere(s, id);
      NeverLetIn(Apply(s, StopBegin(order)), acts, id);
    }
  }

  lemma InvIs(s: State)
    requires ExactAllowlist(s) && PendingUnanswered(s)
    ensures Inv(s)
  {
  }

  lemma PendingIsThere(s: State, id: string)
    requires Inv(s) && id in s.pending
    ensures id in s.requests
  {
  }

  lemma InitClosed()
    ensures ExpiredIsClosed(Init)
  {
  }

  lemma {:induction false} NobodyLetIn(s: State, acts: seq<Action>, id: string)
    requires Allowed(s, acts) && !s.started && Start !in acts
    ensures !LeftWaiting(s, acts, id)
    decreases |acts|
  {
    hide Touched;
    if acts != [] {
      assert acts == [acts[0]] + acts[1..];
      NobodyLetIn(Apply(s, acts[0]), acts[1..], id);
    }
  }

  /** In particular a `stop` with no `start` during it leaves nobody behind whom no earlier
      one has left. */
  lemma StopLeavesNobody(before: seq<Action>, order: seq<string>, acts: seq<Action>, id: string)
    requires Allowed(Init, before) && Run(Init, before).started && Enabled(Run(Init, before), StopBegin(order))
    requires Allowed(Apply(Run(Init, before), StopBegin(order)), acts) && StopEnd !in acts && Start !in acts
    requires var u := Run(Apply(Run(Init, before), StopBegin(order)), acts); u.stop.Stopping? && u.stop.todo == []
    ensures var s := Run(Init, before);
      var t := Apply(Run(Apply(s, StopBegin(order)), acts), StopEnd);
      t.pending == {} && (Lost(t, id) ==> Lost(s, id) && id !in s.pending)
  {
    hide Run, Allowed, LeftWaiting, Lists;
    StopLosesIff(before, order, acts, id);
    NobodyLetIn(Apply(Run(Init, before), StopBegin(order)), acts, id);
  }

  /** The run that shows it: a request let in by a `start` during a `stop` is dropped from
      the table with its future open, and the user's answer is then thrown away. */
  lemma RestartDuringStopLoses(id: string, key: Key)
    ensures var s1 := Apply(Apply(Init, Start), StopBegin([]));
      var t := Apply(Apply(Apply(s1, Start), Enter(id, key)), StopEnd);
      && Allowed(s1, [Start, Enter(id, key)]) && LeftWaiting(s1, [Start, Enter(id, key)], id)
      && t.started && Lost(t, id) && t.events == [Asked(id)]
      && Apply(t, Respond(id, Says(Approve))) == t
  {
    var acts := [Start, Enter(id, key)];
    assert acts[1..] == [Enter(id, key)] && acts[1..][1..] == [];
    NothingTouches(id);
    var s2 := Apply(Apply(Apply(Init, Start), StopBegin([])), Start);
    assert LeftWaiting(s2, acts[1..], id);
  }
}
