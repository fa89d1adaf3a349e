/** Which turn task is current on each session: a new user message supersedes the
    running turn, an interrupt cancels it, and a finished task's callback removes
    it, each at its own moment. */
module TurnTasks {

  datatype Status = Running | CancelAsked | Finished

  datatype Task = Task(sid: string, status: Status)

  datatype State = State(turns: map<string, nat>, tasks: seq<Task>)

  datatype Action =
    | UserMessage(sid: string)
    | Interrupt(sid: string)
    | Finish(t: nat)
    | Cleanup(t: nat)
    | Stop

  const Init := State(map[], [])

  /** `task.cancel()`: no effect on a finished task. */
  function Cancel(tasks: seq<Task>, t: nat): seq<Task>
    requires t < |tasks|
  {
    if tasks[t].status.Finished? then tasks else tasks[t := tasks[t].(status := CancelAsked)]
  }

  predicate Enabled(s: State, a: Action) {
    match a
    case Finish(t) => t < |s.tasks| && !s.tasks[t].status.Finished?
    case Cleanup(t) => t < |s.tasks| && s.tasks[t].status.Finished?
    case _ => true
  }

  function CancelCurrent(s: State, sid: string): State {
    if sid in s.turns && s.turns[sid] < |s.tasks| then s.(tasks := Cancel(s.tasks, s.turns[sid])) else s
  }

  function CancelListed(s: State, i: nat): Task
    requires i < |s.tasks|
  {
    if i in s.turns.Values && !s.tasks[i].status.Finished? then s.tasks[i].(status := CancelAsked) else s.tasks[i]
  }

  function Apply(s: State, a: Action): State
    requires Enabled(s, a)
  {
    match a
    case UserMessage(sid) =>
      var c := CancelCurrent(s, sid);
      c.(tasks := c.tasks + [Task(sid, Running)], turns := c.turns[sid := |c.tasks|])
    case Interrupt(sid) => CancelCurrent(s, sid)
    case Finish(t) => s.(tasks := s.tasks[t := s.tasks[t].(status := Finished)])
    case Cleanup(t) =>
      var sid := s.tasks[t].sid;
      if sid in s.turns && s.turns[sid] == t then s.(turns := s.turns - {sid}) else s
    case Stop =>
      State(map[], seq(|s.tasks|, i requires 0 <= i < |s.tasks| => CancelListed(s, i)))
  }

  ghost predicate Run(s: State, acts: seq<Action>, s': State)
    decreases |acts|
  {
    if acts == [] then s' == s
    else Enabled(s, acts[0]) && Run(Apply(s, acts[0]), acts[1..], s')
  }

  /** A turn nobody asked to cancel is the one its session's entry names. */
  ghost predicate Inv(s: State) {
    && (forall sid | sid in s.turns :: s.turns[sid] < |s.tasks| && s.tasks[s.turns[sid]].sid == sid)
    && (forall t | 0 <= t < |s.tasks| && s.tasks[t].status.Running? ::
          s.tasks[t].sid in s.turns && s.turns[s.tasks[t].sid] == t)
  }

  lemma StepKeepsInv(s: State, a: Action)
    requires Inv(s) && Enabled(s, a)
    ensures Inv(Apply(s, a))
  {
    var s' := Apply(s, a);
    if a.Stop? {
      forall t | 0 <= t < |s'.tasks| ensures !s'.tasks[t].status.Running? {
        assert s'.tasks[t] == CancelListed(s, t);
        if s.tasks[t].status.Running? {
          assert s.turns[s.tasks[t].sid] in s.turns.Values;
        }
      }
    }
  }

  lemma {:induction false} RunKeepsInv(s: State, acts: seq<Action>, s': State)
    requires Inv(s) && Run(s, acts, s')
    ensures Inv(s')
    decreases |acts|
  {
    if acts != [] {
      StepKeepsInv(s, acts[0]);
      RunKeepsInv(Apply(s, acts[0]), acts[1..], s');
    }
  }

  /** Messages, interrupts and stopping are possible at any time. */
  lemma AlwaysOpen(s: State, sid: string)
    ensures Enabled(s, UserMessage(sid)) && Enabled(s, Interrupt(sid)) && Enabled(s, Stop)
  {
  }

  /** Who is running is who was, but for those an interrupt, a new message or a stop asks to
      end. */
  lemma WhoIsAsked(acts: seq<Action>, s: State, a: Action, t: nat)
    requires Run(Init, acts, s) && Enabled(s, a) && t < |s.tasks|
    ensures t < |Apply(s, a).tasks| && Apply(s, a).tasks[t].sid == s.tasks[t].sid
    ensures Apply(s, a).tasks[t].status.Running? <==>
      && s.tasks[t].status.Running? && a != Finish(t) && a != Stop
      && a != Interrupt(s.tasks[t].sid) && a != UserMessage(s.tasks[t].sid)
    ensures Apply(s, a).tasks[t].status.Finished? <==> s.tasks[t].status.Finished? || a == Finish(t)
  {
    RunKeepsInv(Init, acts, s);
    if a.Stop? {
      StopAsks(s, t);
    } else {
      OneIsAsked(s, a, t);
    }
  }

  lemma StopAsks(s: State, t: nat)
    requires Inv(s) && t < |s.tasks|
    ensures var k := Apply(s, Stop).tasks[t];
      k.sid == s.tasks[t].sid && !k.status.Running? && (k.status.Finished? <==> s.tasks[t].status.Finished?)
  {
    assert Apply(s, Stop).tasks[t] == CancelListed(s, t);
    if s.tasks[t].status.Running? {
      assert s.turns[s.tasks[t].sid] in s.turns.Values;
    }
  }

  lemma OneIsAsked(s: State, a: Action, t: nat)
    requires Inv(s) && Enabled(s, a) && t < |s.tasks| && !a.Stop?
    ensures t < |Apply(s, a).tasks| && Apply(s, a).tasks[t].sid == s.tasks[t].sid
    ensures Apply(s, a).tasks[t].status.Running? <==>
      && s.tasks[t].status.Running? && a != Finish(t)
      && a != Interrupt(s.tasks[t].sid) && a != UserMessage(s.tasks[t].sid)
    ensures Apply(s, a).tasks[t].status.Finished? <==> s.tasks[t].status.Finished? || a == Finish(t)
  {
  }

  /** A new message's own task is the one that runs and the one its session's entry names; the
      entry goes only by the callback of the very task it names, or by a stop; every task that
      has not ended can end, and every ended one be called back. */
  lemma WhoseEntry(s: State, a: Action, t: nat)
    requires Inv(s) && Enabled(s, a) && t < |s.tasks|
    ensures Enabled(s, Finish(t)) <==> !s.tasks[t].status.Finished?
    ensures Enabled(s, Cleanup(t)) <==> s.tasks[t].status.Finished?
    ensures a.UserMessage? ==>
      && Apply(s, a).tasks == Apply(s, Interrupt(a.sid)).tasks + [Task(a.sid, Running)]
      && Apply(s, a).turns == s.turns[a.sid := |s.tasks|]
    ensures a.Cleanup? ==> forall sid :: sid in Apply(s, a).turns <==> sid in s.turns && s.turns[sid] != a.t
    ensures a.Stop? ==> Apply(s, a).turns == map[]
    ensures a.Interrupt? || a.Finish? ==> Apply(s, a).turns == s.turns
  {
  }

  /** At every moment a session has at most one turn that was not asked to stop. */
  lemma OneTurnPerSession(acts: seq<Action>, s: State, t: nat, u: nat)
    requires Run(Init, acts, s)
    requires t < |s.tasks| && s.tasks[t].status.Running? && u < |s.tasks| && s.tasks[u].status.Running?
    requires s.tasks[t].sid == s.tasks[u].sid
    ensures t == u
  {
    RunKeepsInv(Init, acts, s);
  }
}
