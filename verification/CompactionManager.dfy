/** The auto-compaction manager: which sessions have a run under way, retries, and the
    bounded tables that decide it. */
module CompactionManager {

  const MAX_RETRIES: nat := 3

  /** `Scheduled` has not run yet, `Trying` awaits the summariser, `Backoff` sleeps;
      `Over` has returned, `Settled` has had its done-callback run. */
  datatype Phase = Scheduled | Trying | Backoff | Over | Settled

  /** `attempt` is the loop's own counter, `tries` the summariser calls it really made. */
  datatype Chain = Chain(sid: string, phase: Phase, attempt: nat, tries: nat, failed: bool)

  datatype State = State(
    cap: nat,
    /** The sessions whose handler has passed the guards and reads the tape. */
    checking: set<string>,
    chains: seq<Chain>,
    /** Ordered as inserted: session and chain. */
    inflight: seq<(string, nat)>,
    attempts: map<string, nat>,
    disabled: seq<string>,
    /** History: the chains whose record was evicted. */
    evicted: set<nat>,
    /** The sessions `session.compaction.failed` was published for. */
    failures: seq<string>
  )

  function Init(cap: nat): State {
    State(cap, {}, [], [], map[], [], {}, [])
  }

  datatype Action =
    | Check(sid: string)
    | Start(sid: string, over: bool)
    | Begin(t: nat)
    | Succeed(t: nat)
    | Stumble(t: nat)
    | Retry(t: nat)
    | Callback(t: nat)

  predicate Tracked(inflight: seq<(string, nat)>, sid: string) {
    exists i :: 0 <= i < |inflight| && inflight[i].0 == sid
  }

  function Untrack(inflight: seq<(string, nat)>, sid: string): seq<(string, nat)> {
    if inflight == [] then []
    else (if inflight[0].0 == sid then [] else [inflight[0]]) + Untrack(inflight[1..], sid)
  }

  predicate In(s: State, t: nat, p: Phase) {
    t < |s.chains| && s.chains[t].phase == p
  }

  /** A session's handlers run one after another, so it is checked once at a time. */
  predicate Enabled(s: State, a: Action) {
    match a
    case Check(sid) => sid !in s.checking
    case Start(sid, _) => sid in s.checking && s.cap > 0
    case Begin(t) => In(s, t, Scheduled)
    case Succeed(t) => In(s, t, Trying)
    case Stumble(t) => In(s, t, Trying)
    case Retry(t) => In(s, t, Backoff)
    case Callback(t) => In(s, t, Over)
  }

  predicate Accepted(s: State, sid: string) {
    sid !in s.disabled && !Tracked(s.inflight, sid)
  }

  /** The handler behind its awaits starts a run, and does not look at the tables again. */
  function Schedule(s: State, sid: string): State
    requires s.cap > 0
  {
    var full := |s.inflight| >= s.cap;
    s.(chains := s.chains + [Chain(sid, Scheduled, 0, 0, false)],
       inflight := (if full then s.inflight[1..] else s.inflight) + [(sid, |s.chains|)],
       attempts := if full then s.attempts - {s.inflight[0].0} else s.attempts,
       evicted := if full then s.evicted + {s.inflight[0].1} else s.evicted)
  }

  /** The head of the retry loop with this many attempts behind it. */
  function Try(s: State, t: nat, attempt: nat): State
    requires t < |s.chains|
  {
    var c := s.chains[t];
    if attempt >= MAX_RETRIES then s.(chains := s.chains[t := c.(phase := Over)])
    else s.(chains := s.chains[t := c.(phase := Trying, attempt := attempt + 1, tries := c.tries + 1)],
            attempts := s.attempts[c.sid := attempt + 1])
  }

  function Disable(s: State, sid: string): seq<string> {
    if sid in s.disabled then s.disabled
    else (if |s.disabled| >= s.cap && s.disabled != [] then s.disabled[1..] else s.disabled) + [sid]
  }

  function StumbleStep(s: State, t: nat): State
    requires t < |s.chains|
  {
    var c := s.chains[t];
    if c.attempt >= MAX_RETRIES then
      s.(chains := s.chains[t := c.(phase := Over, failed := true)], disabled := Disable(s, c.sid),
         attempts := s.attempts - {c.sid}, failures := s.failures + [c.sid])
    else s.(chains := s.chains[t := c.(phase := Backoff)])
  }

  function Apply(s: State, a: Action): State
    requires Enabled(s, a)
  {
    match a
    case Check(sid) => if Accepted(s, sid) then s.(checking := s.checking + {sid}) else s
    case Start(sid, over) =>
      var t := s.(checking := s.checking - {sid});
      if over then Schedule(t, sid) else t
    case Begin(t) =>
      var sid := s.chains[t].sid;
      Try(s, t, if sid in s.attempts then s.attempts[sid] else 0)
    case Succeed(t) => s.(chains := s.chains[t := s.chains[t].(phase := Over)],
        attempts := s.attempts - {s.chains[t].sid})
    case Stumble(t) => StumbleStep(s, t)
    case Retry(t) => Try(s, t, s.chains[t].attempt)
    case Callback(t) =>
      s.(chains := s.chains[t := s.chains[t].(phase := Settled)], inflight := Untrack(s.inflight, s.chains[t].sid))
  }

  predicate Allowed(s: State, acts: seq<Action>)
    decreases |acts|
  {
    acts == [] || (Enabled(s, acts[0]) && Allowed(Apply(s, acts[0]), acts[1..]))
  }

  function Run(s: State, acts: seq<Action>): State
    requires Allowed(s, acts)
    decreases |acts|
  {
    if acts == [] then s else Run(Apply(s, acts[0]), acts[1..])
  }

  // -- the exact guard -------------------------------------------------------------------------------

  predicate Live(p: Phase) {
    !p.Settled?
  }

  /** A run of the session is alive although its record was evicted. */
  predicate Unguarded(s: State, sid: string) {
    exists t :: t in s.evicted && t < |s.chains| && s.chains[t].sid == sid && Live(s.chains[t].phase)
  }

  /** No run is started for a session whose run was evicted and is not settled yet, nor
      for one that was given up. */
  predicate Keeps(s: State, a: Action) {
    a.Start? && a.over ==> !Unguarded(s, a.sid) && a.sid !in s.failures
  }

  predicate AllKept(s: State, acts: seq<Action>)
    requires Allowed(s, acts)
    decreases |acts|
  {
    acts == [] || (Keeps(s, acts[0]) && AllKept(Apply(s, acts[0]), acts[1..]))
  }

  /** A session has one run at most, and none any more once it was given up. */
  predicate Sound(s: State) {
    && (forall t, u | 0 <= t < |s.chains| && 0 <= u < |s.chains| && s.chains[t].sid == s.chains[u].sid
          && Live(s.chains[t].phase) && Live(s.chains[u].phase) :: t == u)
    && (forall t | 0 <= t < |s.chains| && Live(s.chains[t].phase) && !s.chains[t].phase.Over? ::
          s.chains[t].sid !in s.failures)
  }

  predicate AlwaysSound(s: State, acts: seq<Action>)
    requires Allowed(s, acts)
    decreases |acts|
  {
    Sound(s) && (acts == [] || AlwaysSound(Apply(s, acts[0]), acts[1..]))
  }

  // -- the invariant while the guard is kept -----------------------------------------------------------

  /** A chain that has counted attempts. */
  predicate Counting(p: Phase) {
    p.Trying? || p.Backoff?
  }

  predicate ChainOk(s: State, t: nat, c: Chain) {
    && c.tries == c.attempt <= MAX_RETRIES
    && ((c.sid, t) in s.inflight ==> Live(c.phase))
    && (Live(c.phase) ==> (c.sid, t) in s.inflight || t in s.evicted)
    && (c.phase.Scheduled? ==> c.attempt == 0 && c.sid !in s.attempts)
    && (Counting(c.phase) ==> c.attempt >= 1 && (c.sid in s.attempts ==> s.attempts[c.sid] == c.attempt))
    && (c.phase.Backoff? ==> c.attempt < MAX_RETRIES)
    && (c.failed ==> c.attempt == MAX_RETRIES && c.sid in s.failures && (c.phase.Over? || c.phase.Settled?))
  }

  ghost predicate Chains(s: State) {
    forall t | 0 <= t < |s.chains| :: ChainOk(s, t, s.chains[t])
  }

  predicate Records(s: State) {
    && (forall i | 0 <= i < |s.inflight| ::
          s.inflight[i].1 < |s.chains| && s.chains[s.inflight[i].1].sid == s.inflight[i].0)
    && (forall i, j | 0 <= i < j < |s.inflight| :: s.inflight[i].0 != s.inflight[j].0)
  }

  ghost predicate Counters(s: State) {
    forall sid | sid in s.attempts ::
      exists t :: 0 <= t < |s.chains| && s.chains[t].sid == sid && Counting(s.chains[t].phase)
  }

  predicate Terminal(s: State) {
    && (forall i, j | 0 <= i < j < |s.failures| :: s.failures[i] != s.failures[j])
    && (forall i | 0 <= i < |s.disabled| :: s.disabled[i] in s.failures)
  }

  /** What was untracked when its handler looked is untracked still. */
  predicate Free(s: State) {
    forall sid | sid in s.checking :: !Tracked(s.inflight, sid)
  }

  ghost predicate Inv(s: State) {
    Records(s) && Chains(s) && Counters(s) && Terminal(s) && Sound(s) && Free(s)
  }

  lemma {:induction false} UntrackFacts(inflight: seq<(string, nat)>, sid: string)
    ensures forall x :: x in Untrack(inflight, sid) <==> x in inflight && x.0 != sid
    ensures (forall i, j | 0 <= i < j < |inflight| :: inflight[i].0 != inflight[j].0) ==>
      forall i, j | 0 <= i < j < |Untrack(inflight, sid)| :: Untrack(inflight, sid)[i].0 != Untrack(inflight, sid)[j].0
  {
    if inflight != [] {
      UntrackFacts(inflight[1..], sid);
      var rest := Untrack(inflight[1..], sid);
      assert forall x :: x in inflight <==> x == inflight[0] || x in inflight[1..];
      if forall i, j | 0 <= i < j < |inflight| :: inflight[i].0 != inflight[j].0 {
        assert forall i, j | 0 <= i < j < |inflight| - 1 :: inflight[1..][i].0 != inflight[1..][j].0;
        forall i | 0 <= i < |rest| ensures rest[i].0 != inflight[0].0 {
          assert rest[i] in rest;
          var j :| 0 <= j < |inflight| - 1 && inflight[1..][j] == rest[i];
          assert inflight[j + 1] == rest[i];
        }
      }
    }
  }

  // -- one step --------------------------------------------------------------------------------------

  lemma SameAttempts(a: map<string, nat>, b: map<string, nat>, sid: string, other: string)
    requires b - {sid} == a - {sid} && other != sid
    ensures other in a <==> other in b
    ensures other in a ==> a[other] == b[other]
  {
    assert other in a <==> other in a - {sid};
    assert other in b <==> other in b - {sid};
    if other in a {
      assert (a - {sid})[other] == a[other] && (b - {sid})[other] == b[other];
    }
  }

  /** A step on a running chain `t` alone that keeps the records. */
  lemma OneChain(s: State, s': State, t: nat)
    requires Inv(s) && t < |s.chains| && Live(s.chains[t].phase)
    requires |s'.chains| == |s.chains| && s'.inflight == s.inflight && s'.evicted == s.evicted
    requires s'.chains == s.chains[t := s'.chains[t]] && s'.chains[t].sid == s.chains[t].sid
    requires s'.attempts - {s.chains[t].sid} == s.attempts - {s.chains[t].sid}
    requires forall sid | sid in s.failures :: sid in s'.failures
    requires ChainOk(s', t, s'.chains[t])
    requires s.chains[t].sid in s'.attempts ==> Counting(s'.chains[t].phase)
    requires s'.checking == s.checking
    ensures Records(s') && Chains(s') && Counters(s') && Free(s')
  {
    var sid := s.chains[t].sid;
    forall u | 0 <= u < |s'.chains| ensures ChainOk(s', u, s'.chains[u]) {
      if u != t {
        assert ChainOk(s, u, s.chains[u]);
        if s.chains[u].sid != sid {
          SameAttempts(s.attempts, s'.attempts, sid, s.chains[u].sid);
        }
      }
    }
    forall x | x in s'.attempts
      ensures exists u :: 0 <= u < |s'.chains| && s'.chains[u].sid == x && Counting(s'.chains[u].phase)
    {
      if x == sid {
        assert s'.chains[t].sid == x;
      } else {
        SameAttempts(s.attempts, s'.attempts, sid, x);
        var u :| 0 <= u < |s.chains| && s.chains[u].sid == x && Counting(s.chains[u].phase);
        assert s'.chains[u] == s.chains[u];
      }
    }
  }

  lemma SoundStep(s: State, s': State, t: nat)
    requires Sound(s) && t < |s.chains| && |s'.chains| == |s.chains| && Live(s.chains[t].phase)
    requires s'.chains == s.chains[t := s'.chains[t]] && s'.chains[t].sid == s.chains[t].sid
    requires forall sid | sid != s.chains[t].sid :: sid in s'.failures <==> sid in s.failures
    requires Live(s'.chains[t].phase) && !s'.chains[t].phase.Over? ==> s'.chains[t].sid !in s'.failures
    ensures Sound(s')
  {
    forall u | 0 <= u < |s'.chains| && Live(s'.chains[u].phase) && !s'.chains[u].phase.Over?
      ensures s'.chains[u].sid !in s'.failures
    {
      if u != t {
        assert s'.chains[u] == s.chains[u];
      }
    }
  }

  lemma TryKeeps(s: State, t: nat, attempt: nat)
    requires Inv(s) && t < |s.chains| && attempt == s.chains[t].attempt < MAX_RETRIES
    requires s.chains[t].phase.Scheduled? || s.chains[t].phase.Backoff?
    ensures Inv(Try(s, t, attempt))
  {
    var s' := Try(s, t, attempt);
    assert ChainOk(s, t, s.chains[t]);
    assert ChainOk(s', t, s'.chains[t]);
    OneChain(s, s', t);
    SoundStep(s, s', t);
  }

  /** A chain that starts finds no attempts left over from an earlier one. */
  lemma StartsFresh(s: State, t: nat)
    requires Inv(s) && In(s, t, Scheduled)
    ensures s.chains[t].sid !in s.attempts && s.chains[t].attempt == 0
  {
    assert ChainOk(s, t, s.chains[t]);
  }

  lemma SucceedKeeps(s: State, t: nat)
    requires Inv(s) && In(s, t, Trying)
    ensures Inv(Apply(s, Succeed(t)))
  {
    var s' := Apply(s, Succeed(t));
    assert ChainOk(s, t, s.chains[t]);
    assert ChainOk(s', t, s'.chains[t]);
    OneChain(s, s', t);
    SoundStep(s, s', t);
  }

  lemma DisableKeepsTerminal(s: State, sid: string)
    requires Terminal(s) && sid !in s.failures
    ensures Terminal(s.(disabled := Disable(s, sid), failures := s.failures + [sid]))
  {
    var d := Disable(s, sid);
    forall i | 0 <= i < |d| ensures d[i] in s.failures + [sid] {
      if d[i] != sid {
        assert d[i] in s.disabled;
      }
    }
  }

  lemma StumbledChain(s: State, t: nat)
    requires Chains(s) && In(s, t, Trying)
    ensures ChainOk(StumbleStep(s, t), t, StumbleStep(s, t).chains[t])
  {
    assert ChainOk(s, t, s.chains[t]);
  }

  lemma StumbleKeeps(s: State, t: nat)
    requires Inv(s) && In(s, t, Trying)
    ensures Inv(StumbleStep(s, t))
  {
    hide ChainOk, Terminal, Disable;
    var s' := StumbleStep(s, t);
    assert s.chains[t].sid !in s.failures;
    if s.chains[t].attempt >= MAX_RETRIES {
      DisableKeepsTerminal(s, s.chains[t].sid);
      SameTerminal(s.(disabled := s'.disabled, failures := s'.failures), s');
    } else {
      SameTerminal(s, s');
    }
    StumbledChain(s, t);
    OneChain(s, s', t);
    SoundStep(s, s', t);
  }

  lemma SameTerminal(s: State, s': State)
    requires Terminal(s) && s'.disabled == s.disabled && s'.failures == s.failures
    ensures Terminal(s')
  {
  }

  lemma NobodyAlive(s: State, sid: string)
    requires Inv(s) && !Tracked(s.inflight, sid) && !Unguarded(s, sid)
    ensures forall t | 0 <= t < |s.chains| && s.chains[t].sid == sid :: !Live(s.chains[t].phase)
    ensures sid !in s.attempts
  {
    UntrackedHasNoRecord(s.inflight, sid);
    forall t | 0 <= t < |s.chains| && s.chains[t].sid == sid ensures !Live(s.chains[t].phase) {
      assert ChainOk(s, t, s.chains[t]);
    }
  }

  lemma UntrackedHasNoRecord(inflight: seq<(string, nat)>, sid: string)
    requires !Tracked(inflight, sid)
    ensures forall r | r in inflight :: r.0 != sid
  {
    forall r | r in inflight ensures r.0 != sid {
      var i :| 0 <= i < |inflight| && inflight[i] == r;
    }
  }

  lemma NewChain(s: State, sid: string, t: nat)
    requires Inv(s) && s.cap > 0 && t < |s.chains|
    requires Live(s.chains[t].phase) ==> s.chains[t].sid != sid
    ensures ChainOk(Schedule(s, sid), t, s.chains[t])
  {
    var s' := Schedule(s, sid);
    var c := s.chains[t];
    assert ChainOk(s, t, c);
    if (c.sid, t) in s.inflight {
      var i :| 0 <= i < |s.inflight| && s.inflight[i] == (c.sid, t);
      if |s.inflight| >= s.cap && i > 0 {
        assert s.inflight[1..][i - 1] == (c.sid, t);
      }
    }
    if (c.sid, t) in s'.inflight {
      var i :| 0 <= i < |s'.inflight| && s'.inflight[i] == (c.sid, t);
      assert (c.sid, t) in s.inflight;
    }
  }

  lemma ScheduleRecords(s: State, sid: string)
    requires Records(s) && s.cap > 0 && !Tracked(s.inflight, sid)
    ensures Records(Schedule(s, sid))
  {
    var s' := Schedule(s, sid);
    assert forall i | 0 <= i < |s.inflight| :: s.inflight[i].0 != sid;
  }

  lemma ScheduleFree(s: State, sid: string)
    requires Free(s) && s.cap > 0 && sid !in s.checking
    ensures Free(Schedule(s, sid))
  {
    var s' := Schedule(s, sid);
    forall x | x in s'.checking ensures !Tracked(s'.inflight, x) {
      UntrackedHasNoRecord(s.inflight, x);
      assert forall i | 0 <= i < |s'.inflight| ::
        s'.inflight[i] == (sid, |s.chains|) || s'.inflight[i] in s.inflight;
    }
  }

  lemma ScheduleKeeps(s: State, sid: string)
    requires Inv(s) && s.cap > 0 && !Tracked(s.inflight, sid) && sid !in s.checking
    requires !Unguarded(s, sid) && sid !in s.failures
    ensures Inv(Schedule(s, sid))
  {
    hide ChainOk, Records, Tracked, Terminal, Free;
    var s' := Schedule(s, sid);
    NobodyAlive(s, sid);
    ScheduleRecords(s, sid);
    ScheduleFree(s, sid);
    SameTerminal(s, s');
    var n := |s.chains|;
    forall t | 0 <= t < |s'.chains| ensures ChainOk(s', t, s'.chains[t]) {
      if t < n {
        NewChain(s, sid, t);
      } else {
        FirstChain(s, sid);
      }
    }
    forall x | x in s'.attempts
      ensures exists u :: 0 <= u < |s'.chains| && s'.chains[u].sid == x && Counting(s'.chains[u].phase)
    {
      var u :| 0 <= u < n && s.chains[u].sid == x && Counting(s.chains[u].phase);
      assert s'.chains[u] == s.chains[u];
    }
  }

  lemma FirstChain(s: State, sid: string)
    requires s.cap > 0 && sid !in s.attempts
    ensures ChainOk(Schedule(s, sid), |s.chains|, Schedule(s, sid).chains[|s.chains|])
  {
    var s' := Schedule(s, sid);
    assert s'.inflight[|s'.inflight| - 1] == (sid, |s.chains|);
  }

  lemma Unchecked(s: State, checking: set<string>)
    requires Inv(s) && forall x | x in checking :: !Tracked(s.inflight, x)
    ensures Inv(s.(checking := checking))
  {
    forall t | 0 <= t < |s.chains| ensures ChainOk(s.(checking := checking), t, s.chains[t]) {
      assert ChainOk(s, t, s.chains[t]);
    }
  }

  lemma StartKeeps(s: State, sid: string, over: bool)
    requires Inv(s) && Enabled(s, Start(sid, over)) && Keeps(s, Start(sid, over))
    ensures Inv(Apply(s, Start(sid, over)))
  {
    hide ChainOk, Records, Terminal, Tracked, Sound, Counters;
    Unchecked(s, s.checking - {sid});
    if over {
      ScheduleKeeps(s.(checking := s.checking - {sid}), sid);
    }
  }

  lemma UntrackedRecords(s: State, sid: string)
    requires Records(s)
    ensures Records(s.(inflight := Untrack(s.inflight, sid)))
  {
    var left := Untrack(s.inflight, sid);
    UntrackFacts(s.inflight, sid);
    forall i | 0 <= i < |left| ensures left[i].1 < |s.chains| && s.chains[left[i].1].sid == left[i].0 {
      assert left[i] in left;
      var j :| 0 <= j < |s.inflight| && s.inflight[j] == left[i];
    }
  }

  lemma UntrackedFree(s: State, sid: string)
    requires Free(s)
    ensures Free(s.(inflight := Untrack(s.inflight, sid)))
  {
    var left := Untrack(s.inflight, sid);
    UntrackFacts(s.inflight, sid);
    forall x | x in s.checking ensures !Tracked(left, x) {
      UntrackedHasNoRecord(s.inflight, x);
      assert forall i | 0 <= i < |left| :: left[i] in left;
    }
  }

  lemma SettledChains(s: State, t: nat)
    requires Inv(s) && In(s, t, Over)
    ensures Chains(Apply(s, Callback(t))) && Counters(Apply(s, Callback(t)))
  {
    hide Records, Terminal, Free;
    var s' := Apply(s, Callback(t));
    UntrackFacts(s.inflight, s.chains[t].sid);
    forall u | 0 <= u < |s'.chains| ensures ChainOk(s', u, s'.chains[u]) {
      assert ChainOk(s, u, s.chains[u]);
    }
    forall x | x in s'.attempts
      ensures exists u :: 0 <= u < |s'.chains| && s'.chains[u].sid == x && Counting(s'.chains[u].phase)
    {
      var u :| 0 <= u < |s.chains| && s.chains[u].sid == x && Counting(s.chains[u].phase);
      assert s'.chains[u] == s.chains[u];
    }
  }

  lemma CallbackKeeps(s: State, t: nat)
    requires Inv(s) && In(s, t, Over)
    ensures Inv(Apply(s, Callback(t)))
  {
    hide ChainOk, Untrack, Tracked, Counters, Chains;
    UntrackedRecords(s, s.chains[t].sid);
    UntrackedFree(s, s.chains[t].sid);
    SettledChains(s, t);
    SoundStep(s, Apply(s, Callback(t)), t);
  }

  lemma CheckKeeps(s: State, sid: string)
    requires Inv(s) && Enabled(s, Check(sid))
    ensures Inv(Apply(s, Check(sid)))
  {
    hide Inv;
    if Accepted(s, sid) {
      assert Free(s) by { InvIsFree(s); }
      Unchecked(s, s.checking + {sid});
    }
  }

  lemma InvIsFree(s: State)
    requires Inv(s)
    ensures Free(s)
  {
  }

  lemma StepKeepsInv(s: State, a: Action)
    requires Inv(s) && Enabled(s, a) && Keeps(s, a)
    ensures Inv(Apply(s, a))
  {
    hide Inv;
    if a.Check? { CheckKeeps(s, a.sid); }
    else if a.Start? { StartKeeps(s, a.sid, a.over); }
    else if a.Begin? { StartsFresh(s, a.t); TryKeeps(s, a.t, 0); }
    else if a.Succeed? { SucceedKeeps(s, a.t); }
    else if a.Stumble? { StumbleKeeps(s, a.t); }
    else if a.Retry? { BackoffCounts(s, a.t); TryKeeps(s, a.t, s.chains[a.t].attempt); }
    else { CallbackKeeps(s, a.t); }
  }

  lemma BackoffCounts(s: State, t: nat)
    requires Inv(s) && In(s, t, Backoff)
    ensures s.chains[t].attempt < MAX_RETRIES
  {
    assert ChainOk(s, t, s.chains[t]);
  }

  /** A start that breaks the guard breaks soundness on the spot. */
  lemma BreaksAtOnce(s: State, a: Action)
    requires Enabled(s, a) && !Keeps(s, a)
    ensures !Sound(Apply(s, a))
  {
    var s' := Apply(s, a);
    var n := |s.chains|;
    assert s'.chains[n] == Chain(a.sid, Scheduled, 0, 0, false);
    if Unguarded(s, a.sid) {
      var t :| t in s.evicted && t < n && s.chains[t].sid == a.sid && Live(s.chains[t].phase);
      assert s'.chains[t] == s.chains[t];
    }
  }

  // -- main results ------------------------------------------------------------------------------------

  lemma InvIsSound(s: State)
    requires Inv(s)
    ensures Sound(s)
  {
  }

  lemma {:induction false} SoundRunIff(s: State, acts: seq<Action>)
    requires Inv(s) && Allowed(s, acts)
    ensures AlwaysSound(s, acts) <==> AllKept(s, acts)
    ensures AllKept(s, acts) ==> Inv(Run(s, acts))
    decreases |acts|
  {
    hide Inv, Apply, Enabled, Keeps, Sound;
    InvIsSound(s);
    if acts != [] {
      if Keeps(s, acts[0]) {
        StepKeepsInv(s, acts[0]);
        SoundRunIff(Apply(s, acts[0]), acts[1..]);
      } else {
        BreaksAtOnce(s, acts[0]);
        UnsoundAtOnce(Apply(s, acts[0]), acts[1..]);
      }
    }
  }

  lemma UnsoundAtOnce(s: State, acts: seq<Action>)
    requires Allowed(s, acts) && !Sound(s)
    ensures !AlwaysSound(s, acts)
  {
  }

  lemma InitInv(cap: nat)
    ensures Inv(Init(cap))
  {
  }

  /** The exact condition, over every run: at every moment a session has one run at most,
      and none any more once it was given up, if and only if no run is ever started for a
      session whose run was evicted and is not settled yet, or that was given up. An
      eviction that hits nobody who triggers again breaks nothing. */
  lemma SingleFlightIff(cap: nat, acts: seq<Action>)
    requires Allowed(Init(cap), acts)
    ensures AlwaysSound(Init(cap), acts) <==> AllKept(Init(cap), acts)
  {
    hide Run, Allowed, AllKept, AlwaysSound, Inv;
    InitInv(cap);
    SoundRunIff(Init(cap), acts);
  }

  /** And then a run that is given up has called the summariser three times and is
      published as failed, once per session for good. */
  lemma GivenUpOnce(cap: nat, acts: seq<Action>, t: nat)
    requires Allowed(Init(cap), acts) && AllKept(Init(cap), acts) && t < |Run(Init(cap), acts).chains|
    ensures var s := Run(Init(cap), acts); var c := s.chains[t];
      && (c.failed ==> c.tries == 3 && c.sid in s.failures && (c.phase.Over? || c.phase.Settled?))
      && (forall i, j | 0 <= i < j < |s.failures| :: s.failures[i] != s.failures[j])
  {
    hide Run, Allowed, AllKept, AlwaysSound;
    InitInv(cap);
    SoundRunIff(Init(cap), acts);
    var s := Run(Init(cap), acts);
    assert ChainOk(s, t, s.chains[t]);
  }

  predicate FewTries(s: State) {
    forall t | 0 <= t < |s.chains| ::
      && s.chains[t].tries <= s.chains[t].attempt <= 3
      && (s.chains[t].phase.Scheduled? ==> s.chains[t].tries == 0)
  }

  /** In any run whatever, a chain calls the summariser at most three times. */
  lemma {:induction false} AtMostThreeTries(s: State, acts: seq<Action>)
    requires FewTries(s) && Allowed(s, acts)
    ensures FewTries(Run(s, acts))
    decreases |acts|
  {
    hide Apply, Enabled, FewTries;
    if acts != [] {
      StepFewTries(s, acts[0]);
      AtMostThreeTries(Apply(s, acts[0]), acts[1..]);
    }
  }

  lemma StepFewTries(s: State, a: Action)
    requires FewTries(s) && Enabled(s, a)
    ensures FewTries(Apply(s, a))
  {
  }

  /** A handler that goes through without anybody in between. */
  function Trigger(s: State, sid: string): (t: State)
    requires s.cap > 0 && sid !in s.checking
    ensures t == if Accepted(s, sid) then Schedule(s, sid) else s
  {
    assert s.checking + {sid} - {sid} == s.checking;
    var u := Apply(s, Check(sid));
    if sid in u.checking then Apply(u, Start(sid, true)) else u
  }

  /** A table of one record: the run of `a` is evicted by that of `b`, ... */
  function FirstEvicted(a: string, b: string): (s: State)
    requires a != b
    ensures s.inflight == [(b, 1)] && |s.chains| == 2 && s.chains[0] == Chain(a, Scheduled, 0, 0, false)
    ensures s.cap == 1 && s.attempts == map[] && s.disabled == [] && s.checking == {}
  {
    hide Trigger;
    var s0 := Trigger(Init(1), a);
    assert s0.inflight == [(a, 0)];
    Trigger(s0, b)
  }

  /** ... and that by a second run of `a`. */
  function SecondRun(a: string, b: string): (s: State)
    requires a != b
    ensures s.inflight == [(a, 2)] && |s.chains| == 3 && s.chains[0] == s.chains[2] == Chain(a, Scheduled, 0, 0, false)
    ensures s.cap == 1 && s.attempts == map[] && s.disabled == [] && s.checking == {}
  {
    hide Trigger, FirstEvicted;
    Trigger(FirstEvicted(a, b), a)
  }

  /** Once a record has been evicted the guard is off: the session runs twice, the evicted
      run's callback takes away the record of the run that came after it, and a third one
      starts beside that. */
  lemma EvictionUnguards(a: string, b: string)
    requires a != b
    ensures var s := Apply(Apply(Apply(SecondRun(a, b), Begin(0)), Succeed(0)), Callback(0));
      var t := Trigger(s, a);
      && s.inflight == []
      && t.chains[2] == Chain(a, Scheduled, 0, 0, false) && t.chains[3] == Chain(a, Scheduled, 0, 0, false)
  {
    hide Trigger, SecondRun;
    assert Untrack([(a, 2)], a) == Untrack([(a, 2)][1..], a) && [(a, 2)][1..] == [];
  }

  lemma TriggerRun(s: State, sid: string, rest: seq<Action>)
    requires s.cap > 0 && sid !in s.checking && Accepted(s, sid) && !Unguarded(s, sid) && sid !in s.failures
    requires Allowed(Schedule(s, sid), rest) && AllKept(Schedule(s, sid), rest)
    ensures var acts := [Check(sid), Start(sid, true)] + rest;
      Allowed(s, acts) && AllKept(s, acts) && Run(s, acts) == Run(Schedule(s, sid), rest)
  {
    hide Tracked, Schedule;
    var acts := [Check(sid), Start(sid, true)] + rest;
    assert s.checking + {sid} - {sid} == s.checking;
    var u := Apply(s, Check(sid));
    assert u == s.(checking := s.checking + {sid});
    assert u.(checking := u.checking - {sid}) == s;
    assert acts[1..] == [Start(sid, true)] + rest && acts[1..][1..] == rest;
    assert Unguarded(u, sid) == Unguarded(s, sid) && Keeps(u, Start(sid, true));
    assert Apply(u, Start(sid, true)) == Schedule(s, sid);
    assert Run(u, acts[1..]) == Run(Schedule(s, sid), rest);
  }

  /** An eviction by itself is harmless, even that of a run still alive. */
  lemma EvictionAlone(a: string, b: string)
    requires a != b
    ensures var acts := [Check(a), Start(a, true)] + ([Check(b), Start(b, true)] + []);
      && Allowed(Init(1), acts) && AllKept(Init(1), acts)
      && Run(Init(1), acts).evicted == {0} && In(Run(Init(1), acts), 0, Scheduled)
  {
    hide AllKept, Allowed;
    var s1 := Schedule(Init(1), a);
    assert s1.inflight == [(a, 0)];
    var s2 := Schedule(s1, b);
    assert s2.evicted == {0} && s2.chains[0] == s1.chains[0];
    NothingToDo(s2);
    TriggerRun(s1, b, []);
    TriggerRun(Init(1), a, [Check(b), Start(b, true)] + []);
  }

  lemma NothingToDo(s: State)
    ensures Allowed(s, []) && AllKept(s, []) && Run(s, []) == s
  {
  }
}
