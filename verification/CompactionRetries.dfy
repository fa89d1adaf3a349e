/** The manager's tables and its retry loop, with the literal numbers: what a start evicts,
    how a run that keeps failing ends, and who stays disabled. */
module CompactionRetries {
  import opened CompactionManager

  // -- what a start does to the tables ----------------------------------------------------------

  /** Below the cap a start adds its record and nothing else; at the cap the oldest record goes,
      with its session's attempts, and its run goes on. */
  lemma StartEvicts(s: State, sid: string)
    requires Enabled(s, Start(sid, true))
    ensures var t := Apply(s, Start(sid, true));
      var n := |s.chains|;
      && t.chains == s.chains + [Chain(sid, Scheduled, 0, 0, false)]
      && t.inflight != [] && t.inflight[|t.inflight| - 1] == (sid, n)
      && (|s.inflight| < s.cap ==>
            t.inflight == s.inflight + [(sid, n)] && t.attempts == s.attempts && t.evicted == s.evicted)
      && (|s.inflight| >= s.cap ==>
            && t.inflight[..|t.inflight| - 1] == s.inflight[1..]
            && t.evicted == s.evicted + {s.inflight[0].1}
            && s.inflight[0].0 !in t.attempts
            && forall x | x != s.inflight[0].0 ::
                 (x in t.attempts <==> x in s.attempts) && (x in t.attempts ==> t.attempts[x] == s.attempts[x]))
      && t.disabled == s.disabled && t.failures == s.failures && sid !in t.checking
  {
  }

  /** A handler whose tape is not due leaves everything as it was, and the session's next event
      is looked at again. */
  lemma NotDue(s: State, sid: string)
    requires Enabled(s, Start(sid, false))
    ensures var t := Apply(s, Start(sid, false));
      && sid !in t.checking && t.(checking := s.checking) == s && Enabled(t, Check(sid))
      && forall x | x != sid :: x in t.checking <==> x in s.checking
  {
  }

  /** Giving up a session that is disabled already moves nobody out of the table. */
  lemma DisabledAlready(s: State, t: nat)
    requires In(s, t, Trying) && s.chains[t].attempt >= 3 && s.chains[t].sid in s.disabled
    ensures Apply(s, Stumble(t)).disabled == s.disabled
  {
  }

  // -- a run that keeps failing -------------------------------------------------------------------

  predicate Fresh(s: State, t: nat) {
    && In(s, t, Scheduled) && s.chains[t].attempt == 0 && s.chains[t].tries == 0 && !s.chains[t].failed
    && s.chains[t].sid !in s.attempts
  }

  lemma FirstTry(s: State, t: nat)
    requires Fresh(s, t)
    ensures Enabled(s, Begin(t)) && var u := Apply(s, Begin(t));
      && In(u, t, Trying) && u.chains[t] == s.chains[t].(phase := Trying, attempt := 1, tries := 1)
      && u.failures == s.failures && u.disabled == s.disabled && u.cap == s.cap
  {
  }

  lemma NextTry(s: State, t: nat, n: nat)
    requires In(s, t, Trying) && s.chains[t].attempt == s.chains[t].tries == n && n < 3
    ensures Enabled(s, Stumble(t)) && var m := Apply(s, Stumble(t));
      && Enabled(m, Retry(t)) && var u := Apply(m, Retry(t));
      && In(u, t, Trying) && u.chains[t] == s.chains[t].(attempt := n + 1, tries := n + 1)
      && u.failures == s.failures && u.disabled == s.disabled && u.cap == s.cap
  {
  }

  lemma LastTry(s: State, t: nat)
    requires In(s, t, Trying) && s.chains[t].attempt == s.chains[t].tries == 3
    ensures Enabled(s, Stumble(t)) && var u := Apply(s, Stumble(t));
      && u.chains[t] == s.chains[t].(phase := Over, failed := true)
      && u.failures == s.failures + [s.chains[t].sid] && s.chains[t].sid in u.disabled
      && s.chains[t].sid !in u.attempts && !Accepted(u, s.chains[t].sid)
  {
  }

  /** A run whose summariser fails is tried three times, neither less nor more; then it is
      over, its session is published as failed and disabled, and no event of the session
      starts another. */
  lemma ThreeFailuresGiveUp(s: State, t: nat)
    requires Fresh(s, t)
    ensures var s1 := Apply(s, Begin(t));
      Enabled(s1, Stumble(t)) && var s2 := Apply(s1, Stumble(t));
      Enabled(s2, Retry(t)) && var s3 := Apply(s2, Retry(t));
      Enabled(s3, Stumble(t)) && var s4 := Apply(s3, Stumble(t));
      Enabled(s4, Retry(t)) && var s5 := Apply(s4, Retry(t));
      Enabled(s5, Stumble(t)) && var u := Apply(s5, Stumble(t));
      && u.chains[t] == s.chains[t].(phase := Over, attempt := 3, tries := 3, failed := true)
      && u.failures == s.failures + [s.chains[t].sid] && !Accepted(u, s.chains[t].sid)
  {
    hide Apply, Enabled, Accepted;
    FirstTry(s, t);
    var s1 := Apply(s, Begin(t));
    NextTry(s1, t, 1);
    var s3 := Apply(Apply(s1, Stumble(t)), Retry(t));
    NextTry(s3, t, 2);
    LastTry(Apply(Apply(s3, Stumble(t)), Retry(t)), t);
  }

  /** A success at any try ends the run, forgets the attempts and fails nobody. */
  lemma SuccessEnds(s: State, t: nat)
    requires In(s, t, Trying)
    ensures var u := Apply(s, Succeed(t));
      && In(u, t, Over) && u.chains[t].failed == s.chains[t].failed && s.chains[t].sid !in u.attempts
      && u.failures == s.failures && u.disabled == s.disabled && Enabled(u, Callback(t))
  {
  }

  /** A run that finds three attempts left behind by another one is over at once, without
      calling the summariser. */
  lemma SpentAttempts(s: State, t: nat)
    requires In(s, t, Scheduled) && s.chains[t].sid in s.attempts && s.attempts[s.chains[t].sid] >= 3
    ensures Apply(s, Begin(t)) == s.(chains := s.chains[t := s.chains[t].(phase := Over)])
  {
  }

  /** And one that finds fewer goes on counting behind them. */
  lemma LeftAttempts(s: State, t: nat)
    requires In(s, t, Scheduled) && s.chains[t].sid in s.attempts && s.attempts[s.chains[t].sid] < 3
    ensures var n := s.attempts[s.chains[t].sid] + 1;
      && In(Apply(s, Begin(t)), t, Trying) && Apply(s, Begin(t)).chains[t].attempt == n
      && Apply(s, Begin(t)).attempts == s.attempts[s.chains[t].sid := n]
  {
  }

  // -- who failed -----------------------------------------------------------------------------------

  /** A session is published as failed exactly if a run of it gave up. */
  ghost predicate FailedExactly(s: State) {
    forall sid :: sid in s.failures <==> exists t :: 0 <= t < |s.chains| && s.chains[t].sid == sid && s.chains[t].failed
  }

  lemma ChainsSame(s: State, u: State, t: nat)
    requires FailedExactly(s) && t < |s.chains| && |u.chains| == |s.chains| && u.failures == s.failures
    requires u.chains == s.chains[t := u.chains[t]]
    requires u.chains[t].sid == s.chains[t].sid && u.chains[t].failed == s.chains[t].failed
    ensures FailedExactly(u)
  {
    forall sid ensures sid in u.failures <==>
      exists i :: 0 <= i < |u.chains| && u.chains[i].sid == sid && u.chains[i].failed {
      if i :| 0 <= i < |s.chains| && s.chains[i].sid == sid && s.chains[i].failed {
        assert u.chains[i].sid == sid && u.chains[i].failed;
      }
      if i :| 0 <= i < |u.chains| && u.chains[i].sid == sid && u.chains[i].failed {
        assert s.chains[i].sid == sid && s.chains[i].failed;
      }
    }
  }

  lemma GivesUpExactly(s: State, t: nat)
    requires FailedExactly(s) && In(s, t, Trying) && s.chains[t].attempt >= 3
    ensures FailedExactly(Apply(s, Stumble(t)))
  {
    hide Disable;
    var u := Apply(s, Stumble(t));
    forall sid ensures sid in u.failures <==>
      exists i :: 0 <= i < |u.chains| && u.chains[i].sid == sid && u.chains[i].failed {
      assert sid in u.failures <==> sid in s.failures || sid == s.chains[t].sid;
      if i :| 0 <= i < |s.chains| && s.chains[i].sid == sid && s.chains[i].failed {
        assert u.chains[i].sid == sid && u.chains[i].failed;
      }
      if sid == s.chains[t].sid {
        assert u.chains[t].sid == sid && u.chains[t].failed;
      }
      if i :| 0 <= i < |u.chains| && u.chains[i].sid == sid && u.chains[i].failed && i != t {
        assert s.chains[i].sid == sid && s.chains[i].failed;
      }
    }
  }

  lemma StartsNobodyFailed(s: State, a: Action)
    requires FailedExactly(s) && Enabled(s, a) && (a.Check? || a.Start?)
    ensures FailedExactly(Apply(s, a))
  {
    var u := Apply(s, a);
    forall sid ensures sid in u.failures <==>
      exists i :: 0 <= i < |u.chains| && u.chains[i].sid == sid && u.chains[i].failed {
      if i :| 0 <= i < |s.chains| && s.chains[i].sid == sid && s.chains[i].failed {
        assert u.chains[i].sid == sid && u.chains[i].failed;
      }
      if i :| 0 <= i < |u.chains| && u.chains[i].sid == sid && u.chains[i].failed {
        assert i < |s.chains| ==> s.chains[i].sid == sid && s.chains[i].failed;
      }
    }
  }

  lemma StepFailed(s: State, a: Action)
    requires FailedExactly(s) && Enabled(s, a)
    ensures FailedExactly(Apply(s, a))
  {
    hide FailedExactly;
    if a.Check? || a.Start? { StartsNobodyFailed(s, a); }
    else if a.Stumble? && s.chains[a.t].attempt >= 3 { GivesUpExactly(s, a.t); }
    else { ChainsSame(s, Apply(s, a), a.t); }
  }

  /** Over every run, evictions and all. */
  lemma {:induction false} FailedIff(s: State, acts: seq<Action>)
    requires FailedExactly(s) && Allowed(s, acts)
    ensures FailedExactly(Run(s, acts))
    decreases |acts|
  {
    hide FailedExactly, Apply, Enabled;
    if acts != [] {
      StepFailed(s, acts[0]);
      FailedIff(Apply(s, acts[0]), acts[1..]);
    }
  }

  // -- who is disabled ----------------------------------------------------------------------------------

  /** The last `n` of a list, all of it if it is shorter. */
  function LastOf(ids: seq<string>, n: nat): seq<string> {
    if |ids| <= n then ids else ids[|ids| - n..]
  }

  predicate LatestDisabled(s: State) {
    s.disabled == LastOf(s.failures, s.cap)
  }

  lemma StepDisabled(s: State, a: Action)
    requires LatestDisabled(s) && Inv(s) && Enabled(s, a) && s.cap > 0
    ensures LatestDisabled(Apply(s, a)) && Apply(s, a).cap == s.cap
  {
    hide Inv, Tracked, Untrack;
    if a.Stumble? && s.chains[a.t].attempt >= 3 {
      TryingIsNotFailed(s, a.t);
      DisabledHaveFailed(s);
      LastOfAppend(s.failures, s.chains[a.t].sid, s.cap);
    }
  }

  lemma DisabledHaveFailed(s: State)
    requires LatestDisabled(s)
    ensures forall sid | sid in s.disabled :: sid in s.failures
  {
    forall sid | sid in s.disabled ensures sid in s.failures {
      var i :| 0 <= i < |s.disabled| && s.disabled[i] == sid;
      assert s.failures[|s.failures| - |s.disabled| + i] == sid;
    }
  }

  lemma TryingIsNotFailed(s: State, t: nat)
    requires Inv(s) && In(s, t, Trying)
    ensures s.chains[t].sid !in s.failures
  {
  }

  lemma LastOfAppend(ids: seq<string>, id: string, n: nat)
    requires n > 0
    ensures LastOf(ids + [id], n) == (if |LastOf(ids, n)| >= n then LastOf(ids, n)[1..] else LastOf(ids, n)) + [id]
  {
  }

  lemma {:induction false} RunDisabled(s: State, acts: seq<Action>)
    requires LatestDisabled(s) && Inv(s) && Allowed(s, acts) && AllKept(s, acts) && s.cap > 0
    ensures LatestDisabled(Run(s, acts)) && Run(s, acts).cap == s.cap
    decreases |acts|
  {
    hide LatestDisabled, Inv, Apply, Enabled, Keeps;
    if acts != [] {
      StepKeepsInv(s, acts[0]);
      StepDisabled(s, acts[0]);
      RunDisabled(Apply(s, acts[0]), acts[1..]);
    }
  }

  /** Over every run that keeps the guard: the sessions disabled are the last ones given up, as
      many as the cap allows, in order. */
  lemma DisabledAreTheLatest(cap: nat, acts: seq<Action>)
    requires cap > 0 && Allowed(Init(cap), acts) && AllKept(Init(cap), acts)
    ensures var s := Run(Init(cap), acts);
      s.disabled == if |s.failures| <= cap then s.failures else s.failures[|s.failures| - cap..]
  {
    hide Run, Allowed, AllKept, Inv;
    InitInv(cap);
    RunDisabled(Init(cap), acts);
  }
}
