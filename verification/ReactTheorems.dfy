/** What holds of every turn, whatever strategy drives it, and of every turn the
    ReAct strategy drives, whatever the model and the tools answer. */
module ReactTheorems {
  import opened AgentLoop

  // -- any strategy -----------------------------------------------------------------

  predicate Cancels(it: Iteration) {
    it == NoDecision(Cancelled) || (it.Decided? && it.reply == Fails(Cancelled))
  }

  /** While a turn goes on nothing terminal has been published. */
  predicate Sound(t: Turn) {
    && (!t.over ==> t.events == [])
    && |t.events| <= 1
    && |t.stamps| <= (if t.stamped then 1 else 0)
  }

  lemma StepIsSound(t: Turn, it: Iteration)
    requires Sound(t) && !t.over
    ensures var t' := Step(t, it);
      && Sound(t') && t.messages <= t'.messages
      && (t'.over && !Cancels(it) ==> |t'.events| == 1)
      && |t.log| <= |t'.log| <= |t.log| + 1 && (!t'.over ==> |t'.log| == |t.log| + 1)
  {
  }

  /** A turn publishes exactly one terminal event unless it is cancelled, and never
      two; it takes at most `|its|` decisions; it stamps the provider at most
      once; and its messages only grow. */
  lemma {:induction false} TurnEndsOnce(t: Turn, its: seq<Iteration>)
    requires Sound(t) && !t.over
    ensures var t' := Run(t, its);
      && t'.over && Sound(t')
      && ((forall i | 0 <= i < |its| :: !Cancels(its[i])) ==> |t'.events| == 1)
      && |t'.log| <= |t.log| + |its|
      && |t'.stamps| <= 1
      && t.messages <= t'.messages
    decreases |its|
  {
    if its != [] {
      StepIsSound(t, its[0]);
      if !Step(t, its[0]).over {
        TurnEndsOnce(Step(t, its[0]), its[1..]);
      }
    }
  }

  // -- tool ids ---------------------------------------------------------------------

  lemma {:induction false} DecimalInjective(a: nat, b: nat)
    requires Decimal(a) == Decimal(b)
    ensures a == b
    decreases a
  {
    var x, y := Decimal(a), Decimal(b);
    DecimalLength(a);
    DecimalLength(b);
    assert x[|x| - 1] == Digit(a % 10) && y[|y| - 1] == Digit(b % 10);
    DigitInjective(a % 10, b % 10);
    if a >= 10 {
      assert x[..|x| - 1] == Decimal(a / 10) && y[..|y| - 1] == Decimal(b / 10);
      DecimalInjective(a / 10, b / 10);
    }
  }

  lemma DecimalLength(n: nat)
    ensures |Decimal(n)| >= 1 && (|Decimal(n)| == 1 <==> n < 10)
  {
  }

  lemma DigitInjective(a: nat, b: nat)
    requires a < 10 && b < 10 && Digit(a) == Digit(b)
    ensures a == b
  {
  }

  lemma ToolIdInjective(a: nat, b: nat)
    requires ToolId(a) == ToolId(b)
    ensures a == b
  {
    assert ToolId(a)[3..] == Decimal(a) && ToolId(b)[3..] == Decimal(b);
    DecimalInjective(a, b);
  }

  // -- the shape of a ReAct turn --------------------------------------------------------

  predicate IsNudge(d: Decision) {
    d.Llm? && d.append != []
  }

  predicate Plain(d: Decision) {
    d.Llm? && d.append == []
  }

  /** The first decision asks the model; a tool call comes right after a model call
      and is followed by a plain one; only the last decision can be `done`; a tool
      call's id names its step. */
  predicate LogShape(log: seq<Decision>) {
    && (log != [] ==> Plain(log[0]))
    && (forall i | 0 <= i < |log| :: log[i].Llm? || log[i].Tool? || (log[i].Done? && i == |log| - 1))
    && (forall i | 0 <= i < |log| && log[i].Tool? :: 0 < i && log[i - 1].Llm? && log[i].id == ToolId(i))
    && (forall i | 0 < i < |log| && log[i - 1].Tool? :: Plain(log[i]))
  }

  function CountTools(log: seq<Decision>): nat {
    if log == [] then 0
    else CountTools(log[..|log| - 1]) + if log[|log| - 1].Tool? then 1 else 0
  }

  /** Tool calls since the last nudge, or -1 if there was none. */
  function SinceNudge(log: seq<Decision>): int {
    if log == [] then -1 else
    var d, n := log[|log| - 1], SinceNudge(log[..|log| - 1]);
    if IsNudge(d) then 0 else if d.Tool? && n >= 0 then n + 1 else n
  }

  predicate Spaced(log: seq<Decision>) {
    forall i, j | 0 <= i < j < |log| && IsNudge(log[i]) && IsNudge(log[j]) :: CountTools(log[i..j]) >= 2
  }

  /** Where the last nudge stands, counted from the end of the messages. */
  function NudgeDepth(t: Turn): int {
    2 * SinceNudge(t.log) + if t.log != [] && t.log[|t.log| - 1].Llm? then 2 else 1
  }

  predicate LastIs(t: Turn, role: string) {
    t.messages != [] && t.messages[|t.messages| - 1].role == role
  }

  /** How the messages of a turn that goes on mirror its decisions. */
  predicate Mirrors(t: Turn) {
    && (t.log == [] || t.log[|t.log| - 1].Tool? ==> LastIs(t, "user"))
    && (t.log != [] && t.log[|t.log| - 1].Llm? ==>
          t.messages != [] && t.messages[|t.messages| - 1] == Msg("assistant", t.lastText))
    && (t.log != [] ==> !t.log[|t.log| - 1].Done?)
    && (SinceNudge(t.log) >= 0 ==>
          0 < NudgeDepth(t) <= |t.messages| && IsMarked(t.messages[|t.messages| - NudgeDepth(t)]))
  }

  predicate ReactInv(t: Turn) {
    && LogShape(t.log) && Spaced(t.log)
    && (!t.over ==> Mirrors(t))
    && (t.over && t.events != [] && t.events[|t.events| - 1].AssistantDone? ==>
          t.messages != [] && t.messages[|t.messages| - 1] == Msg("assistant", t.events[|t.events| - 1].content))
  }

  lemma CountToolsAppend(log: seq<Decision>, d: Decision)
    ensures CountTools(log + [d]) == CountTools(log) + if d.Tool? then 1 else 0
  {
    assert (log + [d])[..|log|] == log;
  }

  lemma SinceNudgeAppend(log: seq<Decision>, d: Decision)
    ensures SinceNudge(log + [d]) ==
      if IsNudge(d) then 0
      else if d.Tool? && SinceNudge(log) >= 0 then SinceNudge(log) + 1
      else SinceNudge(log)
  {
    assert (log + [d])[..|log|] == log;
  }

  /** Any nudge is at least as many tool calls back as the last one. */
  lemma {:induction false} ToolsSinceAnyNudge(log: seq<Decision>, i: nat)
    requires i < |log| && IsNudge(log[i])
    ensures 0 <= SinceNudge(log) <= CountTools(log[i..])
    decreases |log|
  {
    var n := |log| - 1;
    if i < n {
      ToolsSinceAnyNudge(log[..n], i);
      assert log[i..] == log[..n][i..] + [log[n]];
      CountToolsAppend(log[..n][i..], log[n]);
      assert log == log[..n] + [log[n]];
    }
  }

  lemma SpacedAppend(log: seq<Decision>, d: Decision)
    requires Spaced(log) && (IsNudge(d) && SinceNudge(log) >= 0 ==> SinceNudge(log) >= 2)
    ensures Spaced(log + [d])
  {
    var log' := log + [d];
    forall i, j | 0 <= i < j < |log'| && IsNudge(log'[i]) && IsNudge(log'[j]) ensures CountTools(log'[i..j]) >= 2 {
      if j == |log| {
        assert log'[i..j] == log[i..];
        ToolsSinceAnyNudge(log, i);
      } else {
        assert log'[i..j] == log[i..j];
      }
    }
  }

  /** A nudge within the last two tool round trips is still among the last four
      messages, so the strategy does not nudge again. */
  lemma RecentNudgeIsSeen(t: Turn)
    requires !t.over && Mirrors(t) && t.log != [] && t.log[|t.log| - 1].Llm? && 0 <= SinceNudge(t.log) <= 1
    ensures HasRecentMarker(t.messages)
  {
    assert IsMarked(t.messages[|t.messages| - NudgeDepth(t)]);
  }

  /** In a state that mirrors its log, only a log that ends with a model call lets
      the strategy do anything but ask the model plainly. */
  lemma OnlyAfterLlm(parse: string -> Parsed, setup: Setup, t: Turn)
    requires ReactInv(t) && !t.over
    requires !Plain(Decide(parse, setup, t.messages, |t.log|))
    ensures t.log != [] && t.log[|t.log| - 1].Llm?
  {
    hide Nudge, IsMarked, HasRecentMarker;
    assert "user" != "assistant" by { assert "user"[0] != "assistant"[0]; }
  }

  lemma NudgesAreSpaced(parse: string -> Parsed, setup: Setup, t: Turn)
    requires ReactInv(t) && !t.over
    ensures Spaced(t.log + [Decide(parse, setup, t.messages, |t.log|)])
  {
    hide Nudge, IsMarked;
    var d := Decide(parse, setup, t.messages, |t.log|);
    if IsNudge(d) && 0 <= SinceNudge(t.log) <= 1 {
      OnlyAfterLlm(parse, setup, t);
      RecentNudgeIsSeen(t);
    }
    SpacedAppend(t.log, d);
  }

  /** What the strategy decides in a state that mirrors its log. */
  lemma DecisionShape(parse: string -> Parsed, setup: Setup, t: Turn)
    requires ReactInv(t) && !t.over
    ensures var d := Decide(parse, setup, t.messages, |t.log|);
      && LogShape(t.log + [d]) && Spaced(t.log + [d])
      && (!Plain(d) ==> t.log != [] && t.log[|t.log| - 1].Llm?)
      && (IsNudge(d) ==> exists reason :: d.append == [Nudge(reason)])
  {
    hide Nudge, IsMarked, HasRecentMarker, ToolId, Spaced, Sound;
    NudgesAreSpaced(parse, setup, t);
    if !Plain(Decide(parse, setup, t.messages, |t.log|)) {
      OnlyAfterLlm(parse, setup, t);
    }
  }

  lemma NudgeIsMarked(reason: string)
    ensures IsMarked(Nudge(reason))
  {
  }

  lemma MirrorsAfterLlm(t: Turn, d: Decision, t': Turn)
    requires ReactInv(t) && !t.over && d.Llm?
    requires d.append == [] || (exists reason :: d.append == [Nudge(reason)])
    requires d.append != [] ==> t.log != [] && t.log[|t.log| - 1].Llm?
    requires d.append == [] ==> t.log == [] || t.log[|t.log| - 1].Tool?
    requires t'.log == t.log + [d] && t'.messages == t.messages + d.append + [Msg("assistant", t'.lastText)]
    ensures Mirrors(t')
  {
    SinceNudgeAppend(t.log, d);
    if d.append != [] {
      var reason :| d.append == [Nudge(reason)];
      NudgeIsMarked(reason);
      assert t'.messages[|t'.messages| - 2] == Nudge(reason);
    }
  }

  lemma MirrorsAfterTool(t: Turn, d: Decision, obs: string, t': Turn)
    requires ReactInv(t) && !t.over && d.Tool? && t.log != [] && t.log[|t.log| - 1].Llm?
    requires t'.log == t.log + [d] && t'.messages == t.messages + [Observation(obs)]
    ensures Mirrors(t')
  {
    SinceNudgeAppend(t.log, d);
  }

  lemma ReactLlmStep(t: Turn, d: Decision, reply: Reply)
    requires ReactInv(t) && Sound(t) && !t.over && d.Llm?
    requires LogShape(t.log + [d]) && Spaced(t.log + [d])
    requires d.append == [] || (exists reason :: d.append == [Nudge(reason)])
    requires d.append != [] ==> t.log != [] && t.log[|t.log| - 1].Llm?
    requires d.append == [] ==> t.log == [] || t.log[|t.log| - 1].Tool?
    ensures ReactInv(Step(t, Decided(d, reply)))
  {
    hide Nudge, IsMarked;
    var t' := Step(t, Decided(d, reply));
    if !t'.over {
      assert t'.messages == t.messages + d.append + [Msg("assistant", t'.lastText)];
      MirrorsAfterLlm(t, d, t');
    }
  }

  lemma ReactToolStep(t: Turn, d: Decision, reply: Reply)
    requires ReactInv(t) && Sound(t) && !t.over && d.Tool? && t.log != [] && t.log[|t.log| - 1].Llm?
    requires LogShape(t.log + [d]) && Spaced(t.log + [d])
    ensures ReactInv(Step(t, Decided(d, reply)))
  {
    hide Nudge, IsMarked;
    var t' := Step(t, Decided(d, reply));
    if !t'.over {
      MirrorsAfterTool(t, d, reply.observation, t');
    }
  }

  lemma ReactStep(parse: string -> Parsed, setup: Setup, t: Turn, it: Iteration)
    requires ReactInv(t) && Sound(t) && !t.over
    requires it.Decided? ==> it.d == Decide(parse, setup, t.messages, |t.log|)
    ensures ReactInv(Step(t, it))
  {
    hide Nudge, IsMarked;
    if it.Decided? {
      DecisionShape(parse, setup, t);
      if it.d.Llm? {
        if it.d.append == [] {
          PlainOnlyAfterTool(parse, setup, t);
        }
        ReactLlmStep(t, it.d, it.reply);
      } else if it.d.Tool? {
        ReactToolStep(t, it.d, it.reply);
      }
    }
  }

  /** Right after a model call the strategy never asks the model without a nudge. */
  lemma PlainOnlyAfterTool(parse: string -> Parsed, setup: Setup, t: Turn)
    requires ReactInv(t) && !t.over
    requires Plain(Decide(parse, setup, t.messages, |t.log|))
    ensures t.log == [] || t.log[|t.log| - 1].Tool?
  {
  }

  lemma {:induction false} ReactRun(parse: string -> Parsed, setup: Setup, t: Turn, its: seq<Iteration>)
    requires ReactInv(t) && Sound(t) && ReactDriven(parse, setup, t, its)
    ensures ReactInv(Run(t, its))
    decreases |its|
  {
    if !t.over && its != [] {
      ReactStep(parse, setup, t, its[0]);
      StepIsSound(t, its[0]);
      ReactRun(parse, setup, Step(t, its[0]), its[1..]);
    }
  }

  lemma {:induction false} ToolsAreHalf(log: seq<Decision>)
    requires LogShape(log)
    ensures 2 * CountTools(log) <= |log|
    decreases |log|
  {
    if log != [] {
      var n := |log| - 1;
      if log[n].Tool? {
        assert log[..n][..n - 1] == log[..n - 1];
        ToolsAreHalf(log[..n - 1]);
      } else {
        ToolsAreHalf(log[..n]);
      }
    }
  }

  lemma StartIsReact(history: seq<Msg>, text: string)
    ensures var t := Start(LoadHistory(history, text)); ReactInv(t) && Sound(t) && !t.over && t.log == []
  {
  }

  // -- main result ------------------------------------------------------------------

  /** Every turn of the closed loop, for any history that ends with the user's
      message, any parser, any model and tool answers: the first decision asks the
      model; every tool call is preceded and followed by a model call, so tool
      calls are at most half the decision budget; their ids are distinct; two
      format nudges are at least two completed tool round trips apart; and `done`
      publishes exactly the last assistant message. */
  lemma ReactTurn(parse: string -> Parsed, setup: Setup, history: seq<Msg>, text: string, its: seq<Iteration>)
    requires ReactDriven(parse, setup, Start(LoadHistory(history, text)), its)
    ensures var t := Run(Start(LoadHistory(history, text)), its);
      && (t.log != [] ==> Plain(t.log[0]))
      && (forall i | 0 <= i < |t.log| && t.log[i].Tool? ::
            0 < i && t.log[i - 1].Llm? && (i + 1 < |t.log| ==> Plain(t.log[i + 1])))
      && CountTools(t.log) <= |its| / 2
      && (forall i, j | 0 <= i < j < |t.log| && t.log[i].Tool? && t.log[j].Tool? :: t.log[i].id != t.log[j].id)
      && Spaced(t.log)
      && (t.events != [] && t.events[0].AssistantDone? ==>
            t.messages != [] && t.messages[|t.messages| - 1] == Msg("assistant", t.events[0].content))
  {
    hide Run, LoadHistory, ReactDriven, Decide, Spaced, CountTools;
    var t0 := Start(LoadHistory(history, text));
    var t := Run(t0, its);
    StartIsReact(history, text);
    ReactRun(parse, setup, t0, its);
    TurnEndsOnce(t0, its);
    ToolsAreHalf(t.log);
    forall i, j | 0 <= i < j < |t.log| && t.log[i].Tool? && t.log[j].Tool? ensures t.log[i].id != t.log[j].id {
      if t.log[i].id == t.log[j].id {
        ToolIdInjective(i, j);
      }
    }
  }
}
