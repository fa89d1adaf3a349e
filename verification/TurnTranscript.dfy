/** What a turn makes of the answers it gets: its messages, its requests, its stamp and its
    end, read off the iterations alone. */
module TurnTranscript {
  import opened AgentLoop

  predicate ModelAnswers(it: Iteration) {
    it.Decided? && it.d.Llm? && it.reply.Responds? && !it.reply.isError
  }

  /** The turn goes on behind it. */
  predicate GoesOn(it: Iteration) {
    ModelAnswers(it) || (it.Decided? && (it.d.Tool? || it.d.Memory?) && it.reply.Responds?)
  }

  /** The last text the model answered with that was not empty. */
  function LastSaid(its: seq<Iteration>): string {
    if its == [] then ""
    else
      var it := its[|its| - 1];
      if ModelAnswers(it) && it.reply.text != "" then it.reply.text else LastSaid(its[..|its| - 1])
  }

  /** What the last of these iterations adds to the messages: what the strategy appends, and
      the answer of the model or the tool. */
  function Added(its: seq<Iteration>): seq<Msg>
    requires its != []
  {
    var it := its[|its| - 1];
    if !it.Decided? then []
    else if it.d.Llm? then it.d.append + if ModelAnswers(it) then [Msg("assistant", LastSaid(its))] else []
    else if it.d.Tool? && it.reply.Responds? then [Msg("user", "Observation: " + it.reply.observation)]
    else []
  }

  function Transcript(its: seq<Iteration>): seq<Msg> {
    if its == [] then [] else Transcript(its[..|its| - 1]) + Added(its)
  }

  /** What the model is asked: the priming of this request alone, then all messages so far
      with what the strategy has just appended. */
  function Questions(history: seq<Msg>, its: seq<Iteration>): seq<seq<Msg>> {
    if its == [] then []
    else
      var it, before := its[|its| - 1], its[..|its| - 1];
      Questions(history, before)
      + if it.Decided? && it.d.Llm? then [it.d.prepend + (history + Transcript(before) + it.d.append)] else []
  }

  /** The provider and model of the first answer, unless it names neither. */
  function Stamp(its: seq<Iteration>): seq<(string, string)> {
    if its == [] then []
    else if !ModelAnswers(its[0]) then Stamp(its[1..])
    else if its[0].d.provider == "" && its[0].d.model == "" then []
    else [(its[0].d.provider, its[0].d.model)]
  }

  predicate AnyAnswer(its: seq<Iteration>) {
    exists i :: 0 <= i < |its| && ModelAnswers(its[i])
  }

  function After(t: Turn, its: seq<Iteration>): Turn {
    if its == [] then t else Step(After(t, its[..|its| - 1]), its[|its| - 1])
  }

  predicate AllGoOn(its: seq<Iteration>) {
    forall i | 0 <= i < |its| :: GoesOn(its[i])
  }

  lemma AnyFirst(its: seq<Iteration>)
    requires its != []
    ensures AnyAnswer(its) <==> ModelAnswers(its[0]) || AnyAnswer(its[1..])
  {
    hide ModelAnswers;
    if i :| 0 <= i < |its| && ModelAnswers(its[i]) {
      assert i > 0 ==> its[1..][i - 1] == its[i];
    }
    if i :| 0 <= i < |its| - 1 && ModelAnswers(its[1..][i]) {
      assert its[i + 1] == its[1..][i];
    }
  }

  lemma NoAnswer()
    ensures !AnyAnswer([]) && Stamp([]) == []
  {
  }

  lemma {:induction false} StampAppend(its: seq<Iteration>, it: Iteration)
    ensures Stamp(its + [it]) == if AnyAnswer(its) then Stamp(its) else Stamp(its) + Stamp([it])
    ensures AnyAnswer(its + [it]) <==> AnyAnswer(its) || ModelAnswers(it)
    ensures !AnyAnswer(its) ==> Stamp(its) == []
    decreases |its|
  {
    hide ModelAnswers, AnyAnswer;
    var more := its + [it];
    NoAnswer();
    AnyFirst(more);
    if its == [] {
      assert more == [it] && [it][1..] == [] && [] + Stamp([it]) == Stamp([it]);
    } else {
      assert more[0] == its[0] && more[1..] == its[1..] + [it];
      AnyFirst(its);
      StampAppend(its[1..], it);
    }
  }

  predicate Reflects(history: seq<Msg>, its: seq<Iteration>, t: Turn) {
    && t.messages == history + Transcript(its)
    && t.asked == Questions(history, its)
    && t.lastText == LastSaid(its)
    && t.stamped == AnyAnswer(its) && t.stamps == Stamp(its)
    && |t.log| == |its| && (forall i | 0 <= i < |its| :: its[i].Decided? && t.log[i] == its[i].d)
    && t.events == [] && !t.over
  }

  lemma AnsweredTranscript(history: seq<Msg>, its: seq<Iteration>, it: Iteration)
    requires ModelAnswers(it)
    ensures var more := its + [it];
      && LastSaid(more) == (if it.reply.text != "" then it.reply.text else LastSaid(its))
      && Transcript(more) == Transcript(its) + (it.d.append + [Msg("assistant", LastSaid(more))])
      && Questions(history, more)
           == Questions(history, its) + [it.d.prepend + (history + Transcript(its) + it.d.append)]
  {
    assert (its + [it])[..|its|] == its && (its + [it])[|its|] == it;
  }

  lemma AnsweredStep(history: seq<Msg>, its: seq<Iteration>, t: Turn, it: Iteration)
    requires Reflects(history, its, t) && ModelAnswers(it)
    ensures Reflects(history, its + [it], Step(t, it))
  {
    hide AnyAnswer, Stamp, LastSaid, Transcript, Questions;
    var more := its + [it];
    StampAppend(its, it);
    OneStamp(it);
    NoStampLater(its);
    AnsweredTranscript(history, its, it);
    assert history + Transcript(its) + it.d.append + [Msg("assistant", LastSaid(more))]
        == history + (Transcript(its) + (it.d.append + [Msg("assistant", LastSaid(more))]));
  }

  lemma OneStamp(it: Iteration)
    ensures Stamp([it]) == if ModelAnswers(it) then Stamped([], it.d.provider, it.d.model) else []
  {
    assert [it][1..] == [];
  }

  lemma NoStampLater(its: seq<Iteration>)
    ensures !AnyAnswer(its) ==> Stamp(its) == []
  {
    StampAppend(its, NoDecision(Crashed));
  }

  lemma NothingSaid(its: seq<Iteration>, it: Iteration)
    requires !ModelAnswers(it)
    ensures LastSaid(its + [it]) == LastSaid(its)
  {
    assert (its + [it])[..|its|] == its;
  }

  lemma OtherStep(history: seq<Msg>, its: seq<Iteration>, t: Turn, it: Iteration)
    requires Reflects(history, its, t) && GoesOn(it) && !ModelAnswers(it)
    ensures Reflects(history, its + [it], Step(t, it))
  {
    var more := its + [it];
    hide AnyAnswer, Stamp, LastSaid;
    assert more[..|its|] == its;
    StampAppend(its, it);
    OneStamp(it);
    NothingSaid(its, it);
    assert Stamp(its) + [] == Stamp(its);
    assert history + Transcript(its) + Added(more) == history + (Transcript(its) + Added(more));
    assert history + Transcript(its) + [] == history + Transcript(its);
  }

  lemma {:induction false} AfterReflects(history: seq<Msg>, its: seq<Iteration>)
    requires AllGoOn(its)
    ensures Reflects(history, its, After(Start(history), its))
  {
    hide Reflects, Step, GoesOn, ModelAnswers;
    if its == [] {
      Nothing(history);
    } else {
      var n := |its| - 1;
      AfterReflects(history, its[..n]);
      assert its == its[..n] + [its[n]];
      if ModelAnswers(its[n]) {
        AnsweredStep(history, its[..n], After(Start(history), its[..n]), its[n]);
      } else {
        OtherStep(history, its[..n], After(Start(history), its[..n]), its[n]);
      }
    }
  }

  lemma Nothing(history: seq<Msg>)
    ensures Reflects(history, [], Start(history))
  {
    assert history + [] == history;
  }

  lemma {:induction false} RunIsAfter(t: Turn, its: seq<Iteration>, n: nat)
    requires n <= |its| && AllGoOn(its[..n]) && !t.over
    ensures Run(t, its) == Run(After(t, its[..n]), its[n..]) && !After(t, its[..n]).over
    decreases n
  {
    hide Step, GoesOn, Run;
    if n == 0 {
      assert its[0..] == its;
    } else {
      assert its[..n][..n - 1] == its[..n - 1] && its[..n][n - 1] == its[n - 1];
      assert forall i | 0 <= i < n - 1 :: its[..n - 1][i] == its[..n][i];
      RunIsAfter(t, its, n - 1);
      var u := After(t, its[..n - 1]);
      assert its[n - 1..][0] == its[n - 1] && its[n - 1..][1..] == its[n..];
      RunStep(u, its[n - 1..]);
      GoingOn(u, its[n - 1]);
    }
  }

  lemma RunStep(t: Turn, its: seq<Iteration>)
    requires !t.over && its != []
    ensures Run(t, its) == Run(Step(t, its[0]), its[1..])
  {
  }

  lemma GoingOn(t: Turn, it: Iteration)
    requires !t.over && GoesOn(it)
    ensures !Step(t, it).over
  {
  }

  /** How many iterations a turn goes through before the one that ends it. */
  function Length(its: seq<Iteration>): (n: nat)
    ensures n <= |its| && AllGoOn(its[..n]) && (n < |its| ==> !GoesOn(its[n]))
  {
    if its == [] || !GoesOn(its[0]) then 0
    else
      var n := Length(its[1..]);
      assert forall i | 1 <= i < n + 1 :: its[i] == its[1..][..n][i - 1];
      n + 1
  }

  /** What the failure of a request ends a turn with. */
  function FailureEvents(f: Failure): seq<Event> {
    match f
    case TimedOut => [KernelError("step_timeout")]
    case Crashed => [KernelError("loop_crash")]
    case Cancelled => []
  }

  /** What the iteration that ends a turn publishes, behind those that went on. */
  function EndEvents(its: seq<Iteration>, it: Iteration): seq<Event> {
    match it
    case NoDecision(f) => FailureEvents(f)
    case Decided(d, reply) =>
      if d.Done? then [AssistantDone(LastSaid(its))]
      else if d.Unknown? then [KernelError("unknown_strategy_next")]
      else if reply.Fails? then FailureEvents(reply.f)
      else [KernelError("llm_error")]
  }

  /** Every turn, whatever decides and whatever answers, from its iterations alone. Behind
      the history stand, iteration by iteration, what the strategy appended and either
      `assistant` with the model's answer, or the last answer that was not empty in place of
      an empty one, or `user` with the tool's observation. Every request to the model carries
      its priming and all messages so far. The first answer's provider and model are stamped.
      The iteration that ends the turn decides its one event: `done` publishes the last answer
      that was not empty. */
  lemma TurnIs(history: seq<Msg>, its: seq<Iteration>)
    ensures var t := Run(Start(history), its);
      var n := Length(its);
      && t.over && t.stamps == Stamp(its[..n])
      && t.messages == history + Transcript(if n == |its| then its else its[..n + 1])
      && t.asked == Questions(history, if n == |its| then its else its[..n + 1])
      && t.events == if n == |its| then [KernelError("max_iterations_exceeded")] else EndEvents(its[..n], its[n])
  {
    hide Run, Transcript, Questions, Stamp, EndEvents, GoesOn, AllGoOn, Length;
    var n := Length(its);
    LengthIs(its);
    if n == |its| {
      assert its[..n] == its;
      TurnRunsOut(history, its);
    } else {
      TurnEnds(history, its, n);
    }
  }

  lemma LengthIs(its: seq<Iteration>)
    ensures var n := Length(its); AllGoOn(its[..n]) && (n < |its| ==> !GoesOn(its[n]))
  {
  }

  lemma TurnRunsOut(history: seq<Msg>, its: seq<Iteration>)
    requires AllGoOn(its)
    ensures var t := Run(Start(history), its);
      && t.over && t.stamps == Stamp(its) && t.messages == history + Transcript(its)
      && t.asked == Questions(history, its) && t.events == [KernelError("max_iterations_exceeded")]
  {
    hide Run, Transcript, Questions, Stamp, Step, Reflects, AllGoOn;
    assert its[..|its|] == its && its[|its|..] == [];
    RunIsAfter(Start(history), its, |its|);
    AfterReflects(history, its);
    var u := After(Start(history), its);
    ReflectsMeans(history, its, u);
    RunOut(u);
  }

  lemma TurnEnds(history: seq<Msg>, its: seq<Iteration>, n: nat)
    requires n < |its| && AllGoOn(its[..n]) && !GoesOn(its[n])
    ensures var t := Run(Start(history), its);
      && t.over && t.stamps == Stamp(its[..n]) && t.messages == history + Transcript(its[..n + 1])
      && t.asked == Questions(history, its[..n + 1]) && t.events == EndEvents(its[..n], its[n])
  {
    hide Run, Transcript, Questions, Stamp, Step, Reflects, AllGoOn, EndEvents, GoesOn;
    RunIsAfter(Start(history), its, n);
    AfterReflects(history, its[..n]);
    var u := After(Start(history), its[..n]);
    ReflectsMeans(history, its[..n], u);
    assert its[n..][0] == its[n] && its[..n] + [its[n]] == its[..n + 1];
    RunStep(u, its[n..]);
    LastStep(history, its[..n], u, its[n]);
    RunOver(Step(u, its[n]), its[n..][1..]);
  }

  lemma ReflectsMeans(history: seq<Msg>, its: seq<Iteration>, t: Turn)
    requires Reflects(history, its, t)
    ensures t.messages == history + Transcript(its) && t.asked == Questions(history, its)
    ensures t.stamps == Stamp(its) && t.events == [] && !t.over
  {
  }

  lemma RunOut(t: Turn)
    requires !t.over
    ensures Run(t, []) == t.(events := t.events + [KernelError("max_iterations_exceeded")], over := true)
  {
  }

  lemma RunOver(t: Turn, its: seq<Iteration>)
    requires t.over
    ensures Run(t, its) == t
  {
  }

  lemma LastEvents(its: seq<Iteration>, t: Turn, it: Iteration)
    requires t.events == [] && !t.over && t.lastText == LastSaid(its) && !GoesOn(it)
    ensures var u := Step(t, it); u.over && u.stamps == t.stamps && u.events == EndEvents(its, it)
  {
    hide LastSaid;
    assert forall e: Event :: [] + [e] == [e];
  }

  lemma LastMessages(t: Turn, it: Iteration)
    requires !GoesOn(it)
    ensures var u := Step(t, it);
      if it.Decided? && it.d.Llm?
      then u.messages == t.messages + it.d.append && u.asked == t.asked + [it.d.prepend + (t.messages + it.d.append)]
      else u.messages == t.messages && u.asked == t.asked
  {
  }

  lemma LastTranscript(history: seq<Msg>, its: seq<Iteration>, it: Iteration)
    requires !GoesOn(it)
    ensures var llm := it.Decided? && it.d.Llm?;
      && Transcript(its + [it]) == Transcript(its) + (if llm then it.d.append else [])
      && Questions(history, its + [it]) == Questions(history, its)
           + if llm then [it.d.prepend + (history + Transcript(its) + it.d.append)] else []
  {
    hide LastSaid;
    var more := its + [it];
    assert more[..|its|] == its && more[|its|] == it;
    assert it.Decided? && it.d.Llm? ==> it.d.append + [] == it.d.append;
  }

  lemma LastStep(history: seq<Msg>, its: seq<Iteration>, t: Turn, it: Iteration)
    requires Reflects(history, its, t) && !GoesOn(it)
    ensures var u := Step(t, it);
      && u.over && u.stamps == t.stamps && u.events == EndEvents(its, it)
      && u.messages == history + Transcript(its + [it]) && u.asked == Questions(history, its + [it])
  {
    hide LastSaid, Stamp, AnyAnswer, Transcript, Questions, EndEvents, Step, GoesOn;
    LastEvents(its, t, it);
    LastMessages(t, it);
    LastTranscript(history, its, it);
    if it.Decided? && it.d.Llm? {
      assert history + Transcript(its) + it.d.append == history + (Transcript(its) + it.d.append);
    }
  }

  // -- one decision of the ReAct strategy, on the messages as they stand ---------------------------

  /** With anything but an answer of the model at the end the model is asked, plainly; an
      answer decides by what it parses to, and one that does not parse is answered with a
      nudge unless a nudge is among the last four messages. */
  lemma DecisionIs(parse: string -> Parsed, setup: Setup, ms: seq<Msg>, m: Msg, step: nat)
    ensures var plain := Llm(setup.provider, setup.model, [], [setup.system]);
      var d := Decide(parse, setup, ms + [m], step);
      && Decide(parse, setup, [], step) == plain
      && (m.role != "assistant" ==> d == plain)
      && (m.role == "assistant" ==>
            match parse(m.content)
            case Final => d == Decision.Done
            case Action(name, args) => d == Tool("rx-" + Decimal(step), name, args)
            case Error(reason) =>
              if exists i | 0 <= i < |ms| && |ms| - 3 <= i :: CarriesNudge(ms[i])
              then d == Decision.Done
              else d == Llm(setup.provider, setup.model, [Msg("user", NudgeText(reason))], [setup.system]))
  {
    hide LastAssistant, Nudge, HasRecentMarker, ToolId;
    LastAssistantIs(ms, m);
    assert (ms + [m])[|ms|] == m && LastAssistant([]) == -1 by { NoAssistant(); }
    if m.role == "assistant" {
      RecentIs(ms, m);
      if parse(m.content).Error? {
        NudgeIs(parse(m.content).reason);
      } else if parse(m.content).Action? {
        ToolIdIs(step);
      }
    }
  }

  lemma NoAssistant()
    ensures LastAssistant([]) == -1
  {
  }

  lemma LastAssistantIs(ms: seq<Msg>, m: Msg)
    ensures LastAssistant(ms + [m]) == |ms| <==> m.role == "assistant"
  {
    assert (ms + [m])[|ms|] == m;
  }

  lemma ToolIdIs(step: nat)
    ensures ToolId(step) == "rx-" + Decimal(step)
  {
  }

  lemma NudgeIs(reason: string)
    ensures Nudge(reason) == Msg("user", NudgeText(reason))
  {
  }

  predicate CarriesNudge(m: Msg) {
    m.role == "user" && "[yaya:react-format-nudge] " <= m.content
  }

  lemma RecentIs(ms: seq<Msg>, m: Msg)
    requires m.role == "assistant"
    ensures HasRecentMarker(ms + [m]) <==> exists i | 0 <= i < |ms| && |ms| - 3 <= i :: CarriesNudge(ms[i])
  {
    var all := ms + [m];
    assert "assistant"[0] != "user"[0];
    assert !IsMarked(m);
    forall i | 0 <= i < |ms| ensures all[i] == ms[i] && IsMarked(all[i]) == CarriesNudge(ms[i]) {
    }
    if i :| 0 <= i < |ms| && |ms| - 3 <= i && CarriesNudge(ms[i]) {
      assert IsMarked(all[i]);
    }
  }

  /** What a model is told whose answer does not parse. */
  function NudgeText(reason: string): string {
    "[yaya:react-format-nudge] " + "Your last message did not follow the ReAct format. " + reason
    + ". Please resend using either " + "'Thought: ...\\nAction: <tool>\\nAction Input: <json>' "
    + "or 'Thought: ...\\nFinal Answer: <your reply>'."
  }

  /** The number a decimal text stands for. */
  function Value(s: string): int {
    if s == "" then 0 else 10 * Value(s[..|s| - 1]) + (s[|s| - 1] as int - '0' as int)
  }

  predicate AllDigits(s: string) {
    s != "" && forall i | 0 <= i < |s| :: '0' <= s[i] <= '9'
  }

  /** Step numbers are written in decimal. */
  lemma {:induction false} DecimalIsValue(n: nat)
    ensures AllDigits(Decimal(n)) && Value(Decimal(n)) == n
    decreases n
  {
    var s := Decimal(n);
    DigitIs(n % 10);
    if n >= 10 {
      DecimalIsValue(n / 10);
      assert s[..|s| - 1] == Decimal(n / 10);
    } else {
      assert s[..0] == "" && Value("") == 0;
    }
  }

  lemma DigitIs(d: nat)
    requires d < 10
    ensures Digit(d) as int == '0' as int + d
  {
  }

  // -- the history a turn starts from ---------------------------------------------------------------

  /** It keeps all that was projected, and ends with the message exactly once more than what
      stands before a trailing copy of it. */
  lemma HistoryIs(projected: seq<Msg>, text: string)
    ensures var ms := LoadHistory(projected, text);
      && ms != [] && ms[|ms| - 1] == Msg("user", text)
      && (ms == projected || ms[..|ms| - 1] == projected)
      && (ms == projected <==> projected != [] && projected[|projected| - 1] == Msg("user", text))
  {
  }
}
