/** One turn of the agent loop: the bookkeeping it keeps, what it does with each
    strategy decision, and the ReAct strategy's decision rule. The answers of the
    strategy, the model and the tools come from outside and are arbitrary. */
module AgentLoop {

  datatype Msg = Msg(role: string, content: string)

  datatype Decision =
    | Done
    | Memory
    | Llm(provider: string, model: string, append: seq<Msg>, prepend: seq<Msg>)
    | Tool(id: string, name: string, args: string)
    | Unknown

  datatype Failure = TimedOut | Crashed | Cancelled

  /** The response event that carries the request's id; which fields matter
      depends on what the loop asked for. */
  datatype Reply = Fails(f: Failure) | Responds(isError: bool, text: string, observation: string)

  /** One pass of the loop: the strategy's answer and the answer to what follows. */
  datatype Iteration = NoDecision(f: Failure) | Decided(d: Decision, reply: Reply)

  datatype Event = AssistantDone(content: string) | KernelError(tag: string)

  datatype Turn = Turn(
    messages: seq<Msg>,
    lastText: string,
    /** The provider stamp is behind us; those written name provider and model. */
    stamped: bool,
    stamps: seq<(string, string)>,
    /** What the model was asked, request by request. */
    asked: seq<seq<Msg>>,
    log: seq<Decision>,
    events: seq<Event>,
    over: bool
  )

  function Start(messages: seq<Msg>): Turn {
    Turn(messages, "", false, [], [], [], [], false)
  }

  /** The history a turn starts from: the projected tape, without a trailing copy
      of the message being handled, then that message. */
  function LoadHistory(projected: seq<Msg>, userText: string): (ms: seq<Msg>)
    ensures ms != [] && ms[|ms| - 1] == Msg("user", userText)
  {
    var user := Msg("user", userText);
    if projected != [] && projected[|projected| - 1] == user then projected
    else projected + [user]
  }

  function End(t: Turn, e: Event): Turn {
    t.(events := t.events + [e], over := true)
  }

  function Fail(t: Turn, f: Failure): Turn {
    match f
    case TimedOut => End(t, KernelError("step_timeout"))
    case Crashed => End(t, KernelError("loop_crash"))
    case Cancelled => t.(over := true)
  }

  function Observation(text: string): Msg {
    Msg("user", "Observation: " + text)
  }

  /** A stamp that names nothing is not written. */
  function Stamped(stamps: seq<(string, string)>, provider: string, model: string): seq<(string, string)> {
    if provider == "" && model == "" then stamps else stamps + [(provider, model)]
  }

  function CallLlm(t: Turn, d: Decision, reply: Reply): Turn
    requires d.Llm?
  {
    var t := t.(messages := t.messages + d.append, asked := t.asked + [d.prepend + (t.messages + d.append)]);
    match reply
    case Fails(f) => Fail(t, f)
    case Responds(isError, text, _) =>
      if isError then End(t, KernelError("llm_error"))
      else
        var said := if text != "" then text else t.lastText;
        t.(stamped := true, stamps := if t.stamped then t.stamps else Stamped(t.stamps, d.provider, d.model),
           lastText := said, messages := t.messages + [Msg("assistant", said)])
  }

  function Act(t: Turn, d: Decision, reply: Reply): Turn {
    match d
    case Done => End(t, AssistantDone(t.lastText))
    case Unknown => End(t, KernelError("unknown_strategy_next"))
    case Memory => if reply.Fails? then Fail(t, reply.f) else t
    case Tool(_, _, _) =>
      if reply.Fails? then Fail(t, reply.f)
      else t.(messages := t.messages + [Observation(reply.observation)])
    case Llm(_, _, _, _) => CallLlm(t, d, reply)
  }

  function Step(t: Turn, it: Iteration): Turn {
    match it
    case NoDecision(f) => Fail(t, f)
    case Decided(d, reply) => Act(t.(log := t.log + [d]), d, reply)
  }

  /** The rest of a turn with `|its|` passes left. */
  function Run(t: Turn, its: seq<Iteration>): Turn
    decreases |its|
  {
    if t.over then t
    else if its == [] then End(t, KernelError("max_iterations_exceeded"))
    else Run(Step(t, its[0]), its[1..])
  }

  // -- the ReAct strategy ---------------------------------------------------------

  datatype Parsed = Final | Action(name: string, args: string) | Error(reason: string)

  const MARKER := "[yaya:react-format-nudge] "

  function Nudge(reason: string): Msg {
    Msg("user", MARKER + "Your last message did not follow the ReAct format. " + reason
        + ". Please resend using either "
        + "'Thought: ...\\nAction: <tool>\\nAction Input: <json>' "
        + "or 'Thought: ...\\nFinal Answer: <your reply>'.")
  }

  predicate IsMarked(m: Msg) {
    m.role == "user" && MARKER <= m.content
  }

  predicate HasRecentMarker(ms: seq<Msg>) {
    exists i | 0 <= i < |ms| && |ms| - 4 <= i :: IsMarked(ms[i])
  }

  /** The provider and model the strategy resolves, and its system prompt. */
  datatype Setup = Setup(provider: string, model: string, system: Msg)

  function LlmDecision(setup: Setup, append: seq<Msg>): Decision {
    Llm(setup.provider, setup.model, append, [setup.system])
  }

  /** Index of the last assistant message, or -1. */
  function LastAssistant(ms: seq<Msg>): (i: int)
    ensures -1 <= i < |ms|
    ensures i != -1 ==> ms[i].role == "assistant"
    ensures forall k | i < k < |ms| :: ms[k].role != "assistant"
  {
    if ms == [] then -1
    else if ms[|ms| - 1].role == "assistant" then |ms| - 1
    else LastAssistant(ms[..|ms| - 1])
  }

  function Decide(parse: string -> Parsed, setup: Setup, ms: seq<Msg>, step: nat): Decision {
    var i := LastAssistant(ms);
    if i == -1 || i < |ms| - 1 then LlmDecision(setup, [])
    else
      match parse(ms[i].content)
      case Final => Done
      case Action(name, args) => Tool(ToolId(step), name, args)
      case Error(reason) => if HasRecentMarker(ms) then Done else LlmDecision(setup, [Nudge(reason)])
  }

  function Decimal(n: nat): string {
    if n < 10 then [Digit(n)] else Decimal(n / 10) + [Digit(n % 10)]
  }

  function Digit(d: nat): char
    requires d < 10
  {
    "0123456789"[d]
  }

  function ToolId(step: nat): string {
    "rx-" + Decimal(step)
  }

  /** Every decision of the run is the ReAct strategy's own, for the messages and
      the step number the loop hands it. */
  predicate ReactDriven(parse: string -> Parsed, setup: Setup, t: Turn, its: seq<Iteration>)
    decreases |its|
  {
    t.over || its == [] ||
    ((its[0].Decided? ==> its[0].d == Decide(parse, setup, t.messages, |t.log|))
     && ReactDriven(parse, setup, Step(t, its[0]), its[1..]))
  }

  /** The strategy's scan as it is written: one pass over the messages. */
  method DecideByScan(parse: string -> Parsed, setup: Setup, ms: seq<Msg>, step: nat) returns (d: Decision)
    ensures d == Decide(parse, setup, ms, step)
  {
    var last := -1;
    for i := 0 to |ms|
      invariant last == LastAssistant(ms[..i])
    {
      assert ms[..i + 1][..i] == ms[..i];
      if ms[i].role == "assistant" {
        last := i;
      }
    }
    assert ms[..|ms|] == ms;
    if last == -1 || last < |ms| - 1 {
      return LlmDecision(setup, []);
    }
    match parse(ms[last].content)
    case Final => return Done;
    case Action(name, args) => return Tool(ToolId(step), name, args);
    case Error(reason) =>
      var seen := RecentMarkerByScan(ms);
      return if seen then Done else LlmDecision(setup, [Nudge(reason)]);
  }

  method RecentMarkerByScan(ms: seq<Msg>) returns (seen: bool)
    ensures seen == HasRecentMarker(ms)
  {
    var from := if |ms| < 4 then 0 else |ms| - 4;
    for i := from to |ms|
      invariant forall k | from <= k < i :: !IsMarked(ms[k])
    {
      if IsMarked(ms[i]) {
        return true;
      }
    }
    return false;
  }

  /** The turn as the loop runs it: one record updated in place. */
  class TurnRunner {
    var messages: seq<Msg>
    var lastText: string
    var anchorWritten: bool
    var stamps: seq<(string, string)>
    var events: seq<Event>
    /** History: the requests sent, the decisions taken, the end. */
    ghost var asked: seq<seq<Msg>>
    ghost var log: seq<Decision>
    ghost var over: bool

    ghost function View(): Turn reads this {
      Turn(messages, lastText, anchorWritten, stamps, asked, log, events, over)
    }

    constructor (initial: seq<Msg>)
      ensures View() == Start(initial)
    {
      messages, lastText, anchorWritten, stamps, events := initial, "", false, [], [];
      asked, log, over := [], [], false;
    }

    method Raise(f: Failure)
      modifies this
      ensures View() == Fail(old(View()), f)
    {
      match f {
        case TimedOut => events := events + [KernelError("step_timeout")];
        case Crashed => events := events + [KernelError("loop_crash")];
        case Cancelled =>
      }
      over := true;
    }

    /** Returns whether the turn goes on. */
    method ApplyDecision(d: Decision, reply: Reply) returns (goOn: bool)
      requires !over
      modifies this
      ensures View() == Act(old(View()), d, reply)
      ensures goOn == !over
    {
      match d {
        case Done =>
          events := events + [AssistantDone(lastText)];
          over := true;
          return false;
        case Memory =>
          if reply.Fails? { Raise(reply.f); }
          return !reply.Fails?;
        case Llm(provider, model, append, prepend) =>
          messages := messages + append;
          asked := asked + [prepend + messages];
          if reply.Fails? { Raise(reply.f); return false; }
          if reply.isError {
            events := events + [KernelError("llm_error")];
            over := true;
            return false;
          }
          if !anchorWritten {
            if provider != "" || model != "" {
              stamps := stamps + [(provider, model)];
            }
            anchorWritten := true;
          }
          lastText := if reply.text != "" then reply.text else lastText;
          messages := messages + [Msg("assistant", lastText)];
          return true;
        case Tool(_, _, _) =>
          if reply.Fails? { Raise(reply.f); return false; }
          messages := messages + [Observation(reply.observation)];
          return true;
        case Unknown =>
          events := events + [KernelError("unknown_strategy_next")];
          over := true;
          return false;
      }
    }

    method RunTurn(its: seq<Iteration>)
      requires !over
      modifies this
      ensures View() == Run(old(View()), its)
    {
      for step := 0 to |its|
        invariant !over
        invariant Run(old(View()), its) == Run(View(), its[step..])
      {
        ghost var before := View();
        assert its[step..][0] == its[step] && its[step..][1..] == its[step + 1..];
        var goOn := true;
        match its[step] {
          case NoDecision(f) =>
            Raise(f);
            goOn := false;
          case Decided(d, reply) =>
            log := log + [d];
            goOn := ApplyDecision(d, reply);
        }
        assert View() == Step(before, its[step]);
        if !goOn {
          return;
        }
      }
      events := events + [KernelError("max_iterations_exceeded")];
      over := true;
    }
  }
}
