/** The three readings of a tape: messages for the model (with tool traffic), the
    loop's cross-turn history, and the chat transcript's frames. Each is specified
    by what stands behind the last compaction anchor; the loops that compute them
    go through the whole tape once. */
module Projections {
  import opened Common
  import opened Tape

  // -- select_messages ---------------------------------------------------------------

  function ToolResultMessage(c: Codec, result: Json, pending: seq<Dict>, index: nat): Dict {
    var m: Dict := map["role" := Str("tool"), "content" := Str(if result.Str? then result.s else c.dumps(result))];
    if index >= |pending| then m
    else
      var call := pending[index];
      var id := Get(call, "id", Null);
      var m1 := if id.Str? && id.s != "" then m["tool_call_id" := id] else m;
      var function_ := Get(call, "function", Null);
      var name := if function_.Obj? then Get(function_.fields, "name", Null) else Null;
      if name.Str? && name.s != "" then m1["name" := name] else m1
  }

  function ToolResultMessages(c: Codec, results: seq<Json>, pending: seq<Dict>): seq<Dict> {
    seq(|results|, i requires 0 <= i < |results| => ToolResultMessage(c, results[i], pending, i))
  }

  /** What one entry that is no compaction anchor adds, given the pending calls. */
  function Added(c: Codec, pending: seq<Dict>, e: Entry): seq<Dict> {
    if e.kind.Message? then [e.payload]
    else if e.kind.ToolCall? then
      var calls := DictsIn(Get(e.payload, "calls", Null));
      if calls == [] then []
      else [map["role" := Str("assistant"), "content" := Str(""), "tool_calls" := Arr(seq(|calls|,
          i requires 0 <= i < |calls| => Obj(calls[i])))]]
    else if e.kind.ToolResult? then
      var results := Get(e.payload, "results", Null);
      if results.Arr? then ToolResultMessages(c, results.items, pending) else []
    else if e.kind.Event? && Truthy(Get(e.meta, "include_in_context", Null)) then
      [map["role" := Str("system"),
           "content" := Str("[event:" + c.str(Get(e.payload, "name", Str("event"))) + "] "
                            + c.dumps(Get(e.payload, "data", Obj(map[]))))]]
    else []
  }

  /** The calls that wait for their results behind an entry. */
  function PendingAfter(pending: seq<Dict>, e: Entry): seq<Dict> {
    if e.kind.ToolCall? then DictsIn(Get(e.payload, "calls", Null))
    else if e.kind.ToolResult? then []
    else pending
  }

  /** The messages of entries among which no compaction anchor stands. */
  function Flow(c: Codec, es: seq<Entry>): seq<Dict> {
    if es == [] then [] else
    var n := |es| - 1;
    Flow(c, es[..n]) + Added(c, PendingBehind(es[..n]), es[n])
  }

  function PendingBehind(es: seq<Entry>): seq<Dict> {
    if es == [] then [] else PendingAfter(PendingBehind(es[..|es| - 1]), es[|es| - 1])
  }

  /** What stands for everything up to the last compaction anchor. */
  function Opening(c: Codec, es: seq<Entry>): seq<Dict> {
    var k := LastCut(AtCompaction, es);
    if k == -1 then [] else [Summary(c, es[k])]
  }

  lemma OpeningAppend(c: Codec, es: seq<Entry>, e: Entry)
    ensures Opening(c, es + [e]) == if IsCompaction(e) then [Summary(c, e)] else Opening(c, es)
  {
    BehindAppend(AtCompaction, es, e);
  }

  /** The summary of the last compaction anchor, then the flow behind it. */
  function Selection(c: Codec, es: seq<Entry>): seq<Dict> {
    Opening(c, es) + Flow(c, Behind(AtCompaction, es))
  }

  lemma AddedCases(c: Codec, pending: seq<Dict>, e: Entry)
    ensures e.kind.Message? ==> Added(c, pending, e) == [e.payload]
    ensures e.kind.ToolCall? && DictsIn(Get(e.payload, "calls", Null)) == [] ==> Added(c, pending, e) == []
    ensures (e.kind.Anchor? || e.kind.Other?) ==> Added(c, pending, e) == []
    ensures e.kind.Event? && !Truthy(Get(e.meta, "include_in_context", Null)) ==> Added(c, pending, e) == []
    ensures IsCompaction(e) ==> e.kind.Anchor?
  {
  }

  lemma FlowAppend(c: Codec, es: seq<Entry>, e: Entry)
    ensures Flow(c, es + [e]) == Flow(c, es) + Added(c, PendingBehind(es), e)
    ensures PendingBehind(es + [e]) == PendingAfter(PendingBehind(es), e)
  {
    assert (es + [e])[..|es|] == es;
  }

  /** One more entry: start again at a compaction anchor, else append. */
  lemma SelectionNext(c: Codec, es: seq<Entry>, e: Entry)
    ensures Selection(c, es + [e]) ==
      if IsCompaction(e) then [Summary(c, e)]
      else Selection(c, es) + Added(c, PendingBehind(Behind(AtCompaction, es)), e)
    ensures PendingBehind(Behind(AtCompaction, es + [e])) ==
      if IsCompaction(e) then [] else PendingAfter(PendingBehind(Behind(AtCompaction, es)), e)
  {
    hide Added, Summary, IsCompaction;
    OpeningAppend(c, es, e);
    BehindAppend(AtCompaction, es, e);
    FlowAppend(c, Behind(AtCompaction, es), e);
    Regroup(Opening(c, es), Flow(c, Behind(AtCompaction, es)), Added(c, PendingBehind(Behind(AtCompaction, es)), e));
  }

  lemma NothingRead(c: Codec)
    ensures Selection(c, []) == [] && Projection(c, []) == [] && Frames(c, []) == []
  {
  }

  method SelectMessages(c: Codec, es: seq<Entry>) returns (messages: seq<Dict>)
    ensures messages == Selection(c, es)
  {
    hide Added, Summary, IsCompaction, Selection;
    NothingRead(c);
    Prefixes(es, 0);
    messages := [];
    var pending: seq<Dict> := [];
    for i := 0 to |es|
      invariant messages == Selection(c, es[..i])
      invariant pending == PendingBehind(Behind(AtCompaction, es[..i]))
    {
      var e := es[i];
      Prefixes(es, i);
      AddedCases(c, pending, e);
      SelectionNext(c, es[..i], e);
      if e.kind.Message? {
        messages := messages + [e.payload];
      } else if e.kind.ToolCall? {
        var calls := DictsIn(Get(e.payload, "calls", Null));
        if calls != [] {
          messages := messages + Added(c, pending, e);
        }
        pending := calls;
      } else if e.kind.ToolResult? {
        messages := messages + Added(c, pending, e);
        pending := [];
      } else if e.kind.Event? && Truthy(Get(e.meta, "include_in_context", Null)) {
        messages := messages + Added(c, pending, e);
      } else if IsCompaction(e) {
        messages := [Summary(c, e)];
        pending := [];
      }
    }
  }

  // -- project_entries_to_messages -----------------------------------------------------

  /** The history message a `message` entry stands for, if its fields are text. */
  function HistoryOf(e: Entry): seq<Dict> {
    var role, content := Get(e.payload, "role", Null), Get(e.payload, "content", Str(""));
    if e.kind.Message? && role.Str? && content.Str?
    then [map["role" := role, "content" := content]]
    else []
  }

  function Histories(es: seq<Entry>): seq<Dict> {
    if es == [] then [] else Histories(es[..|es| - 1]) + HistoryOf(es[|es| - 1])
  }

  function Projection(c: Codec, es: seq<Entry>): seq<Dict> {
    Opening(c, es) + Histories(Behind(AtCompaction, es))
  }

  lemma ProjectionNext(c: Codec, es: seq<Entry>, e: Entry)
    ensures Projection(c, es + [e]) ==
      if IsCompaction(e) then [Summary(c, e)] else Projection(c, es) + HistoryOf(e)
    ensures !e.kind.Message? ==> HistoryOf(e) == []
    ensures IsCompaction(e) ==> e.kind.Anchor?
  {
    hide Summary;
    OpeningAppend(c, es, e);
    BehindAppend(AtCompaction, es, e);
    var b := Behind(AtCompaction, es);
    assert (b + [e])[..|b|] == b;
    Regroup(Opening(c, es), Histories(b), HistoryOf(e));
  }

  method ProjectEntries(c: Codec, es: seq<Entry>) returns (messages: seq<Dict>)
    ensures messages == Projection(c, es)
  {
    hide HistoryOf, Summary, IsCompaction, Projection;
    NothingRead(c);
    Prefixes(es, 0);
    messages := [];
    for i := 0 to |es|
      invariant messages == Projection(c, es[..i])
    {
      var e := es[i];
      Prefixes(es, i);
      ProjectionNext(c, es[..i], e);
      if e.kind.Anchor? {
        if IsCompaction(e) {
          messages := [Summary(c, e)];
        }
      } else if e.kind.Message? {
        messages := messages + HistoryOf(e);
      }
    }
  }

  // -- _frames_from_entries ------------------------------------------------------------

  const OBSERVATION := "Observation: "

  /** The frame of a `message` payload; system rows and observations have none. */
  function MessageFrame(d: Dict): seq<Dict> {
    var role, content := Get(d, "role", Null), Get(d, "content", Str(""));
    if !role.Str? || !content.Str? then []
    else if role.s == "user" then
      if OBSERVATION <= content.s then []
      else [map["kind" := Str("user.message"), "text" := content]]
    else if role.s == "assistant" then
      [map["kind" := Str("assistant.done"), "content" := content, "tool_calls" := Arr([])]]
    else []
  }

  function ToolStart(c: Codec, call: Dict): Dict {
    var args := Get(call, "args", Obj(map[]));
    map["kind" := Str("tool.start"),
        "id" := Str(c.str(Get(call, "id", Str("")))),
        "name" := Str(c.str(Get(call, "name", Str("")))),
        "args" := if args.Obj? then args else Obj(map[])]
  }

  function ToolResultFrame(c: Codec, item: Dict): Dict {
    var raw := Get(item, "result", Obj(map[]));
    var result := if raw.Obj? then raw.fields else map[];
    var frame: Dict := map["kind" := Str("tool.result"),
                           "id" := Str(c.str(Get(item, "tool_call_id", Str("")))),
                           "ok" := Bool(Truthy(Get(result, "ok", Bool(true))))];
    Copied(Copied(Copied(frame, result, "value"), result, "error"), result, "envelope")
  }

  function Copied(frame: Dict, result: Dict, key: string): Dict {
    if key in result then frame[key := result[key]] else frame
  }

  function FramesOf(c: Codec, e: Entry): seq<Dict> {
    if e.kind.Message? then MessageFrame(e.payload)
    else if e.kind.ToolCall? then
      var calls := DictsIn(Get(e.payload, "calls", Null));
      seq(|calls|, i requires 0 <= i < |calls| => ToolStart(c, calls[i]))
    else if e.kind.ToolResult? then
      var results := DictsIn(Get(e.payload, "results", Null));
      seq(|results|, i requires 0 <= i < |results| => ToolResultFrame(c, results[i]))
    else []
  }

  function FrameFlow(c: Codec, es: seq<Entry>): seq<Dict> {
    if es == [] then [] else FrameFlow(c, es[..|es| - 1]) + FramesOf(c, es[|es| - 1])
  }

  function Frames(c: Codec, es: seq<Entry>): seq<Dict> {
    FrameFlow(c, Behind(AtCompaction, es))
  }

  lemma FramesNext(c: Codec, es: seq<Entry>, e: Entry)
    ensures Frames(c, es + [e]) == if IsCompaction(e) then [] else Frames(c, es) + FramesOf(c, e)
    ensures !e.kind.Message? && !e.kind.ToolCall? && !e.kind.ToolResult? ==> FramesOf(c, e) == []
    ensures IsCompaction(e) ==> e.kind.Anchor?
  {
    BehindAppend(AtCompaction, es, e);
    var b := Behind(AtCompaction, es);
    assert (b + [e])[..|b|] == b;
  }

  method FramesFromEntries(c: Codec, es: seq<Entry>) returns (frames: seq<Dict>)
    ensures frames == Frames(c, es)
  {
    hide FramesOf, IsCompaction, Frames;
    NothingRead(c);
    Prefixes(es, 0);
    frames := [];
    for i := 0 to |es|
      invariant frames == Frames(c, es[..i])
    {
      var e := es[i];
      Prefixes(es, i);
      FramesNext(c, es[..i], e);
      if e.kind.Anchor? {
        if IsCompaction(e) {
          frames := [];
        }
      } else if e.kind.Message? || e.kind.ToolCall? || e.kind.ToolResult? {
        frames := frames + FramesOf(c, e);
      }
    }
  }

  // -- main results --------------------------------------------------------------------

  /** All three readings treat a compaction anchor alike: nothing before it shows,
      pending tool calls included; the two histories start with its summary, the
      transcript with nothing. */
  lemma CompactionCutsAlike(c: Codec, pre: seq<Entry>, a: Entry, post: seq<Entry>)
    requires IsCompaction(a)
    requires forall i | 0 <= i < |post| :: !IsCompaction(post[i])
    ensures Selection(c, pre + [a] + post) == [Summary(c, a)] + Selection(c, post)
    ensures Projection(c, pre + [a] + post) == [Summary(c, a)] + Projection(c, post)
    ensures Frames(c, pre + [a] + post) == Frames(c, post)
  {
    BehindSplit(AtCompaction, pre, a, post);
    assert [] + Flow(c, post) == Flow(c, post) && [] + Histories(post) == Histories(post);
  }

  /** The text of a field, if it holds one that is not empty. */
  predicate HasText(d: Dict, key: string) {
    key in d && d[key].Str? && d[key].s != ""
  }

  /** A tool row answers the call of its own position: it carries that call's id and the name
      of its function where there are any, and its result's own text or its JSON. */
  predicate AnswersCall(c: Codec, m: Dict, result: Json, calls: seq<Dict>, i: nat) {
    && "role" in m && m["role"] == Str("tool")
    && "content" in m && m["content"] == Str(if result.Str? then result.s else c.dumps(result))
    && ("tool_call_id" in m <==> i < |calls| && HasText(calls[i], "id"))
    && ("tool_call_id" in m ==> m["tool_call_id"] == calls[i]["id"])
    && ("name" in m <==>
          && i < |calls| && "function" in calls[i] && calls[i]["function"].Obj?
          && HasText(calls[i]["function"].fields, "name"))
    && ("name" in m ==> m["name"] == calls[i]["function"].fields["name"])
    && m.Keys <= {"role", "content", "tool_call_id", "name"}
  }

  /** The assistant row of a call entry. */
  function CallRow(calls: seq<Dict>): Dict {
    map["role" := Str("assistant"), "content" := Str(""),
        "tool_calls" := Arr(seq(|calls|, i requires 0 <= i < |calls| => Obj(calls[i])))]
  }

  lemma CallThenResults(c: Codec, call: Entry, result: Entry)
    requires call.kind.ToolCall? && result.kind.ToolResult? && DictsIn(Get(call.payload, "calls", Null)) != []
    requires "results" in result.payload && result.payload["results"].Arr?
    ensures var calls := DictsIn(Get(call.payload, "calls", Null));
      Selection(c, [call, result])
        == [CallRow(calls)] + ToolResultMessages(c, result.payload["results"].items, calls)
  {
    hide Selection, ToolResultMessages, PendingBehind, Behind, DictsIn;
    NothingRead(c);
    NothingPending();
    SelectionNext(c, [], call);
    SelectionNext(c, [call], result);
    assert [] + [call] == [call] && [call] + [result] == [call, result];
    var row := CallRow(DictsIn(Get(call.payload, "calls", Null)));
    assert [] + [row] == [row];
  }

  /** A call entry followed by its results: one assistant row with all calls, then one tool
      row for each result, in order, each answering the call of its own position. */
  lemma ResultsMeetCalls(c: Codec, call: Entry, result: Entry)
    requires call.kind.ToolCall? && result.kind.ToolResult? && DictsIn(Get(call.payload, "calls", Null)) != []
    requires "results" in result.payload && result.payload["results"].Arr?
    ensures var calls := DictsIn(Get(call.payload, "calls", Null));
      var results := result.payload["results"].items;
      var rows := Selection(c, [call, result]);
      && |rows| == 1 + |results| && rows[0] == CallRow(calls)
      && (forall i | 0 <= i < |results| :: AnswersCall(c, rows[1 + i], results[i], calls, i))
  {
    hide AnswersCall, Selection, ToolResultMessage, DictsIn, CallRow;
    CallThenResults(c, call, result);
    var calls := DictsIn(Get(call.payload, "calls", Null));
    var results := result.payload["results"].items;
    forall i | 0 <= i < |results|
      ensures AnswersCall(c, ToolResultMessage(c, results[i], calls, i), results[i], calls, i)
    {
      RowAnswers(c, results[i], calls, i);
    }
  }

  lemma NothingPending()
    ensures PendingBehind(Behind(AtCompaction, [])) == []
  {
  }

  lemma RowAnswers(c: Codec, r: Json, calls: seq<Dict>, i: nat)
    ensures AnswersCall(c, ToolResultMessage(c, r, calls, i), r, calls, i)
  {
  }

  /** A `message` entry as the tape's own append helper writes it. */
  predicate PlainMessage(e: Entry) {
    && e.kind.Message?
    && e.payload.Keys == {"role", "content"} && e.payload["role"].Str? && e.payload["content"].Str?
  }

  lemma {:induction false} FlowIsHistories(c: Codec, es: seq<Entry>)
    requires forall i | 0 <= i < |es| :: PlainMessage(es[i]) || es[i].kind.Anchor?
    ensures Flow(c, es) == Histories(es)
  {
    if es != [] {
      var n := |es| - 1;
      FlowIsHistories(c, es[..n]);
        if PlainMessage(es[n]) {
        var p := es[n].payload;
        assert p == map["role" := p["role"], "content" := p["content"]];
      }
    }
  }

  /** On tapes of plain messages and anchors of any sort, the model's context and
      the loop's history are the same list. */
  lemma HistoriesAgree(c: Codec, es: seq<Entry>)
    requires forall i | 0 <= i < |es| :: PlainMessage(es[i]) || es[i].kind.Anchor?
    ensures Selection(c, es) == Projection(c, es)
  {
    FlowIsHistories(c, Behind(AtCompaction, es));
  }

  function FramesOfHistory(ms: seq<Dict>): seq<Dict> {
    if ms == [] then [] else FramesOfHistory(ms[..|ms| - 1]) + MessageFrame(ms[|ms| - 1])
  }

  lemma {:induction false} FramesOfHistoryConcat(a: seq<Dict>, b: seq<Dict>)
    ensures FramesOfHistory(a + b) == FramesOfHistory(a) + FramesOfHistory(b)
  {
    hide MessageFrame;
    if b == [] {
      assert a + b == a;
    } else {
      var n := |b| - 1;
      assert (a + b)[..|a + b| - 1] == a + b[..n];
      FramesOfHistoryConcat(a, b[..n]);
    }
  }

  lemma {:induction false} FrameFlowIsHistoryFrames(c: Codec, es: seq<Entry>)
    requires forall i | 0 <= i < |es| :: !es[i].kind.ToolCall? && !es[i].kind.ToolResult?
    ensures FrameFlow(c, es) == FramesOfHistory(Histories(es))
  {
    if es != [] {
      var n := |es| - 1;
      FrameFlowIsHistoryFrames(c, es[..n]);
      FramesOfHistoryConcat(Histories(es[..n]), HistoryOf(es[n]));
      OneHistoryFrame(c, es[n]);
    }
  }

  lemma OneHistoryFrame(c: Codec, e: Entry)
    requires !e.kind.ToolCall? && !e.kind.ToolResult?
    ensures FramesOfHistory(HistoryOf(e)) == FramesOf(c, e)
  {
    var h := HistoryOf(e);
    if h != [] {
      assert h[..0] == [] && [] + MessageFrame(h[0]) == MessageFrame(h[0]);
    }
  }

  lemma SummaryHasNoFrame(c: Codec, e: Entry)
    requires IsCompaction(e)
    ensures FramesOfHistory([Summary(c, e)]) == []
  {
    var m := Summary(c, e);
    assert [m][..0] == [];
    assert "system"[0] != "user"[0] && "system"[0] != "assistant"[0];
    assert MessageFrame(m) == [];
  }

  lemma OpeningHasNoFrames(c: Codec, es: seq<Entry>)
    ensures FramesOfHistory(Opening(c, es)) == []
  {
    hide Summary, IsCompaction, MessageFrame;
    if LastCut(AtCompaction, es) != -1 {
      SummaryHasNoFrame(c, es[LastCut(AtCompaction, es)]);
    }
  }

  lemma NoToolsBehind(es: seq<Entry>)
    requires forall i | 0 <= i < |es| :: !es[i].kind.ToolCall? && !es[i].kind.ToolResult?
    ensures var b := Behind(AtCompaction, es);
      forall i | 0 <= i < |b| :: !b[i].kind.ToolCall? && !b[i].kind.ToolResult?
  {
    hide IsCompaction;
  }

  /** On tapes without tool traffic the transcript is the loop's history, frame by
      frame: the summary shows nothing, observations and system rows are skipped. */
  lemma TranscriptIsHistory(c: Codec, es: seq<Entry>)
    requires forall i | 0 <= i < |es| :: !es[i].kind.ToolCall? && !es[i].kind.ToolResult?
    ensures Frames(c, es) == FramesOfHistory(Projection(c, es))
  {
    hide Opening, Behind, MessageFrame;
    var b := Behind(AtCompaction, es);
    NoToolsBehind(es);
    FrameFlowIsHistoryFrames(c, b);
    OpeningHasNoFrames(c, es);
    FramesOfHistoryConcat(Opening(c, es), Histories(b));
    assert [] + FrameFlow(c, b) == FrameFlow(c, b);
  }
}
