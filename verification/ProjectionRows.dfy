/** What single entries add to the three readings of a tape, field by field and with the
    literal names the readers of the rows depend on. */
module ProjectionRows {
  import opened Common
  import opened Tape
  import opened Projections

  // -- values ---------------------------------------------------------------------------------

  /** What Python takes for false. */
  lemma FalsyIff(j: Json)
    ensures !Truthy(j) <==>
      j == Null || j == Bool(false) || j == Num(0) || j == Str("") || j == Arr([]) || j == Obj(map[])
  {
  }

  /** Of a list the dictionaries are kept, in order; of anything else nothing. */
  lemma DictsAre(items: seq<Json>, x: Json, j: Json)
    ensures DictsIn(Arr([])) == []
    ensures DictsIn(Arr([x] + items)) == (if x.Obj? then [x.fields] else []) + DictsIn(Arr(items))
    ensures !j.Arr? ==> DictsIn(j) == []
  {
    assert ([x] + items)[1..] == items;
  }

  /** A summary row carries the summary under its heading, or the heading alone. */
  lemma SummaryIs(c: Codec, e: Entry)
    requires e.kind.Anchor? && "state" in e.payload && e.payload["state"].Obj?
    requires "kind" in e.payload["state"].fields && e.payload["state"].fields["kind"] == Str("compaction")
    ensures IsCompaction(e)
    ensures var state := e.payload["state"].fields;
      var m := Summary(c, e);
      && m.Keys == {"role", "content"} && m["role"] == Str("system")
      && ("summary" !in state || state["summary"] == Str("") ==> m["content"] == Str("[compacted history]"))
      && ("summary" in state && state["summary"].Str? && state["summary"].s != "" ==>
            m["content"] == Str("[compacted history]" + "\n" + state["summary"].s))
  {
    assert "[compacted history]\n" == "[compacted history]" + "\n";
  }

  // -- messages for the model -------------------------------------------------------------------

  /** An event marked for the context is shown as a system row with its name and data; others
      are not shown, and no event settles or adds pending calls. */
  lemma EventRow(c: Codec, es: seq<Entry>, e: Entry)
    requires e.kind.Event?
    ensures var shown := "include_in_context" in e.meta && Truthy(e.meta["include_in_context"]);
      var name := c.str(if "name" in e.payload then e.payload["name"] else Str("event"));
      var data := c.dumps(if "data" in e.payload then e.payload["data"] else Obj(map[]));
      Selection(c, es + [e]) == Selection(c, es) +
        if shown then [map["role" := Str("system"), "content" := Str("[event:" + name + "] " + data)]] else []
  {
    hide Selection, PendingBehind, Behind, Truthy;
    SelectionNext(c, es, e);
    NullIsFalsy();
    EventIsNoCompaction(e);
  }

  lemma NullIsFalsy()
    ensures !Truthy(Null)
  {
  }

  lemma EventIsNoCompaction(e: Entry)
    ensures e.kind.Event? ==> !IsCompaction(e)
  {
  }

  /** The calls that wait at the end of a tape: those of the last call entry, until results
      come or a compaction starts anew; everything else leaves them waiting. */
  lemma PendingIs(es: seq<Entry>, e: Entry)
    ensures var before := PendingBehind(Behind(AtCompaction, es));
      var now := PendingBehind(Behind(AtCompaction, es + [e]));
      && (e.kind.ToolCall? ==> now == DictsIn(if "calls" in e.payload then e.payload["calls"] else Null))
      && (e.kind.ToolResult? || IsCompaction(e) ==> now == [])
      && (!e.kind.ToolCall? && !e.kind.ToolResult? && !IsCompaction(e) ==> now == before)
    ensures PendingBehind(Behind(AtCompaction, [])) == []
  {
    hide DictsIn, PendingBehind, Behind, IsCompaction;
    SelectionNext(Codec(j => "", j => ""), es, e);
    NothingPending();
    CompactionIsAnchor(e);
  }

  lemma CompactionIsAnchor(e: Entry)
    ensures IsCompaction(e) ==> e.kind.Anchor?
  {
  }

  // -- frames of the transcript -------------------------------------------------------------------

  /** The text of a message, empty where there is none. */
  function ContentOf(e: Entry): Json {
    if "content" in e.payload then e.payload["content"] else Str("")
  }

  /** What the user said, observations left out, and what the assistant answered; no other
      message has a frame. */
  lemma MessageFrames(c: Codec, es: seq<Entry>, e: Entry)
    requires e.kind.Message?
    ensures var text := ContentOf(e);
      var role := if "role" in e.payload && text.Str? then e.payload["role"] else Null;
      Frames(c, es + [e]) == Frames(c, es) +
        if role == Str("user") && !("Observation: " <= text.s)
        then [map["kind" := Str("user.message"), "text" := text]]
        else if role == Str("assistant")
        then [map["kind" := Str("assistant.done"), "content" := text, "tool_calls" := Arr([])]]
        else []
  {
    hide Frames, Behind;
    FramesNext(c, es, e);
    assert "user"[0] != "assistant"[0];
  }

  predicate IsToolStart(c: Codec, f: Dict, call: Dict) {
    && f.Keys == {"kind", "id", "name", "args"} && f["kind"] == Str("tool.start")
    && f["id"] == Str(c.str(if "id" in call then call["id"] else Str("")))
    && f["name"] == Str(c.str(if "name" in call then call["name"] else Str("")))
    && f["args"] == if "args" in call && call["args"].Obj? then call["args"] else Obj(map[])
  }

  lemma StartIs(c: Codec, call: Dict)
    ensures IsToolStart(c, ToolStart(c, call), call)
  {
  }

  /** One frame for each call, in order. */
  lemma CallFrames(c: Codec, es: seq<Entry>, e: Entry)
    requires e.kind.ToolCall?
    ensures var calls := DictsIn(if "calls" in e.payload then e.payload["calls"] else Null);
      var before, now := Frames(c, es), Frames(c, es + [e]);
      && |now| == |before| + |calls| && before <= now
      && forall i | 0 <= i < |calls| :: IsToolStart(c, now[|before| + i], calls[i])
  {
    hide Frames, Behind, ToolStart, IsToolStart, DictsIn, IsCompaction;
    CallIsNoCompaction(e);
    FramesNext(c, es, e);
    var calls := DictsIn(if "calls" in e.payload then e.payload["calls"] else Null);
    assert |FramesOf(c, e)| == |calls|;
    forall i | 0 <= i < |calls| ensures IsToolStart(c, FramesOf(c, e)[i], calls[i]) {
      StartIs(c, calls[i]);
    }
  }

  lemma CallIsNoCompaction(e: Entry)
    ensures e.kind.ToolCall? || e.kind.ToolResult? ==> !IsCompaction(e)
  {
  }

  /** The fields of a result, none where it is no dictionary. */
  function ResultFields(item: Dict): Dict {
    if "result" in item && item["result"].Obj? then item["result"].fields else map[]
  }

  /** The field is taken over from the result, where it is there. */
  predicate TakesOver(f: Dict, r: Dict, key: string) {
    (key in f <==> key in r) && (key in f ==> f[key] == r[key])
  }

  predicate IsToolResult(c: Codec, f: Dict, item: Dict) {
    && var r := ResultFields(item);
    && {"kind", "id", "ok"} <= f.Keys && f.Keys <= {"kind", "id", "ok", "value", "error", "envelope"}
    && f["kind"] == Str("tool.result")
    && f["id"] == Str(c.str(if "tool_call_id" in item then item["tool_call_id"] else Str("")))
    && f["ok"] == Bool("ok" !in r || Truthy(r["ok"]))
    && TakesOver(f, r, "value") && TakesOver(f, r, "error") && TakesOver(f, r, "envelope")
  }

  lemma TrueIsTruthy()
    ensures Truthy(Bool(true))
  {
  }

  lemma CopiedIs(f: Dict, r: Dict, key: string, other: string)
    ensures var g := Copied(f, r, key);
      && (key !in f ==> TakesOver(g, r, key))
      && (other != key ==> (other in g <==> other in f) && (other in g ==> g[other] == f[other]))
      && f.Keys <= g.Keys <= f.Keys + {key}
  {
  }

  function BareResult(c: Codec, item: Dict): Dict {
    map["kind" := Str("tool.result"),
        "id" := Str(c.str(if "tool_call_id" in item then item["tool_call_id"] else Str(""))),
        "ok" := Bool("ok" !in ResultFields(item) || Truthy(ResultFields(item)["ok"]))]
  }

  lemma FrameIsCopied(c: Codec, item: Dict)
    ensures var r := ResultFields(item);
      ToolResultFrame(c, item) == Copied(Copied(Copied(BareResult(c, item), r, "value"), r, "error"), r, "envelope")
  {
    hide Truthy, Copied;
    TrueIsTruthy();
  }

  lemma NamesDiffer()
    ensures "value" != "error" && "value" != "envelope" && "error" != "envelope"
    ensures "kind" != "value" && "kind" != "error" && "kind" != "envelope"
    ensures "id" != "value" && "id" != "error" && "id" != "envelope"
    ensures "ok" != "value" && "ok" != "error" && "ok" != "envelope"
  {
    assert "value"[0] == 'v' && "error"[1] == 'r' && "envelope"[1] == 'n';
    assert |"kind"| == 4 && |"id"| == 2 && |"ok"| == 2 && |"value"| == 5 && |"error"| == 5 && |"envelope"| == 8;
  }

  lemma BareIs(c: Codec, item: Dict)
    ensures var f := BareResult(c, item);
      && f.Keys == {"kind", "id", "ok"} && f["kind"] == Str("tool.result")
      && f["id"] == Str(c.str(if "tool_call_id" in item then item["tool_call_id"] else Str("")))
      && f["ok"] == Bool("ok" !in ResultFields(item) || Truthy(ResultFields(item)["ok"]))
  {
    hide Truthy;
    assert "id"[0] != "ok"[0] && |"kind"| == 4;
  }

  lemma SameField(f: Dict, r: Dict, other: string)
    requires other != "value" && other != "error" && other != "envelope"
    ensures var g := Copied(Copied(Copied(f, r, "value"), r, "error"), r, "envelope");
      (other in g <==> other in f) && (other in g ==> g[other] == f[other])
  {
    hide Copied;
    CopiedIs(f, r, "value", other);
    CopiedIs(Copied(f, r, "value"), r, "error", other);
    CopiedIs(Copied(Copied(f, r, "value"), r, "error"), r, "envelope", other);
  }

  lemma CopiedFields(f: Dict, r: Dict)
    requires "value" !in f && "error" !in f && "envelope" !in f
    ensures var g := Copied(Copied(Copied(f, r, "value"), r, "error"), r, "envelope");
      && TakesOver(g, r, "value") && TakesOver(g, r, "error") && TakesOver(g, r, "envelope")
      && g.Keys <= f.Keys + {"value"} + {"error"} + {"envelope"}
  {
    hide Copied;
    NamesDiffer();
    var f1 := Copied(f, r, "value");
    var f2 := Copied(f1, r, "error");
    CopiedIs(f, r, "value", "error");
    CopiedIs(f, r, "value", "envelope");
    CopiedIs(f1, r, "error", "value");
    CopiedIs(f1, r, "error", "envelope");
    CopiedIs(f2, r, "envelope", "value");
    CopiedIs(f2, r, "envelope", "error");
  }

  lemma ResultIs(c: Codec, item: Dict)
    ensures IsToolResult(c, ToolResultFrame(c, item), item)
  {
    hide Copied, ToolResultFrame, BareResult, TakesOver, Truthy, ResultFields;
    FrameIsCopied(c, item);
    NamesDiffer();
    BareIs(c, item);
    var f, r := BareResult(c, item), ResultFields(item);
    CopiedFields(f, r);
    SameField(f, r, "kind");
    SameField(f, r, "id");
    SameField(f, r, "ok");
  }

  /** One frame for each result, in order, its outcome `ok` unless it says otherwise. */
  lemma ResultFrames(c: Codec, es: seq<Entry>, e: Entry)
    requires e.kind.ToolResult?
    ensures var items := DictsIn(if "results" in e.payload then e.payload["results"] else Null);
      var before, now := Frames(c, es), Frames(c, es + [e]);
      && |now| == |before| + |items| && before <= now
      && forall i | 0 <= i < |items| :: IsToolResult(c, now[|before| + i], items[i])
  {
    hide Frames, Behind, ToolResultFrame, IsToolResult, DictsIn, IsCompaction;
    CallIsNoCompaction(e);
    FramesNext(c, es, e);
    var items := DictsIn(if "results" in e.payload then e.payload["results"] else Null);
    assert |FramesOf(c, e)| == |items|;
    forall i | 0 <= i < |items| ensures IsToolResult(c, FramesOf(c, e)[i], items[i]) {
      ResultIs(c, items[i]);
    }
  }
}
