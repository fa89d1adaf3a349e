/** Compaction as it runs beside the writers of a tape: the window is read, the
    summariser is awaited, and only then is the anchor written. */
module Compaction {
  import opened Common
  import opened Tape
  import Projections

  // -- the tape behind its last anchor ---------------------------------------------------

  predicate IsHandoff(e: Entry) {
    e.kind.Event? && Get(e.payload, "name", Null) == Str("handoff")
  }

  function WithoutHandoffs(es: seq<Entry>): seq<Entry> {
    if es == [] then [] else
    WithoutHandoffs(es[..|es| - 1]) + if IsHandoff(es[|es| - 1]) then [] else [es[|es| - 1]]
  }

  /** What a summariser is handed: everything behind the last anchor of any name,
      handoff marks left out. A tape without an anchor counts as a whole. */
  function Tail(tape: seq<Entry>): seq<Entry> {
    WithoutHandoffs(Behind(AtAnyAnchor, tape))
  }

  /** The entries somebody wrote for their own sake. */
  function Ordinary(es: seq<Entry>): seq<Entry> {
    if es == [] then [] else
    Ordinary(es[..|es| - 1])
    + if es[|es| - 1].kind.Anchor? || IsHandoff(es[|es| - 1]) then [] else [es[|es| - 1]]
  }

  lemma WithoutHandoffsAppend(es: seq<Entry>, e: Entry)
    ensures WithoutHandoffs(es + [e]) == WithoutHandoffs(es) + if IsHandoff(e) then [] else [e]
  {
    assert (es + [e])[..|es|] == es;
  }

  lemma TailAppend(tape: seq<Entry>, e: Entry)
    ensures Tail(tape + [e]) == if e.kind.Anchor? then [] else Tail(tape) + if IsHandoff(e) then [] else [e]
    ensures Ordinary(tape + [e]) == Ordinary(tape) + if e.kind.Anchor? || IsHandoff(e) then [] else [e]
  {
    hide IsHandoff;
    BehindAppend(AtAnyAnchor, tape, e);
    WithoutHandoffsAppend(Behind(AtAnyAnchor, tape), e);
    assert (tape + [e])[..|tape|] == tape;
  }

  /** The mark the tape library writes behind an anchor: an event by the name `handoff`. */
  predicate MarksHandoff(e: Entry) {
    e.kind.Event? && "name" in e.payload && e.payload["name"] == Str("handoff")
  }

  /** What a summariser is handed, entry by entry: an anchor starts it anew, a handoff mark
      adds nothing, and everything else, events of any other name included, is added at the
      end; of the ordinary entries an anchor takes none away. */
  lemma TailNext(tape: seq<Entry>, e: Entry)
    ensures Tail([]) == [] && Ordinary([]) == []
    ensures e.kind.Anchor? ==> Tail(tape + [e]) == [] && Ordinary(tape + [e]) == Ordinary(tape)
    ensures MarksHandoff(e) ==> Tail(tape + [e]) == Tail(tape) && Ordinary(tape + [e]) == Ordinary(tape)
    ensures !e.kind.Anchor? && !MarksHandoff(e) ==>
      Tail(tape + [e]) == Tail(tape) + [e] && Ordinary(tape + [e]) == Ordinary(tape) + [e]
  {
    hide Ordinary, Tail;
    TailAppend(tape, e);
    NothingYet();
    MarkIsHandoff(e);
  }

  lemma MarkIsHandoff(e: Entry)
    ensures IsHandoff(e) <==> MarksHandoff(e)
  {
  }

  /** The entry at `i` stands behind every anchor and is no handoff mark. */
  predicate Reachable(tape: seq<Entry>, i: nat) {
    i < |tape| && !MarksHandoff(tape[i]) && forall j | i <= j < |tape| :: !tape[j].kind.Anchor?
  }

  /** So the tail holds exactly the entries behind the last anchor that are no such marks. */
  lemma {:induction false} TailHolds(tape: seq<Entry>, e: Entry)
    ensures e in Tail(tape) <==> exists i :: 0 <= i < |tape| && tape[i] == e && Reachable(tape, i)
  {
    hide Tail, MarksHandoff;
    if tape == [] {
      NothingYet();
    } else {
      var n := |tape| - 1;
      var before := tape[..n];
      assert tape == before + [tape[n]];
      TailNext(before, tape[n]);
      TailHolds(before, e);
      if i :| 0 <= i < n && before[i] == e && Reachable(before, i) && !tape[n].kind.Anchor? {
        assert Reachable(tape, i);
      }
      if i :| 0 <= i < |tape| && tape[i] == e && Reachable(tape, i) && i < n {
        assert Reachable(before, i) && before[i] == e;
      }
    }
  }

  lemma {:induction false} NoAnchorAllOrdinary(es: seq<Entry>)
    requires forall i | 0 <= i < |es| :: !es[i].kind.Anchor?
    ensures WithoutHandoffs(es) == Ordinary(es)
  {
    hide IsHandoff;
    if es != [] {
      NoAnchorAllOrdinary(es[..|es| - 1]);
    }
  }

  /** A tape without anchors is all tail, so it reads as empty only if nothing ordinary is
      on it. */
  lemma NoAnchorIsAllTail(tape: seq<Entry>)
    requires forall i | 0 <= i < |tape| :: !tape[i].kind.Anchor?
    ensures Tail(tape) == Ordinary(tape)
  {
    LastCutIs(AtAnyAnchor, tape, -1);
    NoAnchorAllOrdinary(tape);
  }

  /** A tape with one message and no anchor. */
  lemma OneMessageIsTail(e: Entry)
    requires e.kind.Message?
    ensures Tail([e]) == [e]
  {
    NoAnchorIsAllTail([e]);
    assert [e][..0] == [];
  }

  // -- writing ---------------------------------------------------------------------------

  /** The store numbers what it is given. */
  function Put(tape: seq<Entry>, e: Entry): seq<Entry> {
    tape + [e.(id := |tape| + 1)]
  }

  function AnchorEntry(name: string, state: Dict): Entry {
    Entry(0, Anchor, map["name" := Str(name), "state" := Obj(state)], map[])
  }

  function HandoffMark(name: string, state: Dict): Entry {
    Entry(0, Event, map["name" := Str("handoff"), "data" := Obj(map["name" := Str(name), "state" := Obj(state)])],
        map[])
  }

  function Handoff(tape: seq<Entry>, name: string, state: Dict): seq<Entry> {
    Put(Put(tape, AnchorEntry(name, state)), HandoffMark(name, state))
  }

  function CompactionState(summary: string, tokensBefore: nat): Dict {
    map["kind" := Str("compaction"), "summary" := Str(summary), "tokens_before" := Num(tokensBefore)]
  }

  lemma PutEffect(tape: seq<Entry>, e: Entry)
    requires !e.kind.Anchor?
    ensures var x := if IsHandoff(e) then [] else [e.(id := |tape| + 1)];
      && Tail(Put(tape, e)) == Tail(tape) + x
      && Ordinary(Put(tape, e)) == Ordinary(tape) + x
  {
    hide Tail, Ordinary, IsHandoff;
    SameMark(e, |tape| + 1);
    TailAppend(tape, e.(id := |tape| + 1));
  }

  lemma SameMark(e: Entry, id: int)
    ensures IsHandoff(e.(id := id)) == IsHandoff(e)
  {
  }

  lemma HandoffEffect(tape: seq<Entry>, name: string, state: Dict)
    ensures Tail(Handoff(tape, name, state)) == []
    ensures Ordinary(Handoff(tape, name, state)) == Ordinary(tape)
  {
    hide Tail, Ordinary;
    var a := AnchorEntry(name, state).(id := |tape| + 1);
    TailAppend(tape, a);
    TailAppend(tape + [a], HandoffMark(name, state).(id := |tape| + 2));
  }

  /** A handoff writes two entries: the anchor with its name and state, and the mark with the
      same behind it, each numbered by its place. */
  lemma HandoffIs(tape: seq<Entry>, name: string, state: Dict)
    ensures var t := Handoff(tape, name, state);
      var n := |tape|;
      && |t| == n + 2 && tape <= t
      && t[n] == Entry(n + 1, Anchor, t[n].payload, map[]) && t[n + 1] == Entry(n + 2, Event, t[n + 1].payload, map[])
      && t[n].payload.Keys == {"name", "state"}
      && t[n].payload["name"] == Str(name) && t[n].payload["state"] == Obj(state)
      && MarksHandoff(t[n + 1]) && "data" in t[n + 1].payload
      && t[n + 1].payload["data"] == Obj(t[n].payload)
  {
    assert "name" != "state" by { assert "name"[0] != "state"[0]; }
  }

  /** The state of a compaction's anchor. */
  lemma CompactionStateIs(summary: string, tokensBefore: nat)
    ensures var s := CompactionState(summary, tokensBefore);
      && s.Keys == {"kind", "summary", "tokens_before"}
      && s["kind"] == Str("compaction") && s["summary"] == Str(summary) && s["tokens_before"] == Num(tokensBefore)
  {
    assert "kind"[0] != "summary"[0] && "kind"[0] != "tokens_before"[0] && "summary"[0] != "tokens_before"[0];
  }

  // -- the size estimate -----------------------------------------------------------------

  function EntryText(c: Codec, e: Entry): string {
    if e.kind.Message? then
      var content := Get(e.payload, "content", Str(""));
      if content.Str? then content.s else c.str(content)
    else c.dumps(Obj(e.payload))
  }

  function Chars(c: Codec, es: seq<Entry>): nat {
    if es == [] then 0 else Chars(c, es[..|es| - 1]) + |EntryText(c, es[|es| - 1])|
  }

  function EstimateTextTokens(c: Codec, es: seq<Entry>): nat {
    Chars(c, es) / 4
  }

  predicate ShouldAutoCompact(tokens: int, threshold: int) {
    threshold > 0 && tokens >= threshold
  }

  lemma CharsAppend(c: Codec, es: seq<Entry>, e: Entry)
    ensures Chars(c, es + [e]) == Chars(c, es) + |EntryText(c, e)|
  {
    assert (es + [e])[..|es|] == es;
  }

  /** How long an entry counts: the text of a message, or what `str` makes of other content,
      and the JSON of any other entry. */
  function TextLength(c: Codec, e: Entry): nat {
    if !e.kind.Message? then |c.dumps(Obj(e.payload))|
    else if "content" !in e.payload then 0
    else if e.payload["content"].Str? then |e.payload["content"].s|
    else |c.str(e.payload["content"])|
  }

  function TotalLength(c: Codec, es: seq<Entry>): nat {
    if es == [] then 0 else TextLength(c, es[0]) + TotalLength(c, es[1..])
  }

  lemma {:induction false} TotalAppend(c: Codec, es: seq<Entry>, e: Entry)
    ensures TotalLength(c, es + [e]) == TotalLength(c, es) + TextLength(c, e)
  {
    hide TextLength;
    if es == [] {
      assert es + [e] == [e] && [e][1..] == [];
    } else {
      assert (es + [e])[1..] == es[1..] + [e];
      TotalAppend(c, es[1..], e);
    }
  }

  lemma TextIs(c: Codec, e: Entry)
    ensures |EntryText(c, e)| == TextLength(c, e)
  {
  }

  lemma {:induction false} CharsIsTotal(c: Codec, es: seq<Entry>)
    ensures Chars(c, es) == TotalLength(c, es)
  {
    hide EntryText, TextLength;
    if es != [] {
      var n := |es| - 1;
      CharsIsTotal(c, es[..n]);
      TotalAppend(c, es[..n], es[n]);
      assert es == es[..n] + [es[n]];
      TextIs(c, es[n]);
    }
  }

  /** A compaction is due exactly if there is a threshold and the texts are at least four
      characters long for each of its tokens. */
  lemma DueIff(c: Codec, es: seq<Entry>, threshold: int)
    ensures ShouldAutoCompact(EstimateTextTokens(c, es), threshold) <==>
      threshold >= 1 && TotalLength(c, es) >= 4 * threshold
  {
    CharsIsTotal(c, es);
  }

  /** Once over its threshold a tape stays over it whatever ordinary entries follow:
      only an anchor brings the estimate down. */
  lemma OverThresholdUntilAnchor(c: Codec, tape: seq<Entry>, e: Entry, threshold: int)
    requires !e.kind.Anchor? && ShouldAutoCompact(EstimateTextTokens(c, Tail(tape)), threshold)
    ensures ShouldAutoCompact(EstimateTextTokens(c, Tail(Put(tape, e))), threshold)
  {
    hide Tail, Ordinary, Put, EntryText;
    PutEffect(tape, e);
    var x := e.(id := |tape| + 1);
    if IsHandoff(e) {
      assert Tail(tape) + [] == Tail(tape);
    } else {
      CharsAppend(c, Tail(tape), x);
    }
  }

  // -- one session, its writers and its compactions under way --------------------------------

  /** A window being summarised. `detached` once another anchor was written
      behind it, so that it is no longer what a new window would start with. */
  datatype Held = Held(window: seq<Entry>, detached: bool)

  datatype State = State(
    tape: seq<Entry>,
    /** The windows being summarised, oldest first. */
    held: seq<Held>,
    /** The windows whose summary made it onto the tape. */
    done: seq<seq<Entry>>
  )

  datatype Op =
    | Append(e: Entry)
    /** `session/start`, `session/renamed`, `turn/provider`: any other handoff. */
    | ForeignAnchor(name: string, state: Dict)
    | Begin
    | Complete(i: nat, summary: string, tokensBefore: nat)
    | Fail(i: nat)

  const Fresh := State([], [], [])

  predicate Enabled(s: State, op: Op) {
    match op
    case Append(e) => !e.kind.Anchor?
    case Complete(i, _, _) => i < |s.held|
    case Fail(i) => i < |s.held|
    case _ => true
  }

  function Detached(held: seq<Held>): seq<Held> {
    seq(|held|, i requires 0 <= i < |held| => Held(held[i].window, true))
  }

  function WithoutAt(held: seq<Held>, i: nat): seq<Held>
    requires i < |held|
  {
    held[..i] + held[i + 1..]
  }

  function Apply(s: State, op: Op): State
    requires Enabled(s, op)
  {
    match op
    case Append(e) => s.(tape := Put(s.tape, e))
    case ForeignAnchor(name, state) => s.(tape := Handoff(s.tape, name, state), held := Detached(s.held))
    case Begin => if Tail(s.tape) == [] then s else s.(held := s.held + [Held(Tail(s.tape), false)])
    case Complete(i, summary, tokensBefore) =>
      State(Handoff(s.tape, "compaction", CompactionState(summary, tokensBefore)),
        Detached(WithoutAt(s.held, i)), s.done + [s.held[i].window])
    case Fail(i) => s.(held := WithoutAt(s.held, i))
  }

  predicate Allowed(s: State, ops: seq<Op>)
    decreases |ops|
  {
    ops == [] || (Enabled(s, ops[0]) && Allowed(Apply(s, ops[0]), ops[1..]))
  }

  function Run(s: State, ops: seq<Op>): State
    requires Allowed(s, ops)
    decreases |ops|
  {
    if ops == [] then s else Run(Apply(s, ops[0]), ops[1..])
  }

  function Flat(ws: seq<seq<Entry>>): seq<Entry> {
    if ws == [] then [] else Flat(ws[..|ws| - 1]) + ws[|ws| - 1]
  }

  /** The windows cut off from the tail, or those that are still its beginning. */
  function Windows(held: seq<Held>, detached: bool): seq<seq<Entry>> {
    if held == [] then [] else
    Windows(held[..|held| - 1], detached)
    + if held[|held| - 1].detached == detached then [held[|held| - 1].window] else []
  }

  function HeldApart(s: State): seq<Entry> {
    Flat(Windows(s.held, true))
  }

  function HeldAhead(s: State): seq<Entry> {
    Flat(Windows(s.held, false))
  }

  /** What summaries hold, will hold if those under way succeed, or can still reach. */
  function Covered(s: State): seq<Entry> {
    Flat(s.done) + (HeldApart(s) + Tail(s.tape))
  }

  /** The windows and the tail partition the ordinary entries, in order. */
  predicate Partition(s: State) {
    Covered(s) == Ordinary(s.tape)
  }

  predicate Inv(s: State) {
    forall h | h in s.held :: h.window != [] && (!h.detached ==> h.window <= Tail(s.tape))
  }

  /** All of the tail has been handed to one compaction under way and to no other. */
  predicate Ready(s: State) {
    Windows(s.held, false) == if Tail(s.tape) == [] then [] else [Tail(s.tape)]
  }

  /** The steps after which nothing has slipped between two windows or into two: every
      anchor, a compaction's own included, is written when the tail is ready for it, and
      no summary fails once its window is cut off. */
  predicate Keeps(s: State, op: Op)
    requires Enabled(s, op)
  {
    match op
    case ForeignAnchor(_, _) => Ready(s)
    case Complete(_, _, _) => Ready(s)
    case Fail(i) => !s.held[i].detached
    case _ => true
  }

  predicate AllKept(s: State, ops: seq<Op>)
    requires Allowed(s, ops)
    decreases |ops|
  {
    ops == [] || (Keeps(s, ops[0]) && AllKept(Apply(s, ops[0]), ops[1..]))
  }

  /** No compaction begins while another one is under way. */
  predicate OneAtATime(s: State, ops: seq<Op>)
    requires Allowed(s, ops)
    decreases |ops|
  {
    ops == [] || ((ops[0].Begin? ==> s.held == []) && OneAtATime(Apply(s, ops[0]), ops[1..]))
  }

  /** How many ordinary entries no summary holds or can reach any more. */
  function Missing(s: State): int {
    |Ordinary(s.tape)| - |Covered(s)|
  }

  function Lost(s: State, op: Op): int
    requires Enabled(s, op)
  {
    match op
    case ForeignAnchor(_, _) => |Tail(s.tape)| - |HeldAhead(s)|
    case Complete(_, _, _) => |Tail(s.tape)| - |HeldAhead(s)|
    case Fail(i) => if s.held[i].detached then |s.held[i].window| else 0
    case _ => 0
  }

  // -- one step, one compaction at a time ----------------------------------------------------

  lemma FlatAppend(ws: seq<seq<Entry>>, w: seq<Entry>)
    ensures Flat(ws + [w]) == Flat(ws) + w
  {
    assert (ws + [w])[..|ws|] == ws;
  }

  lemma Partitioned(a: seq<Entry>, b: seq<Entry>, c: seq<Entry>, d: seq<Entry>)
    ensures a + (b + (c + d)) == a + (b + c) + d
    ensures (a + b) + ([] + []) == a + b
    ensures a + ([] + b) == a + b && a + (b + []) == a + b
  {
  }

  lemma WindowsAppend(held: seq<Held>, h: Held, detached: bool)
    ensures Windows(held + [h], detached) == Windows(held, detached) + if h.detached == detached then [h.window] else []
    ensures Windows([], detached) == []
  {
    assert (held + [h])[..|held|] == held;
  }

  /** At most one window is under way. */
  lemma AtMostOne(held: seq<Held>, detached: bool)
    requires |held| <= 1
    ensures Windows(held, detached) ==
      if held != [] && held[0].detached == detached then [held[0].window] else []
    ensures Flat([]) == [] && (held != [] ==> Flat([held[0].window]) == held[0].window)
    ensures held != [] ==> WithoutAt(held, 0) == [] && Detached(held) == [Held(held[0].window, true)]
    ensures held == [] ==> Detached(held) == []
  {
    if held != [] {
      assert held == [] + [held[0]];
      WindowsAppend([], held[0], detached);
      FlatAppend([], held[0].window);
      assert [] + [held[0].window] == [held[0].window];
    }
  }

  lemma AppendStep(s: State, e: Entry)
    requires Inv(s) && !e.kind.Anchor?
    ensures var t := Apply(s, Append(e));
      Inv(t) && Missing(t) == Missing(s) && (Partition(s) ==> Partition(t))
  {
    hide Tail, Ordinary, Flat, Put, IsHandoff, Windows;
    PutEffect(s.tape, e);
    Partitioned(Flat(s.done), HeldApart(s), Tail(s.tape), if IsHandoff(e) then [] else [e.(id := |s.tape| + 1)]);
  }

  lemma ForeignStep(s: State, name: string, state: Dict)
    requires Inv(s) && |s.held| <= 1
    ensures var op := ForeignAnchor(name, state); var t := Apply(s, op);
      Inv(t) && Missing(t) == Missing(s) + Lost(s, op) && (Partition(s) && Keeps(s, op) ==> Partition(t))
  {
    hide Tail, Ordinary, Flat, Handoff, Windows;
    HandoffEffect(s.tape, name, state);
    AtMostOne(s.held, true);
    AtMostOne(s.held, false);
    AtMostOne(Detached(s.held), true);
    if s.held != [] {
      Partitioned(Flat(s.done), s.held[0].window, [], []);
    } else {
      Partitioned(Flat(s.done), Tail(s.tape), [], []);
    }
  }

  lemma CompleteStep(s: State, summary: string, tokensBefore: nat)
    requires Inv(s) && |s.held| == 1
    ensures var op := Complete(0, summary, tokensBefore); var t := Apply(s, op);
      Inv(t) && Missing(t) == Missing(s) + Lost(s, op) && (Partition(s) && Keeps(s, op) ==> Partition(t))
  {
    hide Tail, Ordinary, Flat, Handoff, CompactionState, Windows;
    HandoffEffect(s.tape, "compaction", CompactionState(summary, tokensBefore));
    AtMostOne(s.held, true);
    AtMostOne(s.held, false);
    AtMostOne([], true);
    var w := s.held[0].window;
    FlatAppend(s.done, w);
    Partitioned(Flat(s.done), w, [], []);
  }

  lemma FailStep(s: State)
    requires Inv(s) && |s.held| == 1
    ensures var t := Apply(s, Fail(0));
      Inv(t) && Missing(t) == Missing(s) + Lost(s, Fail(0)) && (Partition(s) && Keeps(s, Fail(0)) ==> Partition(t))
  {
    hide Tail, Ordinary, Flat, Windows;
    AtMostOne(s.held, true);
    AtMostOne([], true);
  }

  lemma BeginStep(s: State)
    requires Inv(s) && s.held == []
    ensures var t := Apply(s, Begin);
      Inv(t) && Missing(t) == Missing(s) && (Partition(s) ==> Partition(t)) && |t.held| <= 1
  {
    hide Tail, Ordinary, Flat, Windows;
    AtMostOne([], true);
    AtMostOne(Apply(s, Begin).held, true);
  }

  /** With one window at most, the step keeps the rule exactly if it loses nothing. */
  lemma KeepsIsNoLoss(s: State, op: Op)
    requires Inv(s) && |s.held| <= 1 && Enabled(s, op)
    ensures Lost(s, op) >= 0 && (Keeps(s, op) <==> Lost(s, op) == 0)
  {
    hide Tail, Flat, Windows;
    AtMostOne(s.held, false);
    if s.held != [] && !s.held[0].detached {
      var w := s.held[0].window;
      assert s.held[0] in s.held && w <= Tail(s.tape);
      assert |w| == |Tail(s.tape)| <==> w == Tail(s.tape);
    }
    assert forall i | 0 <= i < |s.held| :: s.held[i] in s.held;
  }

  lemma StepAccounts(s: State, op: Op)
    requires Inv(s) && |s.held| <= 1 && Enabled(s, op) && (op.Begin? ==> s.held == [])
    ensures var t := Apply(s, op);
      && Inv(t) && |t.held| <= 1
      && Missing(t) == Missing(s) + Lost(s, op) && (Partition(s) && Keeps(s, op) ==> Partition(t))
  {
    hide Tail, Ordinary, Flat, Handoff, CompactionState, Put, Windows, Covered, Inv;
    match op
    case Append(e) => AppendStep(s, e);
    case ForeignAnchor(name, state) => ForeignStep(s, name, state);
    case Begin => BeginStep(s);
    case Complete(_, summary, tokensBefore) => CompleteStep(s, summary, tokensBefore);
    case Fail(_) => FailStep(s);
  }

  // -- whole runs --------------------------------------------------------------------------

  lemma {:induction false} RunAccounts(s: State, ops: seq<Op>)
    requires Inv(s) && |s.held| <= 1 && Allowed(s, ops) && OneAtATime(s, ops) && Missing(s) >= 0
    ensures var t := Run(s, ops);
      && Inv(t) && Missing(t) >= Missing(s)
      && (Partition(s) && AllKept(s, ops) ==> Partition(t))
      && (!AllKept(s, ops) ==> Missing(t) > 0)
    decreases |ops|
  {
    hide Covered, Ordinary, Apply, Keeps, Lost, Enabled, Inv, HeldApart;
    if ops != [] {
      StepAccounts(s, ops[0]);
      KeepsIsNoLoss(s, ops[0]);
      RunAccounts(Apply(s, ops[0]), ops[1..]);
    }
  }

  /** Over every run of writers, renames, provider stamps and compactions one at a time,
      however they interleave: the windows whose summaries are on the tape, then the one
      cut off while its summariser runs, then the tail, are exactly the ordinary entries
      in order if and only if every step kept to the rule above. */
  lemma PartitionIffKept(ops: seq<Op>)
    requires Allowed(Fresh, ops) && OneAtATime(Fresh, ops)
    ensures Partition(Run(Fresh, ops)) <==> AllKept(Fresh, ops)
  {
    hide Run, Allowed, AllKept, OneAtATime;
    assert Covered(Fresh) == [];
    RunAccounts(Fresh, ops);
  }

  lemma {:induction false} TapeOnlyGrows(s: State, ops: seq<Op>)
    requires Allowed(s, ops)
    ensures s.tape <= Run(s, ops).tape
    decreases |ops|
  {
    if ops != [] {
      TapeOnlyGrows(Apply(s, ops[0]), ops[1..]);
    }
  }

  /** Each compaction taken as one step, on a tape whose only foreign anchors stand
      in front of ordinary entries. */
  datatype Whole = Write(e: Entry) | Start(name: string, state: Dict) | Compacts(summary: string,
      tokensBefore: nat) | GivesUp

  function Steps(s: State, w: Whole): seq<Op> {
    match w
    case Write(e) => [Append(e)]
    case Start(name, state) => [ForeignAnchor(name, state)]
    case Compacts(summary, tokensBefore) =>
      if Tail(s.tape) == [] then [Begin] else [Begin, Complete(0, summary, tokensBefore)]
    case GivesUp => if Tail(s.tape) == [] then [Begin] else [Begin, Fail(0)]
  }

  predicate Writable(w: Whole) {
    w.Write? ==> !w.e.kind.Anchor?
  }

  lemma StepsAllowed(s: State, w: Whole)
    requires s.held == [] && Writable(w)
    ensures Allowed(s, Steps(s, w)) && Run(s, Steps(s, w)).held == []
  {
    hide Tail, Put, Handoff, CompactionState;
    if (w.Compacts? || w.GivesUp?) && Tail(s.tape) != [] {
      var steps := Steps(s, w);
      assert steps[1..][1..] == [];
      TwoRun(s, steps[0], steps[1]);
      assert Detached([]) == [];
    } else {
      OneRun(s, Steps(s, w)[0]);
      assert Detached([]) == [];
    }
  }

  function RunWhole(s: State, ws: seq<Whole>): State
    requires s.held == [] && forall w | w in ws :: Writable(w)
    decreases |ws|
  {
    if ws == [] then s else
    StepsAllowed(s, ws[0]);
    RunWhole(Run(s, Steps(s, ws[0])), ws[1..])
  }

  /** No anchor but a compaction's is written onto a tail that is not empty. */
  predicate OnlyCompactionCuts(s: State, ws: seq<Whole>)
    requires s.held == []
    decreases |ws|
  {
    ws == [] || (
      && Writable(ws[0])
      && (ws[0].Start? ==> Tail(s.tape) == [])
      && (StepsAllowed(s, ws[0]); OnlyCompactionCuts(Run(s, Steps(s, ws[0])), ws[1..])))
  }

  lemma OneRun(s: State, op: Op)
    requires Enabled(s, op)
    ensures Allowed(s, [op]) && Run(s, [op]) == Apply(s, op)
  {
    hide Apply, Enabled;
    assert [op][1..] == [];
  }

  lemma TwoRun(s: State, a: Op, b: Op)
    requires Enabled(s, a) && Enabled(Apply(s, a), b)
    ensures Allowed(s, [a, b]) && Run(s, [a, b]) == Apply(Apply(s, a), b)
  {
    hide Apply, Enabled;
    assert [a, b][1..] == [b];
    OneRun(Apply(s, a), b);
  }

  lemma WholeStepKeeps(s: State, w: Whole)
    requires s.held == [] && Partition(s) && Writable(w)
    requires w.Start? ==> Tail(s.tape) == []
    ensures Allowed(s, Steps(s, w)) && var t := Run(s, Steps(s, w)); t.held == [] && Partition(t)
  {
    hide Tail, Ordinary, Flat, Handoff, CompactionState, Put, Run, Covered, Windows;
    StepsAllowed(s, w);
    AtMostOne([], false);
    if w.Write? || w.Start? || Tail(s.tape) == [] {
      OneRun(s, Steps(s, w)[0]);
      StepAccounts(s, Steps(s, w)[0]);
    } else {
      var op := Steps(s, w)[1];
      var s1 := Apply(s, Begin);
      TwoRun(s, Begin, op);
      StepAccounts(s, Begin);
      AtMostOne(s1.held, false);
      StepAccounts(s1, op);
    }
  }

  /** With compactions as single steps and no foreign anchor behind ordinary
      entries, the windows and the tail partition the tape, always. */
  lemma {:induction false} WindowsPartitionTheTape(s: State, ws: seq<Whole>)
    requires s.held == [] && Partition(s) && OnlyCompactionCuts(s, ws)
    requires forall w | w in ws :: Writable(w)
    ensures var t := RunWhole(s, ws);
      t.held == [] && Flat(t.done) + Tail(t.tape) == Ordinary(t.tape)
    decreases |ws|
  {
    hide Tail, Ordinary, Flat, Run, Steps, Writable;
    if ws != [] {
      WholeStepKeeps(s, ws[0]);
      StepsAllowed(s, ws[0]);
      WindowsPartitionTheTape(Run(s, Steps(s, ws[0])), ws[1..]);
    } else {
      AtMostOne([], true);
      Partitioned(Flat(s.done), Tail(s.tape), [], []);
    }
  }

  function Written(ws: seq<Whole>): nat {
    if ws == [] then 0 else (if ws[0].Write? then 1 else if ws[0].Start? then 2 else 0) + Written(ws[1..])
  }

  lemma StepWrites(s: State, w: Whole)
    requires s.held == [] && Writable(w)
    ensures Allowed(s, Steps(s, w))
    ensures |Run(s, Steps(s, w)).tape| >= |s.tape| + if w.Write? then 1 else if w.Start? then 2 else 0
  {
    hide Tail, CompactionState, AnchorEntry, HandoffMark;
    StepsAllowed(s, w);
    TapeOnlyGrows(s, Steps(s, w));
    if w.Write? || w.Start? {
      OneRun(s, Steps(s, w)[0]);
    }
  }

  /** Such a run does write what it is given. */
  lemma {:induction false} WholeWrites(s: State, ws: seq<Whole>)
    requires s.held == [] && forall w | w in ws :: Writable(w)
    ensures |RunWhole(s, ws).tape| >= |s.tape| + Written(ws)
    decreases |ws|
  {
    hide Run, Steps, Writable, Allowed;
    if ws != [] {
      StepsAllowed(s, ws[0]);
      StepWrites(s, ws[0]);
      WholeWrites(Run(s, Steps(s, ws[0])), ws[1..]);
    }
  }

  // -- what the model is shown after a compaction --------------------------------------------

  lemma MarkShowsNothing(c: Codec, name: string, state: Dict, id: int, pending: seq<Dict>)
    ensures var m := HandoffMark(name, state).(id := id);
      !IsCompaction(m) && Projections.Added(c, pending, m) == [] && Projections.HistoryOf(m) == []
      && Projections.FramesOf(c, m) == []
  {
  }

  function SummaryMessage(summary: string): Dict {
    map["role" := Str("system"),
        "content" := Str(if summary != "" then "[compacted history]\n" + summary else "[compacted history]")]
  }

  lemma SummaryOfAnchor(c: Codec, summary: string, tokensBefore: nat, id: int)
    ensures var a := AnchorEntry("compaction", CompactionState(summary, tokensBefore)).(id := id);
      IsCompaction(a) && Summary(c, a) == SummaryMessage(summary)
  {
  }

  /** Right after a compaction the model and the loop are shown the summary alone and
      the transcript nothing; a second compaction is a no-op; and the estimate is
      back at zero, so no threshold triggers the next one. */
  lemma FreshlyCompacted(c: Codec, s: State, i: nat, summary: string, tokensBefore: nat, threshold: int)
    requires i < |s.held|
    ensures var t := Apply(s, Complete(i, summary, tokensBefore));
      && Projections.Selection(c, t.tape) == [SummaryMessage(summary)]
      && Projections.Projection(c, t.tape) == [SummaryMessage(summary)]
      && Projections.Frames(c, t.tape) == []
      && Apply(t, Begin) == t
      && !ShouldAutoCompact(EstimateTextTokens(c, Tail(t.tape)), threshold)
  {
    hide Projections.Selection, Projections.Projection, Projections.Frames, Projections.Added,
      Projections.HistoryOf, Projections.FramesOf, IsCompaction, Summary, Tail, SummaryMessage, AnchorEntry,
          HandoffMark, CompactionState;
    var state := CompactionState(summary, tokensBefore);
    var a := AnchorEntry("compaction", state).(id := |s.tape| + 1);
    var m := HandoffMark("compaction", state).(id := |s.tape| + 2);
    HandoffEffect(s.tape, "compaction", state);
    SummaryOfAnchor(c, summary, tokensBefore, |s.tape| + 1);
    Projections.SelectionNext(c, s.tape, a);
    Projections.ProjectionNext(c, s.tape, a);
    Projections.FramesNext(c, s.tape, a);
    MarkShowsNothing(c, "compaction", state, |s.tape| + 2, Projections.PendingBehind(Behind(AtCompaction,
        s.tape + [a])));
    Projections.SelectionNext(c, s.tape + [a], m);
    Projections.ProjectionNext(c, s.tape + [a], m);
    Projections.FramesNext(c, s.tape + [a], m);
  }

  // -- a loss ----------------------------------------------------------------------------------

  /** A provider stamp behind a message takes that message from every later window:
      the next compaction hides it from the model without having summarised it. */
  lemma StampBeforeCompactionLoses(c: Codec, first: Entry, second: Entry, summary: string)
    requires first.kind.Message? && second.kind.Message?
    ensures var s1 := Apply(Fresh, Append(first));
      var s2 := Apply(s1, ForeignAnchor("turn/provider", map[]));
      var s3 := Apply(s2, Append(second));
      var s4 := Apply(s3, Begin);
      && !Keeps(s1, ForeignAnchor("turn/provider", map[])) && s4.held != []
      && var t := Apply(s4, Complete(0, summary, 0));
      && t.done == [[second.(id := 4)]]
      && Ordinary(t.tape) == [first.(id := 1), second.(id := 4)]
      && Projections.Selection(c, t.tape) == [SummaryMessage(summary)]
  {
    hide Projections.Selection, Projections.Projection, Projections.Frames, SummaryMessage, ShouldAutoCompact,
      Tail, Ordinary, Put, Handoff, CompactionState;
    var s1 := Apply(Fresh, Append(first));
    var s2 := Apply(s1, ForeignAnchor("turn/provider", map[]));
    var s3 := Apply(s2, Append(second));
    NothingYet();
    PutEffect([], first);
    HandoffEffect(s1.tape, "turn/provider", map[]);
    PutEffect(s2.tape, second);
    HandoffEffect(s3.tape, "compaction", CompactionState(summary, 0));
    Lengths(first);
    assert Tail(s3.tape) == [second.(id := 4)];
    FreshlyCompacted(c, Apply(s3, Begin), 0, summary, 0, 0);
    assert Ordinary(s3.tape) == [first.(id := 1), second.(id := 4)];
  }

  lemma NothingYet()
    ensures Tail([]) == [] && Ordinary([]) == []
  {
  }

  lemma Lengths(first: Entry)
    ensures |Handoff(Put([], first), "turn/provider", map[])| == 3
  {
  }
}
