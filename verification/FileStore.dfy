/** The one-file-per-tape store with its next-id cache, on files as a crash may have
    left them: the last line need not have got its newline. */
module FileStore {
  import opened Common
  import opened Tape
  import opened TapeStore

  /** A line as the reader classifies it. */
  datatype Line = Blank | NotJson | NotAnEntry | Holds(e: Entry)

  /** The finished lines, and what stands behind the last newline: `Blank` if nothing
      but white space does. */
  datatype File = File(lines: seq<Line>, last: Line)

  const NoFile := File([], Blank)

  predicate Finished(f: File) {
    f.last.Blank?
  }

  function EntriesOf(lines: seq<Line>): seq<Entry> {
    if lines == [] then [] else
    EntriesOf(lines[..|lines| - 1]) + if lines[|lines| - 1].Holds? then [lines[|lines| - 1].e] else []
  }

  /** What the reader makes of a file; it reads an unfinished line like any other. */
  function Entries(f: File): seq<Entry> {
    EntriesOf(f.lines + [f.last])
  }

  /** Opening for append and writing a line goes on with the unfinished one, and two
      texts on one line are no JSON, whatever each was. */
  function Joined(last: Line, e: Entry): Line {
    if last.Blank? then Holds(e) else NotJson
  }

  lemma EntriesAppend(lines: seq<Line>, line: Line)
    ensures EntriesOf(lines + [line]) == if line.Holds? then EntriesOf(lines) + [line.e] else EntriesOf(lines)
  {
    assert (lines + [line])[..|lines|] == lines;
  }

  // -- the store as a machine ------------------------------------------------------------

  datatype State = State(files: map<string, File>, nextId: map<string, nat>)

  /** How much of its line a dying process got into the file. */
  datatype Torn = Nothing | Part | AllButNewline

  datatype Op =
    | Append(tape: string, e: Entry)
    | Reset(tape: string)
    | Reopen
    | Crash(tape: string, e: Entry, torn: Torn)

  function FileOf(s: State, tape: string): File {
    if tape in s.files then s.files[tape] else NoFile
  }

  function NextId(s: State, tape: string): nat {
    if tape in s.nextId then s.nextId[tape] else |Entries(FileOf(s, tape))| + 1
  }

  function Appended(f: File, e: Entry): File {
    File(f.lines + [Joined(f.last, e)], Blank)
  }

  function TornOff(f: File, e: Entry, torn: Torn): File {
    match torn
    case Nothing => f
    case Part => f.(last := NotJson)
    case AllButNewline => f.(last := Joined(f.last, e))
  }

  function Apply(s: State, op: Op): State {
    match op
    case Append(tape, e) =>
      var id := NextId(s, tape);
      State(s.files[tape := Appended(FileOf(s, tape), e.(id := id))], s.nextId[tape := id + 1])
    case Reset(tape) => State(s.files - {tape}, s.nextId - {tape})
    case Reopen => State(s.files, map[])
    case Crash(tape, e, torn) =>
      State(s.files[tape := TornOff(FileOf(s, tape), e.(id := NextId(s, tape)), torn)], map[])
  }

  function ApplyAll(s: State, ops: seq<Op>): State
    decreases |ops|
  {
    if ops == [] then s else ApplyAll(Apply(s, ops[0]), ops[1..])
  }

  /** A cached id is one more than the entries readable. */
  ghost predicate CacheExact(s: State) {
    forall t | t in s.nextId :: s.nextId[t] == |Entries(FileOf(s, t))| + 1
  }

  predicate Numbered(es: seq<Entry>) {
    forall i | 0 <= i < |es| :: es[i].id == i + 1
  }

  ghost predicate AllNumbered(s: State) {
    forall t | t in s.files :: Numbered(Entries(s.files[t]))
  }

  // -- one append --------------------------------------------------------------------------

  lemma AppendedEntries(f: File, e: Entry)
    ensures Finished(f) ==> Entries(Appended(f, e)) == Entries(f) + [e]
    ensures !Finished(f) ==> Entries(Appended(f, e)) == EntriesOf(f.lines)
    ensures Entries(f) == if f.last.Holds? then EntriesOf(f.lines) + [f.last.e] else EntriesOf(f.lines)
  {
    hide EntriesOf;
    EntriesAppend(f.lines, f.last);
    EntriesAppend(f.lines, Joined(f.last, e));
    EntriesAppend(f.lines + [Joined(f.last, e)], Blank);
  }

  /** The exact condition: an append adds its entry, numbered one more than the readable
      ones, and leaves the cache exact, if and only if the file ended in a newline or
      with nothing but white space behind it. */
  lemma AppendExactIff(s: State, tape: string, e: Entry)
    requires CacheExact(s)
    ensures var f, t := FileOf(s, tape), Apply(s, Append(tape, e));
      && (Entries(FileOf(t, tape)) == Entries(f) + [e.(id := |Entries(f)| + 1)] <==> Finished(f))
      && (CacheExact(t) <==> Finished(f))
  {
    hide Entries, Appended;
    var f, t := FileOf(s, tape), Apply(s, Append(tape, e));
    AppendedEntries(f, e.(id := NextId(s, tape)));
    assert t.nextId[tape] == |Entries(f)| + 2;
    if !Finished(f) {
      assert |Entries(FileOf(t, tape))| <= |Entries(f)|;
    }
  }

  /** The input that shows it: behind an unfinished line the new entry cannot be read,
      while the cache counts it; and if that line was a whole entry it is gone as well. */
  lemma UnfinishedLineSwallows(s: State, tape: string, e: Entry)
    requires CacheExact(s) && !Finished(FileOf(s, tape))
    ensures var f, t := FileOf(s, tape), Apply(s, Append(tape, e));
      && Entries(FileOf(t, tape)) == EntriesOf(f.lines)
      && (f.last.Holds? ==> Entries(f) == Entries(FileOf(t, tape)) + [f.last.e])
      && t.nextId[tape] == |Entries(f)| + 2 > |Entries(FileOf(t, tape))| + 1
  {
    hide EntriesOf;
    AppendedEntries(FileOf(s, tape), e.(id := NextId(s, tape)));
  }

  /** And a crash leaves such a line: every append that died with part of its line out. */
  lemma CrashLeavesIt(s: State, tape: string, e: Entry, torn: Torn)
    requires Finished(FileOf(s, tape))
    ensures Finished(FileOf(Apply(s, Crash(tape, e, torn)), tape)) <==> torn.Nothing?
  {
  }

  /** A store opened anew counts anew. */
  lemma ReopenCounts(s: State, tape: string, e: Entry)
    requires Finished(FileOf(s, tape))
    ensures var t := Apply(s, Reopen);
      && t.files == s.files && CacheExact(t)
      && Entries(FileOf(Apply(t, Append(tape, e)), tape))
           == Entries(FileOf(s, tape)) + [e.(id := |Entries(FileOf(s, tape))| + 1)]
  {
    hide Entries, Appended;
    AppendedEntries(FileOf(s, tape), e.(id := NextId(Apply(s, Reopen), tape)));
  }

  lemma {:induction false} AllInOrder(s: State, ops: seq<Op>, op: Op)
    ensures ApplyAll(s, []) == s && ApplyAll(s, ops + [op]) == Apply(ApplyAll(s, ops), op)
    decreases |ops|
  {
    hide Apply;
    if ops == [] {
      assert [] + [op] == [op] && [op][1..] == [];
    } else {
      assert (ops + [op])[0] == ops[0] && (ops + [op])[1..] == ops[1..] + [op];
      AllInOrder(Apply(s, ops[0]), ops[1..], op);
    }
  }

  /** Once cached, the next id is what the cache says, whatever the file holds by then. */
  lemma CachedIdIsUsed(s: State, tape: string, e: Entry)
    requires tape in s.nextId && Finished(FileOf(s, tape))
    ensures var t := Apply(s, Append(tape, e));
      && Entries(FileOf(t, tape)) == Entries(FileOf(s, tape)) + [e.(id := s.nextId[tape])]
      && t.nextId[tape] == s.nextId[tape] + 1
  {
    hide Entries, Appended;
    AppendedEntries(FileOf(s, tape), e.(id := NextId(s, tape)));
  }

  /** A reset tape is empty and starts at 1 again; no other tape is touched. */
  lemma ResetForgets(s: State, tape: string, other: string, e: Entry)
    ensures var t := Apply(s, Reset(tape));
      && Entries(FileOf(t, tape)) == []
      && Entries(FileOf(Apply(t, Append(tape, e)), tape)) == [e.(id := 1)]
      && (other != tape ==> FileOf(t, other) == FileOf(s, other) && NextId(t, other) == NextId(s, other))
  {
    hide EntriesOf;
    NothingRead(1);
    AppendedEntries(NoFile, e.(id := 1));
  }

  // -- whole runs ----------------------------------------------------------------------------

  predicate AllFinished(s: State, ops: seq<Op>)
    decreases |ops|
  {
    ops == [] || ((ops[0].Append? ==> Finished(FileOf(s, ops[0].tape))) && AllFinished(Apply(s, ops[0]), ops[1..]))
  }

  ghost predicate AlwaysExact(s: State, ops: seq<Op>)
    decreases |ops|
  {
    CacheExact(s) && (ops == [] || AlwaysExact(Apply(s, ops[0]), ops[1..]))
  }

  lemma OtherOpsKeepCache(s: State, op: Op)
    requires CacheExact(s) && !op.Append?
    ensures CacheExact(Apply(s, op))
  {
    hide Entries;
  }

  /** Over any appends, resets, reopens and crashes: the cache is exact throughout if and
      only if every append found a finished file. */
  lemma {:induction false} CacheExactIff(s: State, ops: seq<Op>)
    requires CacheExact(s)
    ensures AlwaysExact(s, ops) <==> AllFinished(s, ops)
    decreases |ops|
  {
    hide CacheExact, Apply, Finished;
    if ops != [] {
      if ops[0].Append? {
        AppendExactIff(s, ops[0].tape, ops[0].e);
        if Finished(FileOf(s, ops[0].tape)) {
          CacheExactIff(Apply(s, ops[0]), ops[1..]);
        }
      } else {
        OtherOpsKeepCache(s, ops[0]);
        CacheExactIff(Apply(s, ops[0]), ops[1..]);
      }
      if !CacheExact(Apply(s, ops[0])) {
        NotExactAtOnce(Apply(s, ops[0]), ops[1..]);
      }
    }
  }

  lemma NotExactAtOnce(s: State, ops: seq<Op>)
    requires !CacheExact(s)
    ensures !AlwaysExact(s, ops)
  {
  }

  lemma NumberedAppend(es: seq<Entry>, e: Entry)
    requires Numbered(es) && e.id == |es| + 1
    ensures Numbered(es + [e])
  {
  }

  lemma NumberedFile(s: State, tape: string)
    requires AllNumbered(s)
    ensures Numbered(Entries(FileOf(s, tape)))
  {
    hide Entries;
    NothingRead(1);
  }

  lemma TornEntries(f: File, e: Entry, torn: Torn)
    requires Numbered(Entries(f)) && e.id == |Entries(f)| + 1
    ensures Numbered(Entries(TornOff(f, e, torn)))
  {
    hide EntriesOf;
    EntriesAppend(f.lines, f.last);
    EntriesAppend(f.lines, NotJson);
    EntriesAppend(f.lines, Holds(e));
  }

  lemma OpKeepsNumbers(s: State, op: Op)
    requires CacheExact(s) && AllNumbered(s)
    requires op.Append? ==> Finished(FileOf(s, op.tape))
    ensures AllNumbered(Apply(s, op))
  {
    hide Entries, Numbered, TornOff, Appended, Finished;
    if op.Append? {
      var es := Entries(FileOf(s, op.tape));
      NumberedFile(s, op.tape);
      AppendedEntries(FileOf(s, op.tape), op.e.(id := NextId(s, op.tape)));
      NumberedAppend(es, op.e.(id := |es| + 1));
    } else if op.Crash? {
      NumberedFile(s, op.tape);
      TornEntries(FileOf(s, op.tape), op.e.(id := NextId(s, op.tape)), op.torn);
    }
  }

  /** And then, crashes included, tapes that started out numbered 1..n stay so. */
  lemma {:induction false} IdsStayNumbered(s: State, ops: seq<Op>)
    requires CacheExact(s) && AllFinished(s, ops)
    ensures CacheExact(ApplyAll(s, ops))
    ensures AllNumbered(s) ==> AllNumbered(ApplyAll(s, ops))
    decreases |ops|
  {
    hide CacheExact, AllNumbered, Apply, Finished;
    if ops != [] {
      if ops[0].Append? {
        AppendExactIff(s, ops[0].tape, ops[0].e);
      } else {
        OtherOpsKeepCache(s, ops[0]);
      }
      if AllNumbered(s) {
        OpKeepsNumbers(s, ops[0]);
      }
      IdsStayNumbered(Apply(s, ops[0]), ops[1..]);
    }
  }

  // -- the store -----------------------------------------------------------------------------

  class FileTapeStore {
    /** The directory. */
    var files: map<string, File>
    var nextId: map<string, nat>

    ghost function View(): State reads this {
      State(files, nextId)
    }

    ghost predicate Valid() reads this {
      CacheExact(View())
    }

    constructor (directory: map<string, File>)
      ensures Valid() && View() == State(directory, map[])
    {
      files, nextId := directory, map[];
    }

    method Reset(tape: string)
      modifies this
      ensures View() == Apply(old(View()), Op.Reset(tape))
      ensures old(Valid()) ==> Valid()
    {
      hide Entries;
      files := files - {tape};
      nextId := nextId - {tape};
    }

    method Append(tape: string, e: Entry)
      modifies this
      ensures View() == Apply(old(View()), Op.Append(tape, e))
      ensures tape in files && Finished(files[tape])
      ensures old(Valid()) ==> (Valid() <==> Finished(FileOf(old(View()), tape)))
      ensures old(Valid()) && Finished(FileOf(old(View()), tape)) ==>
        var es := Entries(FileOf(old(View()), tape)); Entries(files[tape]) == es + [e.(id := |es| + 1)]
    {
      hide Entries;
      var id;
      if tape in nextId {
        id := nextId[tape];
      } else {
        var entries := Load(tape);
        id := |entries| + 1;
      }
      if Valid() {
        AppendExactIff(View(), tape, e);
      }
      var f := if tape in files then files[tape] else NoFile;
      var line := if f.last.Blank? then Holds(e.(id := id)) else NotJson;
      files := files[tape := File(f.lines + [line], Blank)];
      nextId := nextId[tape := id + 1];
    }

    method Load(tape: string) returns (out: seq<Entry>)
      ensures out == Entries(FileOf(View(), tape))
    {
      hide EntriesOf;
      NothingRead(1);
      if tape !in files {
        return [];
      }
      var lines := files[tape].lines + [files[tape].last];
      out := [];
      Prefixes(lines, 0);
      for i := 0 to |lines|
        invariant out == EntriesOf(lines[..i])
      {
        Prefixes(lines, i);
        EntriesAppend(lines[..i], lines[i]);
        match lines[i] {
          case Holds(e) => out := out + [e];
          case _ =>
        }
      }
    }

    /** The streaming tail: a window of at most `n` entries slid over the file. */
    method Tail(tape: string, n: int) returns (window: seq<Entry>)
      ensures window == if n <= 0 then [] else LastN(Entries(FileOf(View(), tape)), n)
    {
      hide EntriesOf, LastN;
      NothingRead(n);
      if n <= 0 || tape !in files {
        return [];
      }
      var lines := files[tape].lines + [files[tape].last];
      window := [];
      Prefixes(lines, 0);
      for i := 0 to |lines|
        invariant window == LastN(EntriesOf(lines[..i]), n)
      {
        Prefixes(lines, i);
        EntriesAppend(lines[..i], lines[i]);
        match lines[i] {
          case Holds(e) =>
            LastNAppend(EntriesOf(lines[..i]), e, n);
            window := window + [e];
            if |window| > n {
              window := window[1..];
            }
          case _ =>
        }
      }
    }
  }

  lemma NothingRead(n: int)
    ensures EntriesOf([]) == [] && Entries(NoFile) == [] && (n > 0 ==> LastN([], n) == [])
  {
    EntriesAppend([], Blank);
    assert [] + [Blank] == [Blank];
  }

  lemma LastNAppend(es: seq<Entry>, e: Entry, n: nat)
    requires n > 0
    ensures LastN(es + [e], n) == if |LastN(es, n)| < n then LastN(es, n) + [e] else (LastN(es, n) + [e])[1..]
  {
    if |es| > n {
      assert (es + [e])[|es| + 1 - n..] == (es[|es| - n..] + [e])[1..];
    }
  }
}
