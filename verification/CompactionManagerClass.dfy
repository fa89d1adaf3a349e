/** The manager as one object: its tables are updated in place, one method for each
    stretch of code between two awaits. */
module CompactionManagerClass {
  import opened Common
  import opened CompactionManager

  class Manager {
    const cap: nat
    /** The suspended handlers, by session. */
    var checking: set<string>
    /** Every background task ever created. */
    var chains: seq<Chain>
    var inflight: seq<(string, nat)>
    var attempts: map<string, nat>
    var disabled: seq<string>
    ghost var evicted: set<nat>
    ghost var failures: seq<string>

    ghost function View(): State reads this {
      State(cap, checking, chains, inflight, attempts, disabled, evicted, failures)
    }

    constructor (cap: nat)
      ensures View() == Init(cap)
    {
      this.cap := cap;
      checking, chains, inflight, attempts, disabled, evicted, failures := {}, [], [], map[], [], {}, [];
    }

    /** The handler up to its first await. */
    method OnEventUntilAwait(sid: string) returns (passes: bool)
      requires sid !in checking
      modifies this
      ensures passes == (sid != "kernel" && sid !in old(disabled) && !Tracked(old(inflight), sid))
      ensures View() == if sid == "kernel" then old(View()) else Apply(old(View()), Check(sid))
      ensures passes <==> sid in checking
    {
      if sid == "kernel" || sid in disabled || Tracked(inflight, sid) { return false; }
      checking := checking + {sid};
      passes := true;
    }

    /** Behind its awaits, or out of them by an error: `tokens` is the estimate of the
        session's tail if it could be read. */
    method OnEventAfterAwait(sid: string, tokens: Option<int>, threshold: int) returns (started: bool)
      requires sid in checking && cap > 0
      modifies this
      ensures started == (tokens.Some? && threshold > 0 && tokens.value >= threshold)
      ensures View() == Apply(old(View()), Start(sid, started))
    {
      checking := checking - {sid};
      started := false;
      if tokens.None? || threshold <= 0 || tokens.value < threshold { return; }
      if |inflight| >= cap {
        attempts := attempts - {inflight[0].0};
        evicted := evicted + {inflight[0].1};
        inflight := inflight[1..];
      }
      inflight := inflight + [(sid, |chains|)];
      chains := chains + [Chain(sid, Scheduled, 0, 0, false)];
      started := true;
    }

    /** The head of the retry loop, entered or re-entered. */
    method TryAgain(t: nat) returns (calling: bool)
      requires t < |chains| && (chains[t].phase.Scheduled? || chains[t].phase.Backoff?)
      modifies this
      ensures View() == Apply(old(View()), if old(chains)[t].phase.Scheduled? then Begin(t) else Retry(t))
      ensures calling == chains[t].phase.Trying?
      ensures |chains| == |old(chains)|
    {
      var c := chains[t];
      var attempt := if c.phase.Backoff? then c.attempt else if c.sid in attempts then attempts[c.sid] else 0;
      if attempt >= MAX_RETRIES {
        chains := chains[t := c.(phase := Over)];
        return false;
      }
      attempts := attempts[c.sid := attempt + 1];
      chains := chains[t := c.(phase := Trying, attempt := attempt + 1, tries := c.tries + 1)];
      calling := true;
    }

    /** The summariser's await is over. */
    method Tried(t: nat, ok: bool) returns (gaveUp: bool)
      requires t < |chains| && chains[t].phase.Trying?
      modifies this
      ensures View() == Apply(old(View()), if ok then Succeed(t) else Stumble(t))
      ensures gaveUp == (!ok && old(chains)[t].attempt >= MAX_RETRIES)
      ensures gaveUp ==> failures == old(failures) + [old(chains)[t].sid] && old(chains)[t].sid in disabled
    {
      var c := chains[t];
      gaveUp := false;
      if ok {
        attempts := attempts - {c.sid};
        chains := chains[t := c.(phase := Over)];
        return;
      }
      if c.attempt < MAX_RETRIES {
        chains := chains[t := c.(phase := Backoff)];
        return;
      }
      MarkDisabled(c.sid);
      chains := chains[t := c.(phase := Over, failed := true)];
      failures := failures + [c.sid];
      gaveUp := true;
    }

    method MarkDisabled(sid: string)
      modifies `disabled, `attempts
      ensures disabled == Disable(old(View()), sid) && attempts == old(attempts) - {sid}
      ensures sid in disabled
    {
      if sid !in disabled {
        if |disabled| >= cap && disabled != [] {
          disabled := disabled[1..];
        }
        disabled := disabled + [sid];
      }
      attempts := attempts - {sid};
    }

    /** The done-callback: whatever the record of this session says, it goes. */
    method Discard(t: nat)
      requires t < |chains| && chains[t].phase.Over?
      modifies this
      ensures View() == Apply(old(View()), Callback(t)) && |chains| == |old(chains)|
      ensures !Tracked(inflight, chains[t].sid)
    {
      var sid := chains[t].sid;
      UntrackFacts(inflight, sid);
      inflight := Untrack(inflight, sid);
      assert forall i | 0 <= i < |inflight| :: inflight[i] in inflight;
      chains := chains[t := chains[t].(phase := Settled)];
    }
  }
}
