/** The approval runtime as one object: its tables are updated in place, one method for
    each stretch of code between two awaits. */
module ApprovalClass {
  import opened Common
  import opened Approval

  function ListedIn(allowlist: map<string, set<(string, string)>>): set<Key> {
    set session, k | session in allowlist && k in allowlist[session] :: Key(session, k.0, k.1)
  }

  lemma ListedIff(allowlist: map<string, set<(string, string)>>, key: Key)
    ensures key in ListedIn(allowlist) <==>
      key.session in allowlist && (key.tool, key.fingerprint) in allowlist[key.session]
  {
    if key.session in allowlist && (key.tool, key.fingerprint) in allowlist[key.session] {
      assert key == Key(key.session, (key.tool, key.fingerprint).0, (key.tool, key.fingerprint).1);
    }
  }

  class ApprovalRuntime {
    var started: bool
    var pending: set<string>
    var allowlist: map<string, set<(string, string)>>
    /** The suspended `request` calls with their futures, by approval id. */
    var requests: map<string, Request>
    /** The suspended `stop` call. */
    var stopping: Stop
    ghost var events: seq<Event>

    ghost function Listed(): set<Key> reads this {
      ListedIn(allowlist)
    }

    ghost function View(): State reads this {
      State(started, pending, requests, Listed(), stopping, events)
    }

    ghost predicate Valid() reads this {
      Inv(View()) && PromptsExact(View())
    }

    constructor ()
      ensures Valid() && View() == Init
    {
      started, pending, allowlist, requests, stopping, events := false, {}, map[], map[], Idle, [];
    }

    method Start()
      requires Valid()
      modifies this
      ensures Valid() && View() == Apply(old(View()), Action.Start)
    {
      hide Inv, PromptsExact;
      Steps(View(), Action.Start);
      if started { return; }
      started := true;
    }

    /** Up to the first await: an outcome at once, or the prompt handed to the bus. */
    method Request(id: string, key: Key) returns (early: Option<Outcome>)
      requires Valid() && id !in requests
      modifies this
      ensures Valid() && View() == Apply(old(View()), Enter(id, key))
      ensures early == if Over(View(), id) then Some(OutcomeOf(View(), id)) else None
      ensures early.Some? ==> events == old(events)
    {
      hide Inv, PromptsExact;
      Steps(View(), Enter(id, key));
      if !started {
        requests := requests[id := Short(key, NotStarted)];
        return Some(NotStarted);
      }
      ListedIff(allowlist, key);
      if key.session in allowlist && (key.tool, key.fingerprint) in allowlist[key.session] {
        requests := requests[id := Short(key, Returned(ApproveForSession))];
        return Some(Returned(ApproveForSession));
      }
      pending := pending + {id};
      requests := requests[id := Publishing(key, Open)];
      events := events + [Asked(id)];
      early := None;
    }

    method PromptPublished(id: string)
      requires Valid() && Enabled(View(), Published(id))
      modifies this
      ensures Valid() && View() == Apply(old(View()), Published(id))
    {
      hide Inv, PromptsExact;
      Steps(View(), Published(id));
      requests := requests[id := Waiting(requests[id].key, requests[id].fut, false)];
    }

    /** The handler; `payloadId` is None when the payload carries no text id. */
    method OnApprovalResponse(payloadId: Option<string>, answer: Answer)
      requires Valid()
      modifies this
      ensures Valid()
      ensures View() == Apply(old(View()), if payloadId.Some? then Respond(payloadId.value, answer) else Malformed)
      ensures payloadId.Some? ==> payloadId.value !in pending
    {
      hide Inv, PromptsExact;
      Steps(View(), if payloadId.Some? then Respond(payloadId.value, answer) else Malformed);
      if payloadId.None? { return; }
      var id := payloadId.value;
      if id !in pending { return; }
      pending := pending - {id};
      if id !in requests || !Unresolved(requests[id]) { return; }
      var response := match answer { case Says(r) => r case Nonsense => Reject };
      requests := requests[id := WithFuture(requests[id], Answered(response))];
    }

    method Deadline(id: string)
      requires Valid() && Enabled(View(), Expire(id))
      modifies this
      ensures Valid() && View() == Apply(old(View()), Expire(id))
    {
      hide Inv, PromptsExact;
      Steps(View(), Expire(id));
      var r := requests[id];
      requests := requests[id := Waiting(r.key, if r.fut.Open? then Dropped else r.fut, true)];
    }

    /** The await of the future is over. */
    method WakeUp(id: string) returns (over: Option<Outcome>)
      requires Valid() && Enabled(View(), Resume(id))
      modifies this
      ensures Valid() && View() == Apply(old(View()), Resume(id))
      ensures over == if Over(View(), id) then Some(OutcomeOf(View(), id)) else None
      ensures over.None? ==> id !in pending
    {
      hide Inv, PromptsExact;
      Steps(View(), Resume(id));
      var r := requests[id];
      if r.expired {
        pending := pending - {id};
        requests := requests[id := Expiring(r.key)];
        events := events + [Withdrawn(id, Timeout)];
        return None;
      }
      if !r.fut.Answered? {
        requests := requests[id := Ended(r.key, Cancelled(Shutdown))];
        return Some(Cancelled(Shutdown));
      }
      if r.fut.r.ApproveForSession? {
        AllowOne(r.key);
      }
      requests := requests[id := Ended(r.key, Returned(r.fut.r))];
      over := Some(Returned(r.fut.r));
    }

    method AllowOne(key: Key)
      modifies `allowlist
      ensures Listed() == old(Listed()) + {key}
    {
      var mine := if key.session in allowlist then allowlist[key.session] else {};
      allowlist := allowlist[key.session := mine + {(key.tool, key.fingerprint)}];
      forall k: Key ensures k in Listed() <==> k in old(Listed()) || k == key {
        ListedIff(old(allowlist), k);
        ListedIff(allowlist, k);
      }
    }

    method CancellationPublished(id: string)
      requires Valid() && Enabled(View(), Raise(id))
      modifies this
      ensures Valid() && View() == Apply(old(View()), Raise(id))
    {
      hide Inv, PromptsExact;
      Steps(View(), Raise(id));
      requests := requests[id := Ended(requests[id].key, Cancelled(Timeout))];
    }

    method StopUntilAwait(order: seq<string>)
      requires Valid() && stopping.Idle? && Lists(order, pending)
      modifies this
      ensures Valid() && View() == Apply(old(View()), StopBegin(order))
    {
      hide Inv, PromptsExact;
      Steps(View(), StopBegin(order));
      if !started { return; }
      started := false;
      stopping := Stopping(order, false);
    }

    /** One round of the loop over the snapshot: publish, then settle the future. */
    method StopPublishNext()
      requires Valid() && Enabled(View(), StopPublish)
      modifies this
      ensures Valid() && View() == Apply(old(View()), StopPublish)
    {
      hide Inv, PromptsExact;
      Steps(View(), StopPublish);
      events := events + [Withdrawn(stopping.todo[0], Shutdown)];
      stopping := Stopping(stopping.todo, true);
    }

    method StopSettleNext()
      requires Valid() && Enabled(View(), StopSettle)
      modifies this
      ensures Valid() && View() == Apply(old(View()), StopSettle)
    {
      hide Inv, PromptsExact;
      Steps(View(), StopSettle);
      var id := stopping.todo[0];
      if id in requests && Unresolved(requests[id]) {
        requests := requests[id := WithFuture(requests[id], ShutDown)];
      }
      stopping := Stopping(stopping.todo[1..], false);
    }

    method StopClear()
      requires Valid() && Enabled(View(), StopEnd)
      modifies this
      ensures Valid() && View() == Apply(old(View()), StopEnd) && pending == {}
    {
      hide Inv, PromptsExact;
      Steps(View(), StopEnd);
      pending := {};
      stopping := Idle;
    }
  }

  lemma Steps(s: State, a: Action)
    requires Inv(s) && PromptsExact(s) && Enabled(s, a)
    ensures Inv(Apply(s, a)) && PromptsExact(Apply(s, a))
  {
    hide Inv, PromptsExact;
    StepKeepsInv(s, a);
    StepKeepsPrompts(s, a);
  }
}
