/** Who is subscribed: after any run, read off its `Subscribe` and `Remove` actions alone. */
module BusSubscribers {
  import opened Bus
  import opened BusSafety
  import opened BusProgress
  import opened BusTheorems

  /** How many subscriptions were made. */
  function Subscribes(acts: seq<Action>): nat {
    if acts == [] then 0 else (if acts[0].Subscribe? then 1 else 0) + Subscribes(acts[1..])
  }

  /** The action at `j` made this subscription, `first` having been made before all of them,
      and nothing behind it removed it. */
  predicate MadeAndKept(acts: seq<Action>, j: nat, first: nat, sub: Subscriber) {
    && j < |acts| && acts[j] == Subscribe(sub.kind, sub.source)
    && first + Subscribes(acts[..j]) == sub.id
    && Remove(sub) !in acts[j + 1..]
  }

  /** Subscribers stand in the table under their kind, in the order they came. */
  ghost predicate InOrder(s: State) {
    forall kind :: Ascending(s, kind)
  }

  predicate Ascending(s: State, kind: string) {
    var subs := Targets(s, kind);
    && (forall i | 0 <= i < |subs| :: subs[i].kind == kind && subs[i].id < s.subCount)
    && (forall i, j | 0 <= i < j < |subs| :: subs[i].id < subs[j].id)
  }

  lemma {:induction false} WithoutKeeps(subs: seq<Subscriber>, sub: Subscriber)
    requires forall i, j | 0 <= i < j < |subs| :: subs[i].id < subs[j].id
    ensures var left := Without(subs, sub);
      && (forall x :: x in left <==> x in subs && x != sub)
      && (forall i, j | 0 <= i < j < |left| :: left[i].id < left[j].id)
  {
    if subs != [] {
      WithoutKeeps(subs[1..], sub);
      assert forall x :: x in subs <==> x == subs[0] || x in subs[1..];
      assert subs[0] !in subs[1..];
      var rest := Without(subs[1..], sub);
      if subs[0] != sub {
        forall j | 0 <= j < |rest| ensures subs[0].id < rest[j].id {
          assert rest[j] in rest;
        }
      }
    }
  }

  lemma RemovedTargets(s: State, gone: Subscriber, kind: string)
    ensures Targets(RemoveSub(s, gone), kind) ==
      if kind == gone.kind && gone in Targets(s, kind) then Without(Targets(s, kind), gone) else Targets(s, kind)
    ensures RemoveSub(s, gone).subCount == s.subCount
  {
    hide Without;
  }

  lemma StillAscending(s: State, gone: Subscriber, kind: string)
    requires Ascending(s, kind)
    ensures Ascending(RemoveSub(s, gone), kind)
  {
    hide Without, RemoveSub;
    RemovedTargets(s, gone, kind);
    var subs, left := Targets(s, kind), Targets(RemoveSub(s, gone), kind);
    WithoutKeeps(subs, gone);
    forall i | 0 <= i < |left| ensures left[i] in subs {
      assert left[i] in left;
    }
  }

  lemma RemoveStep(s: State, gone: Subscriber, sub: Subscriber)
    requires InOrder(s)
    ensures InOrder(RemoveSub(s, gone))
    ensures sub in Targets(RemoveSub(s, gone), sub.kind) <==> sub in Targets(s, sub.kind) && sub != gone
  {
    hide Without, RemoveSub, Ascending, Targets;
    forall kind ensures Ascending(RemoveSub(s, gone), kind) {
      StillAscending(s, gone, kind);
    }
    RemovedTargets(s, gone, sub.kind);
    WithoutThis(s, gone, sub.kind);
  }

  lemma WithoutThis(s: State, gone: Subscriber, kind: string)
    requires Ascending(s, kind)
    ensures forall x :: x in Without(Targets(s, kind), gone) <==> x in Targets(s, kind) && x != gone
  {
    WithoutKeeps(Targets(s, kind), gone);
  }

  lemma SubscribeStep(s: State, kind: string, source: string, sub: Subscriber)
    requires InOrder(s) && Registered(s)
    ensures var t := Apply(s, Subscribe(kind, source));
      && InOrder(t)
      && (sub in Targets(t, sub.kind) <==>
            sub in Targets(s, sub.kind) || sub == Subscriber(s.subCount, kind, source))
  {
    hide Registered;
    var t := Apply(s, Subscribe(kind, source));
    forall k ensures Ascending(t, k) {
      assert Ascending(s, k);
    }
  }

  lemma PublishKeepsSubs(s: State, sid: string, kind: string)
    requires Registered(s)
    ensures Enqueue(s, sid, kind).subs == s.subs && Enqueue(s, sid, kind).subCount == s.subCount
  {
  }

  lemma ExitKeepsSubs(s: State, w: nat)
    requires w < |s.tasks|
    ensures Exit(s, w).subs == s.subs && Exit(s, w).subCount == s.subCount
  {
  }

  lemma PopKeepsSubs(s: State, w: nat)
    requires Enabled(s, Pop(w))
    ensures PopItem(s, w).subs == s.subs && PopItem(s, w).subCount == s.subCount
  {
    hide Targets, Exit;
    var k := s.tasks[w];
    ExitKeepsSubs(s.(tasks := s.tasks[w := k.(queue := k.queue[1..])]), w);
  }

  lemma FinishKeepsSubs(s: State, w: nat)
    requires Enabled(s, Finish(w))
    ensures FinishDelivery(s, w).subs == s.subs && FinishDelivery(s, w).subCount == s.subCount
  {
  }

  lemma FailKeepsSubs(s: State, w: nat)
    requires Inv(s) && Busy(s, w) && Registered(s)
    ensures CallFailed(s, w).subs == s.subs && CallFailed(s, w).subCount == s.subCount
  {
    hide Inv, Registered, Enqueue;
    CallDoneKeeps(s, w);
    InvRegistered(CallDone(s, w));
    PublishKeepsSubs(CallDone(s, w), KERNEL, PLUGIN_ERROR);
  }

  lemma OthersKeepSubs(s: State, a: Action)
    requires Inv(s) && Registered(s) && Enabled(s, a) && !a.Subscribe? && !a.Remove?
    ensures Apply(s, a).subs == s.subs && Apply(s, a).subCount == s.subCount
  {
    hide Inv, Registered, Enqueue, PopItem, FinishDelivery, CallFailed, WithToken;
    if a.Publish? { PublishKeepsSubs(s, a.sid, a.kind); }
    else if a.Pop? { PopKeepsSubs(s, a.w); }
    else if a.Finish? { FinishKeepsSubs(s, a.w); }
    else if a.HandlerFails? { FailKeepsSubs(s, a.w); }
  }

  lemma SubsStep(s: State, a: Action, sub: Subscriber)
    requires Inv(s) && InOrder(s) && Registered(s) && Enabled(s, a)
    ensures var t := Apply(s, a);
      && InOrder(t)
      && t.subCount == s.subCount + (if a.Subscribe? then 1 else 0)
      && (sub in Targets(t, sub.kind) <==>
            (sub in Targets(s, sub.kind) && a != Remove(sub))
            || (a == Subscribe(sub.kind, sub.source) && sub.id == s.subCount))
  {
    hide Inv, InOrder, Targets;
    if a.Subscribe? {
      SubscribeStep(s, a.kind, a.source, sub);
    } else if a.Remove? {
      RemoveStep(s, a.sub, sub);
      RemovedTargets(s, a.sub, sub.kind);
    } else {
      OthersKeepSubs(s, a);
      SameTargets(s, Apply(s, a), sub.kind);
    }
  }

  lemma SameTargets(s: State, t: State, kind: string)
    requires t.subs == s.subs && t.subCount == s.subCount
    ensures Targets(t, kind) == Targets(s, kind) && (InOrder(s) ==> InOrder(t))
  {
    if InOrder(s) {
      forall k ensures Ascending(t, k) {
        assert Ascending(s, k);
      }
    }
  }

  lemma LaterIsLater(acts: seq<Action>, j: nat, first: nat, sub: Subscriber)
    requires acts != []
    ensures var next := first + if acts[0].Subscribe? then 1 else 0;
      MadeAndKept(acts, j + 1, first, sub) <==> MadeAndKept(acts[1..], j, next, sub)
  {
    if j < |acts| - 1 {
      assert acts[..j + 1][0] == acts[0] && acts[..j + 1][1..] == acts[1..][..j];
      assert acts[1..][j + 1..] == acts[j + 2..];
    }
  }

  lemma FirstMade(acts: seq<Action>, first: nat, sub: Subscriber)
    requires acts != []
    ensures MadeAndKept(acts, 0, first, sub) <==>
      acts[0] == Subscribe(sub.kind, sub.source) && first == sub.id && Remove(sub) !in acts[1..]
  {
    assert acts[..0] == [];
  }

  ghost predicate Made(acts: seq<Action>, first: nat, sub: Subscriber) {
    exists j: nat :: MadeAndKept(acts, j, first, sub)
  }

  lemma MadeFirstOrLater(acts: seq<Action>, first: nat, sub: Subscriber)
    requires acts != []
    ensures var next := first + if acts[0].Subscribe? then 1 else 0;
      Made(acts, first, sub) <==> MadeAndKept(acts, 0, first, sub) || Made(acts[1..], next, sub)
  {
    hide MadeAndKept;
    var next := first + if acts[0].Subscribe? then 1 else 0;
    if j: nat :| MadeAndKept(acts, j, first, sub) {
      if j > 0 {
        LaterIsLater(acts, j - 1, first, sub);
      }
    }
    if j: nat :| MadeAndKept(acts[1..], j, next, sub) {
      LaterIsLater(acts, j, first, sub);
    }
  }

  lemma {:induction false} SubsRun(s: State, acts: seq<Action>, s': State, sub: Subscriber)
    requires Inv(s) && InOrder(s) && Run(s, acts, s')
    ensures InOrder(s')
    ensures sub in Targets(s', sub.kind) <==>
      (sub in Targets(s, sub.kind) && Remove(sub) !in acts) || Made(acts, s.subCount, sub)
    decreases |acts|
  {
    hide Inv, InOrder, Targets, Apply, Enabled, Registered, Made, MadeAndKept;
    if acts != [] {
      assert acts == [acts[0]] + acts[1..];
      StepKeepsInv(s, acts[0]);
      SubsStep(s, acts[0], sub);
      SubsRun(Apply(s, acts[0]), acts[1..], s', sub);
      MadeFirstOrLater(acts, s.subCount, sub);
      FirstMade(acts, s.subCount, sub);
    } else {
      NothingMade(s.subCount, sub);
    }
  }

  lemma NothingMade(first: nat, sub: Subscriber)
    ensures !Made([], first, sub)
  {
  }

  /** Over every run, from its actions alone: a subscriber is served exactly if the run's
      subscription of that number was to this kind and by this source and nobody has removed
      it since; those of one kind are served in the order they subscribed, none twice. */
  lemma SubscribedIff(acts: seq<Action>, s: State, kind: string, sub: Subscriber)
    requires Run(Init, acts, s)
    ensures sub in Targets(s, kind) <==> sub.kind == kind && exists j: nat :: MadeAndKept(acts, j, 0, sub)
    ensures forall i, j | 0 <= i < j < |Targets(s, kind)| :: Targets(s, kind)[i].id < Targets(s, kind)[j].id
  {
    hide Inv, Run, Targets, InOrder;
    InitInv();
    NobodyYet();
    SubsRun(Init, acts, s, sub);
    KindsMatch(s, kind, sub);
  }

  lemma NobodyYet()
    ensures InOrder(Init) && forall kind :: Targets(Init, kind) == []
    ensures Init.subCount == 0
  {
  }

  lemma KindsMatch(s: State, kind: string, sub: Subscriber)
    requires InOrder(s)
    ensures sub in Targets(s, kind) ==> sub.kind == kind
    ensures forall i, j | 0 <= i < j < |Targets(s, kind)| :: Targets(s, kind)[i].id < Targets(s, kind)[j].id
  {
    assert Ascending(s, kind);
  }
}
