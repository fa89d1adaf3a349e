/** The event bus as a machine of atomic steps, one step for each stretch of code
    between two suspension points: accepting a publish, popping an envelope,
    one handler returning or failing, finishing a delivery, the two halves of
    `close`, and a publisher waking up. */
module Bus {

  datatype Subscriber = Subscriber(id: nat, kind: string, source: string)

  /** `id` stands for the identity of the envelope and of its completion future. */
  datatype Envelope = Envelope(id: nat, sid: string, kind: string)

  datatype Item = Mail(env: Envelope) | CloseToken

  /** One envelope being fanned out: the snapshot of its subscribers and those
      among them whose handler has already run, in call order. */
  datatype Delivery = Delivery(env: Envelope, targets: seq<Subscriber>, called: seq<Subscriber>)

  datatype Phase = Idle | Delivering(d: Delivery) | Exited

  /** A drain worker with the queue it was created for. */
  datatype Worker = Worker(sid: string, queue: seq<Item>, phase: Phase)

  /** Who publishes: a task outside every worker, the handler a worker is
      running, or a task a handler spawned, which inherits the worker flag. */
  datatype Publisher = Outside(task: nat) | Handler(w: nat) | Spawned

  datatype State = State(
    subs: map<string, seq<Subscriber>>,
    subCount: nat,
    queues: map<string, nat>,
    workers: map<string, nat>,
    closed: bool,
    tasks: seq<Worker>,
    accepted: seq<Envelope>,
    delivered: seq<Delivery>,
    resolved: set<nat>,
    waiting: map<nat, nat>,
    closing: map<nat, set<nat>>
  )

  const Init := State(map[], 0, map[], map[], false, [], [], [], {}, map[], map[])

  datatype Action =
    | Subscribe(kind: string, source: string)
    | Remove(sub: Subscriber)
    | Publish(who: Publisher, sid: string, kind: string)
    | Pop(w: nat)
    | HandlerReturns(w: nat)
    | HandlerFails(w: nat)
    | Finish(w: nat)
    | Resume(task: nat)
    | CloseBegin(task: nat)
    | CloseEnd(task: nat)

  const KERNEL := "kernel"
  const PLUGIN_ERROR := "plugin.error"

  // -- transition functions -----------------------------------------------------

  function Targets(s: State, kind: string): seq<Subscriber> {
    if kind in s.subs then s.subs[kind] else []
  }

  /** `list.remove`: the first entry that is `sub` itself. */
  function Without(subs: seq<Subscriber>, sub: Subscriber): seq<Subscriber> {
    if subs == [] then []
    else if subs[0] == sub then subs[1..]
    else [subs[0]] + Without(subs[1..], sub)
  }

  function RemoveSub(s: State, sub: Subscriber): State {
    if sub.kind !in s.subs || sub !in s.subs[sub.kind] then s
    else
      var left := Without(s.subs[sub.kind], sub);
      s.(subs := if left == [] then s.subs - {sub.kind} else s.subs[sub.kind := left])
  }

  function EnsureWorker(s: State, sid: string): State {
    if sid in s.queues then s
    else
      var t := |s.tasks|;
      s.(queues := s.queues[sid := t], workers := s.workers[sid := t],
         tasks := s.tasks + [Worker(sid, [], Idle)])
  }

  function Enqueue(s: State, sid: string, kind: string): State
    requires Registered(s)
  {
    var m := EnsureWorker(s, sid);
    var t, env := m.queues[sid], Envelope(|s.accepted|, sid, kind);
    m.(tasks := m.tasks[t := m.tasks[t].(queue := m.tasks[t].queue + [Mail(env)])],
       accepted := s.accepted + [env])
  }

  function Accept(s: State, who: Publisher, sid: string, kind: string): State
    requires Registered(s)
  {
    if s.closed then s
    else if who.Outside? then Enqueue(s, sid, kind).(waiting := s.waiting[who.task := |s.accepted|])
    else Enqueue(s, sid, kind)
  }

  /** The worker's `finally`: release the session if it is still this worker's. */
  function Exit(s: State, w: nat): State
    requires w < |s.tasks|
  {
    var sid := s.tasks[w].sid;
    var t := s.(tasks := s.tasks[w := s.tasks[w].(phase := Exited)]);
    if sid in s.queues && s.queues[sid] == w
    then t.(queues := s.queues - {sid}, workers := s.workers - {sid})
    else t
  }

  function PopItem(s: State, w: nat): State
    requires w < |s.tasks| && s.tasks[w].queue != []
  {
    var k := s.tasks[w];
    var t := s.(tasks := s.tasks[w := k.(queue := k.queue[1..])]);
    match k.queue[0]
    case CloseToken => Exit(t, w)
    case Mail(env) =>
      t.(tasks := t.tasks[w := t.tasks[w].(phase := Delivering(Delivery(env, Targets(s, env.kind), [])))])
  }

  predicate Busy(s: State, w: nat) {
    w < |s.tasks| && s.tasks[w].phase.Delivering? && |Current(s, w).called| < |Current(s, w).targets|
  }

  function Current(s: State, w: nat): Delivery
    requires w < |s.tasks| && s.tasks[w].phase.Delivering?
  {
    s.tasks[w].phase.d
  }

  /** The subscriber whose handler worker `w` is running. */
  function Running(s: State, w: nat): Subscriber
    requires Busy(s, w)
  {
    Current(s, w).targets[|Current(s, w).called|]
  }

  function CallDone(s: State, w: nat): State
    requires Busy(s, w)
  {
    var d := Current(s, w);
    s.(tasks := s.tasks[w := s.tasks[w].(phase := Delivering(d.(called := d.called + [Running(s, w)])))])
  }

  /** A failing handler is reported on the kernel session, unless the handler is
      the kernel's own or the bus is closed. */
  function CallFailed(s: State, w: nat): State
    requires Registered(s) && Busy(s, w)
  {
    if Running(s, w).source == KERNEL || s.closed then CallDone(s, w)
    else Enqueue(CallDone(s, w), KERNEL, PLUGIN_ERROR)
  }

  function FinishDelivery(s: State, w: nat): State
    requires w < |s.tasks| && s.tasks[w].phase.Delivering?
  {
    var d := Current(s, w);
    var t := s.(tasks := s.tasks[w := s.tasks[w].(phase := Idle)],
                delivered := s.delivered + [d], resolved := s.resolved + {d.env.id});
    if s.tasks[w].queue == [] then Exit(t, w) else t
  }

  function WithToken(s: State, i: nat): Worker
    requires i < |s.tasks|
  {
    var k := s.tasks[i];
    if k.sid in s.queues && s.queues[k.sid] == i then k.(queue := k.queue + [CloseToken]) else k
  }

  function BeginClose(s: State, task: nat): State {
    if s.closed && s.workers == map[] then s
    else s.(closed := true,
            tasks := seq(|s.tasks|, i requires 0 <= i < |s.tasks| => WithToken(s, i)),
            closing := s.closing[task := s.workers.Values])
  }

  function EndClose(s: State, task: nat): State {
    s.(queues := map[], workers := map[], closing := s.closing - {task})
  }

  predicate Enabled(s: State, a: Action) {
    match a
    case Subscribe(_, _) => true
    case Remove(_) => true
    case Publish(who, _, _) =>
      (match who
       case Outside(t) => t !in s.waiting && t !in s.closing
       case Handler(w) => Busy(s, w)
       case Spawned => true)
    case Pop(w) => w < |s.tasks| && s.tasks[w].phase.Idle? && s.tasks[w].queue != []
    case HandlerReturns(w) => Busy(s, w)
    case HandlerFails(w) => Busy(s, w)
    case Finish(w) => w < |s.tasks| && s.tasks[w].phase.Delivering? && !Busy(s, w)
    case Resume(t) => t in s.waiting && s.waiting[t] in s.resolved
    case CloseBegin(t) => t !in s.waiting && t !in s.closing
    case CloseEnd(t) => t in s.closing && forall w | w in s.closing[t] && w < |s.tasks| :: s.tasks[w].phase.Exited?
  }

  function Apply(s: State, a: Action): State
    requires Registered(s) && Enabled(s, a)
  {
    match a
    case Subscribe(kind, source) =>
      s.(subs := s.subs[kind := Targets(s, kind) + [Subscriber(s.subCount, kind, source)]],
         subCount := s.subCount + 1)
    case Remove(sub) => RemoveSub(s, sub)
    case Publish(who, sid, kind) => Accept(s, who, sid, kind)
    case Pop(w) => PopItem(s, w)
    case HandlerReturns(w) => CallDone(s, w)
    case HandlerFails(w) => CallFailed(s, w)
    case Finish(w) => FinishDelivery(s, w)
    case Resume(t) => s.(waiting := s.waiting - {t})
    case CloseBegin(t) => BeginClose(s, t)
    case CloseEnd(t) => EndClose(s, t)
  }

  // -- what every reachable state satisfies ---------------------------------------

  /** The two dictionaries agree and point to live workers of their session. */
  predicate Registered(s: State) {
    && s.queues == s.workers
    && forall sid | sid in s.queues ::
         var t := s.queues[sid];
         t < |s.tasks| && s.tasks[t].sid == sid && !s.tasks[t].phase.Exited?
  }

  /** Every live worker is the registered one of its session: there is at most one. */
  ghost predicate OneWorker(s: State) {
    forall t | 0 <= t < |s.tasks| && !s.tasks[t].phase.Exited? ::
      s.tasks[t].sid in s.queues && s.queues[s.tasks[t].sid] == t
  }

  predicate TokensLast(q: seq<Item>) {
    forall i, j | 0 <= i < j < |q| && q[i].CloseToken? :: q[j].CloseToken?
  }

  function Mails(q: seq<Item>): seq<Envelope> {
    if q == [] then []
    else if q[0].Mail? then [q[0].env] + Mails(q[1..])
    else Mails(q[1..])
  }

  predicate WellDelivered(d: Delivery) {
    d.called <= d.targets
  }

  ghost predicate WorkerOk(closed: bool, k: Worker) {
    && TokensLast(k.queue)
    && (forall i | 0 <= i < |k.queue| && k.queue[i].Mail? :: k.queue[i].env.sid == k.sid)
    && (k.phase.Exited? ==> Mails(k.queue) == [])
    && (k.phase.Idle? ==> k.queue != [])
    && (k.phase.Delivering? ==> k.phase.d.env.sid == k.sid && WellDelivered(k.phase.d))
    && (if closed
        then k.phase.Exited? || (k.queue != [] && k.queue[|k.queue| - 1].CloseToken?)
        else forall i | 0 <= i < |k.queue| :: k.queue[i].Mail?)
  }

  /** The envelopes of one session, in order. */
  function Of(es: seq<Envelope>, sid: string): seq<Envelope> {
    if es == [] then []
    else if es[|es| - 1].sid == sid then Of(es[..|es| - 1], sid) + [es[|es| - 1]]
    else Of(es[..|es| - 1], sid)
  }

  function Envelopes(ds: seq<Delivery>): (es: seq<Envelope>)
    ensures |es| == |ds| && forall i | 0 <= i < |ds| :: es[i] == ds[i].env
  {
    seq(|ds|, i requires 0 <= i < |ds| => ds[i].env)
  }

  /** What a worker still owes: the envelope in progress, then its queue. */
  function Held(k: Worker): seq<Envelope> {
    (if k.phase.Delivering? then [k.phase.d.env] else []) + Mails(k.queue)
  }

  function Pending(s: State, sid: string): seq<Envelope>
    requires Registered(s)
  {
    if sid in s.queues then Held(s.tasks[s.queues[sid]]) else []
  }

  /** Accepted = delivered, then in progress, then queued, in publish order. */
  ghost predicate Fifo(s: State)
    requires Registered(s)
  {
    forall sid :: Of(s.accepted, sid) == Of(Envelopes(s.delivered), sid) + Pending(s, sid)
  }

  ghost predicate History(s: State) {
    && (forall i | 0 <= i < |s.accepted| :: s.accepted[i].id == i)
    && s.resolved == (set i | 0 <= i < |s.delivered| :: s.delivered[i].env.id)
    && (forall i | 0 <= i < |s.delivered| :: s.delivered[i].called == s.delivered[i].targets)
    && (forall t | t in s.waiting :: s.waiting[t] < |s.accepted|)
  }

  /** Every caller of `close` gathers every worker that is still alive. */
  ghost predicate Closers(s: State) {
    && (s.closing != map[] ==> s.closed)
    && (forall c, t | c in s.closing && 0 <= t < |s.tasks| && !s.tasks[t].phase.Exited? :: t in s.closing[c])
  }

  ghost predicate Inv(s: State) {
    && Registered(s) && OneWorker(s)
    && (forall t | 0 <= t < |s.tasks| :: WorkerOk(s.closed, s.tasks[t]))
    && Fifo(s) && History(s) && Closers(s)
  }

  /** `s'` is reached from `s` by the actions `acts`, whatever their interleaving. */
  ghost predicate Run(s: State, acts: seq<Action>, s': State)
    decreases |acts|
  {
    if acts == [] then s' == s
    else Registered(s) && Enabled(s, acts[0]) && Run(Apply(s, acts[0]), acts[1..], s')
  }
}
