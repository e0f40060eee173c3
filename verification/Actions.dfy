/**
 The durable life of an action: claimed in the journal, announced, queued per channel,
 checked again, dispatched, finished. Each step below is one stretch of bridge code
 between two awaits; a journal transaction is one step. Any task may be cancelled at
 any await, and the process may restart at any point.
 */
module Actions {
  import opened Common

  type Uuid = string
  type Channel = string

  // ----- State -----

  /** A validated topic. `serial` tells two activations with equal text apart. */
  datatype Activation = Activation(serial: nat, account: string, backend: string)

  datatype Runtime = Runtime(identity: nat, backend: string, activation: Option<Activation>)

  /** Why a row failed. Every reason but `HandlerError` says the action never ran. */
  datatype Reason = ChannelChanged | Suspended | ChannelRemoved | BridgeClosed | HandlerError

  datatype Status = Accepted | Succeeded | Failed(reason: Reason) | Uncertain(restarted: bool)

  /** What ingress captured; `claimed` holds for mutations, which own a journal row. */
  datatype Descriptor = Descriptor(id: Uuid, claimed: bool, channel: Channel, identity: nat, activation: Activation)

  /** Everything ever put on a queue, and how much of it has been taken. */
  datatype Queue = Queue(items: seq<Descriptor>, taken: nat)

  datatype WorkerState =
    | Idle
    | Refusing(d: Descriptor)
    | Running(d: Descriptor)
    | Settling(d: Descriptor, status: Status)

  datatype Task =
    | Claiming(d: Descriptor)
    | Announcing(d: Descriptor)
    | Rejecting(d: Descriptor)
    | Worker(queue: nat, state: WorkerState)
    | Draining(queue: nat, reason: Reason, removes: Option<Channel>, current: Option<Descriptor>)

  /** One handler call, with the runtime registered under its channel at that moment. */
  datatype Dispatch = Dispatch(d: Descriptor, runtime: Runtime, closed: bool)

  /** The journal, and the record of what became of its rows. */
  datatype Books = Books(
    journal: map<Uuid, Status>,
    dispatched: multiset<Uuid>,      // handler calls per mutation
    settled: multiset<Uuid>,         // terminal writes per mutation since the last restart
    abandoned: set<Uuid>,            // rows whose holder was cancelled since the last restart
    forgotten: set<Uuid>             // rows the retention sweep deleted
  )

  /** Every descriptor ingress made, and every handler call. */
  datatype Trace = Trace(captured: set<Descriptor>, log: seq<Dispatch>)

  datatype State = State(
    books: Books,
    channels: map<Channel, Runtime>,
    queues: map<nat, Queue>,
    tasks: map<nat, Task>,
    closed: bool,
    nextObject: nat,
    trace: Trace
  )

  const INITIAL: State :=
    State(Books(map[], multiset{}, multiset{}, {}, {}), map[], map[], map[], false, 0, Trace({}, []))

  /** A channel topic as parsed: no marker, a broken one, or one naming an owner, an agent and a backend. */
  datatype Topic = Unmarked | Malformed | Marked(account: string, agent: string, backend: string)

  /** The accounts this bridge is configured for. */
  datatype Config = Config(owner: string, agent: string)

  // ----- Steps -----

  datatype Step =
    | Install(channel: Channel, backend: string)
    | SetTopic(channel: Channel, topic: Topic, task: nat)
    | Deactivate(channel: Channel)
    | Ingress(task: nat, channel: Channel, id: Uuid, tracked: bool)
    | Claim(task: nat)
    | Enqueue(task: nat)
    | Reject(task: nat)
    | StartWorker(task: nat, channel: Channel)
    | Take(task: nat)
    | Refuse(task: nat)
    | HandlerEnds(task: nat, outcome: Status)
    | Settle(task: nat)
    | StartRemoval(task: nat, channel: Channel)
    | Close
    | StartClosing(task: nat, channel: Channel)
    | DrainNext(task: nat)
    | DrainWrite(task: nat)
    | Cancel(task: nat)
    | Restart(expired: set<Uuid>)

  /** The check made before queueing and again before dispatch. */
  predicate Current(c: Config, s: State, d: Descriptor) {
    && !s.closed
    && d.channel in s.channels
    && s.channels[d.channel].identity == d.identity
    && s.channels[d.channel].activation == Some(d.activation)
    && d.activation.account == c.owner
    && d.activation.backend == s.channels[d.channel].backend
  }

  function Put(q: Queue, d: Descriptor): Queue {
    q.(items := q.items + [d])
  }

  /** The unconditional UPDATE of one row. */
  function Finish(s: State, id: Uuid, status: Status): State {
    s.(books := s.books.(journal := if id in s.books.journal then s.books.journal[id := status] else s.books.journal,
                         settled := s.books.settled + multiset{id}))
  }

  function DoInstall(s: State, channel: Channel, backend: string): State {
    if channel in s.channels then s
    else s.(channels := s.channels[channel := Runtime(s.nextObject, backend, None)],
            queues := s.queues[s.nextObject := Queue([], 0)],
            nextObject := s.nextObject + 1)
  }

  /** The runtime with its activation cleared or replaced. */
  function SetActivation(s: State, channel: Channel, activation: Option<Activation>): State
    requires channel in s.channels
  {
    s.(channels := s.channels[channel := s.channels[channel].(activation := activation)])
  }

  predicate Valid(c: Config, topic: Topic, runtime: Runtime) {
    topic.Marked? && topic.account == c.owner && topic.agent == c.agent && topic.backend == runtime.backend
  }

  /** A topic suspends the channel until the whole marker validates; a lost marker drains the queue. */
  function DoSetTopic(c: Config, s: State, channel: Channel, topic: Topic, task: nat): State {
    if channel !in s.channels || task in s.tasks then s
    else
      var runtime := s.channels[channel];
      if Valid(c, topic, runtime) then
        SetActivation(s, channel, Some(Activation(s.nextObject, topic.account, topic.backend)))
          .(nextObject := s.nextObject + 1)
      else
        var silent := SetActivation(s, channel, None);
        if topic.Unmarked? && runtime.activation.None? then silent
        else silent.(tasks := s.tasks[task := Draining(runtime.identity, Suspended, None, None)])
  }

  function DoIngress(c: Config, s: State, task: nat, channel: Channel, id: Uuid, tracked: bool): State {
    if task in s.tasks || s.closed || channel !in s.channels || s.channels[channel].activation.None? then s
    else
      var runtime := s.channels[channel];
      var d := Descriptor(id, tracked, channel, runtime.identity, runtime.activation.value);
      var s' := s.(trace := s.trace.(captured := s.trace.captured + {d}));
      if tracked then s'.(tasks := s.tasks[task := Claiming(d)])
      else if Current(c, s, d) && runtime.identity in s.queues then
        s'.(queues := s.queues[runtime.identity := Put(s.queues[runtime.identity], d)])
      else s'
  }

  function DoClaim(s: State, task: nat): State {
    if task !in s.tasks || !s.tasks[task].Claiming? then s
    else
      var d := s.tasks[task].d;
      if d.id in s.books.journal then s.(tasks := s.tasks - {task})
      else s.(books := s.books.(journal := s.books.journal[d.id := Accepted]), tasks := s.tasks[task := Announcing(d)])
  }

  function DoEnqueue(c: Config, s: State, task: nat): State {
    if task !in s.tasks || !s.tasks[task].Announcing? then s
    else
      var d := s.tasks[task].d;
      if Current(c, s, d) && d.identity in s.queues then
        s.(tasks := s.tasks - {task}, queues := s.queues[d.identity := Put(s.queues[d.identity], d)])
      else s.(tasks := s.tasks[task := Rejecting(d)])
  }

  function DoReject(s: State, task: nat): State {
    if task !in s.tasks || !s.tasks[task].Rejecting? then s
    else Finish(s.(tasks := s.tasks - {task}), s.tasks[task].d.id, Failed(ChannelChanged))
  }

  /** Some worker serves this queue. */
  predicate Served(s: State, q: nat) {
    exists t :: t in s.tasks && s.tasks[t].Worker? && s.tasks[t].queue == q
  }

  /** A channel that has its worker gets no other. */
  function DoStartWorker(s: State, task: nat, channel: Channel): State {
    if task in s.tasks || channel !in s.channels || Served(s, s.channels[channel].identity) then s
    else s.(tasks := s.tasks[task := Worker(s.channels[channel].identity, Idle)])
  }

  predicate Waiting(s: State, q: nat) {
    q in s.queues && s.queues[q].taken < |s.queues[q].items|
  }

  function Head(s: State, q: nat): Descriptor
    requires Waiting(s, q)
  {
    s.queues[q].items[s.queues[q].taken]
  }

  function Pop(s: State, q: nat): State
    requires Waiting(s, q)
  {
    s.(queues := s.queues[q := s.queues[q].(taken := s.queues[q].taken + 1)])
  }

  function DoTake(c: Config, s: State, task: nat): State {
    if task !in s.tasks || !s.tasks[task].Worker? || !s.tasks[task].state.Idle? then s
    else if !Waiting(s, s.tasks[task].queue) then s
    else
      var q := s.tasks[task].queue;
      var d := Head(s, q);
      var s' := Pop(s, q);
      if Current(c, s, d) then
        s'.(tasks := s.tasks[task := Worker(q, Running(d))],
            trace := s.trace.(log := s.trace.log + [Dispatch(d, s.channels[d.channel], s.closed)]),
            books := s.books.(dispatched :=
              s.books.dispatched + if d.claimed then multiset{d.id} else multiset{}))
      else if d.claimed then s'.(tasks := s.tasks[task := Worker(q, Refusing(d))])
      else s'
  }

  function DoRefuse(s: State, task: nat): State {
    if task !in s.tasks || !s.tasks[task].Worker? || !s.tasks[task].state.Refusing? then s
    else
      var q := s.tasks[task].queue;
      Finish(s.(tasks := s.tasks[task := Worker(q, Idle)]), s.tasks[task].state.d.id, Failed(Suspended))
  }

  /** A handler returns, raises a known error, or raises anything else. */
  predicate IsOutcome(status: Status) {
    status == Succeeded || status == Failed(HandlerError) || status == Uncertain(false)
  }

  function DoHandlerEnds(s: State, task: nat, outcome: Status): State {
    if task !in s.tasks || !s.tasks[task].Worker? || !s.tasks[task].state.Running? || !IsOutcome(outcome) then s
    else
      var q, d := s.tasks[task].queue, s.tasks[task].state.d;
      s.(tasks := s.tasks[task := Worker(q, if d.claimed then Settling(d, outcome) else Idle)])
  }

  function DoSettle(s: State, task: nat): State {
    if task !in s.tasks || !s.tasks[task].Worker? || !s.tasks[task].state.Settling? then s
    else
      var q := s.tasks[task].queue;
      Finish(s.(tasks := s.tasks[task := Worker(q, Idle)]), s.tasks[task].state.d.id, s.tasks[task].state.status)
  }

  function DoStartDrain(s: State, task: nat, channel: Channel, reason: Reason, removes: Option<Channel>): State {
    if task in s.tasks || channel !in s.channels then s
    else s.(tasks := s.tasks[task := Draining(s.channels[channel].identity, reason, removes, None)])
  }

  /** The drain takes the next descriptor, or ends; a removal then forgets the channel in the same stretch. */
  function DoDrainNext(s: State, task: nat): State {
    if task !in s.tasks || !s.tasks[task].Draining? || s.tasks[task].current.Some? then s
    else
      var q := s.tasks[task].queue;
      if Waiting(s, q) then
        var d := Head(s, q);
        var s' := Pop(s, q);
        if d.claimed then s'.(tasks := s.tasks[task := s.tasks[task].(current := Some(d))]) else s'
      else
        var s' := s.(tasks := s.tasks - {task});
        if s.tasks[task].removes.Some? then s'.(channels := s.channels - {s.tasks[task].removes.value}) else s'
  }

  function DoDrainWrite(s: State, task: nat): State {
    if task !in s.tasks || !s.tasks[task].Draining? || s.tasks[task].current.None? then s
    else
      Finish(s.(tasks := s.tasks[task := s.tasks[task].(current := None)]),
             s.tasks[task].current.value.id, Failed(s.tasks[task].reason))
  }

  function DoCancel(s: State, task: nat): State {
    if task !in s.tasks then s
    else
      s.(tasks := s.tasks - {task},
         books := s.books.(abandoned :=
           s.books.abandoned + if Holding(s.tasks[task]).Some? then {Holding(s.tasks[task]).value} else {}))
  }

  /** The journal outlives the process: leftover accepted rows become uncertain, then old rows are deleted. */
  function DoRestart(s: State, expired: set<Uuid>): State {
    s.(books := Books(
         (map id | id in s.books.journal ::
            if s.books.journal[id].Accepted? then Uncertain(true) else s.books.journal[id]) - expired,
         s.books.dispatched, multiset{}, {}, s.books.forgotten + expired),
       channels := map[], queues := map[], tasks := map[], closed := false)
  }

  /** A step that is not enabled changes nothing. */
  function Do(c: Config, s: State, step: Step): State {
    match step
    case Install(channel, backend) => DoInstall(s, channel, backend)
    case SetTopic(channel, topic, task) => DoSetTopic(c, s, channel, topic, task)
    case Deactivate(channel) => if channel in s.channels then SetActivation(s, channel, None) else s
    case Ingress(task, channel, id, tracked) => DoIngress(c, s, task, channel, id, tracked)
    case Claim(task) => DoClaim(s, task)
    case Enqueue(task) => DoEnqueue(c, s, task)
    case Reject(task) => DoReject(s, task)
    case StartWorker(task, channel) => DoStartWorker(s, task, channel)
    case Take(task) => DoTake(c, s, task)
    case Refuse(task) => DoRefuse(s, task)
    case HandlerEnds(task, outcome) => DoHandlerEnds(s, task, outcome)
    case Settle(task) => DoSettle(s, task)
    case StartRemoval(task, channel) => DoStartDrain(s, task, channel, ChannelRemoved, Some(channel))
    case Close => s.(closed := true)
    case StartClosing(task, channel) => if s.closed then DoStartDrain(s, task, channel, BridgeClosed, None) else s
    case DrainNext(task) => DoDrainNext(s, task)
    case DrainWrite(task) => DoDrainWrite(s, task)
    case Cancel(task) => DoCancel(s, task)
    case Restart(expired) => DoRestart(s, expired)
  }

  function Run(c: Config, s: State, steps: seq<Step>): State {
    if steps == [] then s else Do(c, Run(c, s, steps[..|steps| - 1]), steps[|steps| - 1])
  }

  // ----- Who holds a claimed row -----

  datatype Holder = InTask(task: nat) | InSlot(queue: nat, index: nat)

  /** The claimed row a task is responsible for. */
  function Holding(t: Task): Option<Uuid> {
    match t
    case Claiming(_) => None
    case Announcing(d) => Some(d.id)
    case Rejecting(d) => Some(d.id)
    case Worker(_, Idle) => None
    case Worker(_, Refusing(d)) => Some(d.id)
    case Worker(_, Running(d)) => if d.claimed then Some(d.id) else None
    case Worker(_, Settling(d, _)) => Some(d.id)
    case Draining(_, _, _, current) => if current.Some? then Some(current.value.id) else None
  }

  ghost function Held(s: State, h: Holder): Option<Uuid> {
    match h
    case InTask(t) => if t in s.tasks then Holding(s.tasks[t]) else None
    case InSlot(q, i) =>
      if q in s.queues && s.queues[q].taken <= i < |s.queues[q].items| && s.queues[q].items[i].claimed
      then Some(s.queues[q].items[i].id) else None
  }

  /** A task whose row has reached a handler. */
  predicate Started(t: Task) {
    t.Worker? && (t.state.Running? || t.state.Settling?)
  }

  /** Each accepted row has exactly one holder, or was abandoned; nothing else is held. */
  ghost predicate Custody(s: State) {
    && (forall h1, h2 :: Held(s, h1).Some? && Held(s, h1) == Held(s, h2) ==> h1 == h2)
    && (forall h :: Held(s, h).Some? ==>
          && Held(s, h).value in s.books.journal && s.books.journal[Held(s, h).value].Accepted?
          && Held(s, h).value !in s.books.abandoned)
    && (forall id :: id in s.books.journal && s.books.journal[id].Accepted? && id !in s.books.abandoned ==>
          exists h :: Held(s, h) == Some(id))
    && (forall id :: id in s.books.abandoned ==> id in s.books.journal && s.books.journal[id].Accepted?)
  }

  /** Whether a holder's row has reached a handler. */
  ghost predicate Begun(s: State, h: Holder) {
    h.InTask? && h.task in s.tasks && Started(s.tasks[h.task])
  }

  /** Outside the forgotten rows, a row is dispatched at most once, by its present holder or by a past one. */
  ghost predicate Dispatching(s: State) {
    && (forall id :: id !in s.books.forgotten ==> s.books.dispatched[id] <= 1)
    && (forall id :: id in s.books.dispatched ==> id in s.books.journal || id in s.books.forgotten)
    && (forall h :: Held(s, h).Some? && !Begun(s, h) && Held(s, h).value !in s.books.forgotten ==>
          Held(s, h).value !in s.books.dispatched)
    && (forall id :: id in s.books.journal && BeforeExecution(s.books.journal[id]) && id !in s.books.forgotten ==>
        id !in s.books.dispatched)
  }

  predicate BeforeExecution(status: Status) {
    status.Failed? && status.reason != HandlerError
  }

  /** A terminal write happens to a row at most once between restarts. */
  ghost predicate SettledOnce(s: State) {
    forall id :: id in s.books.settled ==>
      s.books.settled[id] == 1 && id in s.books.journal && !s.books.journal[id].Accepted?
  }

  ghost predicate Ledger(s: State) {
    Custody(s) && Dispatching(s) && SettledOnce(s)
  }

  // ----- A claimed row changes hands -----

  ghost predicate SameElsewhere(s: State, s': State, except: set<Holder>) {
    forall h :: h !in except ==> Held(s', h) == Held(s, h) && Begun(s', h) == Begun(s, h)
  }

  /** Every holder keeps its row, and has begun it or not as before. */
  ghost predicate SameHolding(s: State, s': State) {
    forall h :: Held(s', h) == Held(s, h) && (Held(s, h).Some? ==> Begun(s', h) == Begun(s, h))
  }

  lemma LedgerKept(s: State, s': State)
    requires Ledger(s) && SameHolding(s, s') && s'.books == s.books
    ensures Ledger(s')
  {
    forall id | id in s'.books.journal && s'.books.journal[id].Accepted? && id !in s'.books.abandoned
      ensures exists h :: Held(s', h) == Some(id)
    {
      var h :| Held(s, h) == Some(id);
      assert Held(s', h) == Some(id);
    }
  }

  lemma CustodyMoved(s: State, s': State, from: Holder, to: Holder)
    requires Custody(s) && from != to && SameElsewhere(s, s', {from, to})
    requires Held(s, to) == None && Held(s', from) == None && Held(s', to) == Held(s, from)
    requires s'.books.journal == s.books.journal && s'.books.abandoned == s.books.abandoned
    ensures Custody(s')
  {
    forall id | id in s'.books.journal && s'.books.journal[id].Accepted? && id !in s'.books.abandoned
      ensures exists h :: Held(s', h) == Some(id)
    {
      var h :| Held(s, h) == Some(id);
      assert Held(s', if h == from then to else h) == Some(id);
    }
  }

  lemma LedgerMoved(s: State, s': State, from: Holder, to: Holder)
    requires Ledger(s) && from != to && SameElsewhere(s, s', {from, to}) && s'.books == s.books
    requires Held(s, to) == None && Held(s', from) == None && Held(s', to) == Held(s, from)
    requires !Begun(s, from)
    ensures Ledger(s')
  {
    CustodyMoved(s, s', from, to);
  }

  lemma LedgerDispatched(s: State, s': State, from: Holder, to: Holder, id: Uuid)
    requires Ledger(s) && from != to && SameElsewhere(s, s', {from, to})
    requires Held(s, to) == None && Held(s', from) == None && Held(s', to) == Held(s, from) == Some(id)
    requires !Begun(s, from) && Begun(s', to)
    requires s'.books == s.books.(dispatched := s.books.dispatched + multiset{id})
    ensures Ledger(s')
  {
    CustodyMoved(s, s', from, to);
  }

  lemma CustodyTaken(s: State, s': State, to: Holder, id: Uuid)
    requires Custody(s) && SameElsewhere(s, s', {to})
    requires Held(s, to) == None && Held(s', to) == Some(id) && id !in s.books.journal
    requires s'.books.journal == s.books.journal[id := Accepted] && s'.books.abandoned == s.books.abandoned
    ensures Custody(s')
  {
    forall i | i in s'.books.journal && s'.books.journal[i].Accepted? && i !in s'.books.abandoned
      ensures exists h :: Held(s', h) == Some(i)
    {
      if i == id {
        assert Held(s', to) == Some(i);
      } else {
        var h :| Held(s, h) == Some(i);
        assert Held(s', h) == Some(i);
      }
    }
  }

  lemma LedgerTaken(s: State, s': State, to: Holder, id: Uuid)
    requires Ledger(s) && SameElsewhere(s, s', {to})
    requires Held(s, to) == None && Held(s', to) == Some(id) && !Begun(s', to) && id !in s.books.journal
    requires s'.books == s.books.(journal := s.books.journal[id := Accepted])
    ensures Ledger(s')
  {
    CustodyTaken(s, s', to, id);
  }

  lemma CustodyEnded(s: State, s': State, from: Holder, id: Uuid)
    requires Custody(s) && SameElsewhere(s, s', {from})
    requires Held(s, from) == Some(id) && Held(s', from) == None
    requires || (s'.books.abandoned == s.books.abandoned + {id} && s'.books.journal == s.books.journal)
             || (s'.books.abandoned == s.books.abandoned && id in s'.books.journal && !s'.books.journal[id].Accepted?
                 && s'.books.journal == s.books.journal[id := s'.books.journal[id]])
    ensures Custody(s')
  {
    forall i | i in s'.books.journal && s'.books.journal[i].Accepted? && i !in s'.books.abandoned
      ensures exists h :: Held(s', h) == Some(i)
    {
      var h :| Held(s, h) == Some(i);
      assert Held(s', h) == Some(i);
    }
  }

  lemma LedgerSettled(s: State, s': State, from: Holder, id: Uuid, status: Status)
    requires Ledger(s) && SameElsewhere(s, s', {from})
    requires Held(s, from) == Some(id) && Held(s', from) == None && !status.Accepted?
    requires BeforeExecution(status) ==> !Begun(s, from)
    requires s'.books == s.books.(journal := s.books.journal[id := status], settled := s.books.settled + multiset{id})
    ensures Ledger(s')
  {
    CustodyEnded(s, s', from, id);
    DispatchingSettled(s, s', from, id, status);
    OnceSettled(s, s', id, status);
  }

  lemma DispatchingSettled(s: State, s': State, from: Holder, id: Uuid, status: Status)
    requires Dispatching(s) && SameElsewhere(s, s', {from})
    requires Held(s, from) == Some(id) && Held(s', from) == None && id in s.books.journal
    requires BeforeExecution(status) ==> !Begun(s, from)
    requires s'.books.journal == s.books.journal[id := status]
    requires s'.books.dispatched == s.books.dispatched && s'.books.forgotten == s.books.forgotten
    ensures Dispatching(s')
  {
  }

  lemma OnceSettled(s: State, s': State, id: Uuid, status: Status)
    requires SettledOnce(s) && id in s.books.journal && s.books.journal[id].Accepted? && !status.Accepted?
    requires s'.books.journal == s.books.journal[id := status]
    requires s'.books.settled == s.books.settled + multiset{id}
    ensures SettledOnce(s')
  {
  }

  lemma LedgerDropped(s: State, s': State, from: Holder, id: Uuid)
    requires Ledger(s) && SameElsewhere(s, s', {from})
    requires Held(s, from) == Some(id) && Held(s', from) == None
    requires s'.books == s.books.(abandoned := s.books.abandoned + {id})
    ensures Ledger(s')
  {
    CustodyEnded(s, s', from, id);
  }

  // ----- Every step keeps the ledger -----

  /** Queues hold what was put on them, and every row a task answers for was claimed. */
  ghost predicate Shape(s: State) {
    && (forall q :: q in s.queues ==> s.queues[q].taken <= |s.queues[q].items|)
    && (forall t :: t in s.tasks ==> Claims(s.tasks[t]))
  }

  predicate Claims(t: Task) {
    match t
    case Claiming(d) => d.claimed
    case Announcing(d) => d.claimed
    case Rejecting(d) => d.claimed
    case Worker(_, Idle) => true
    case Worker(_, Refusing(d)) => d.claimed
    case Worker(_, Running(d)) => true
    case Worker(_, Settling(d, status)) => d.claimed && IsOutcome(status)
    case Draining(_, reason, _, current) => reason != HandlerError && (current.Some? ==> current.value.claimed)
  }

  /** Replacing one task changes only what that task holds. */
  lemma TaskSet(s: State, s': State, task: nat)
    requires s'.queues == s.queues
    requires forall t :: t != task ==> (t in s'.tasks <==> t in s.tasks) && (t in s.tasks ==> s'.tasks[t] == s.tasks[t])
    ensures SameElsewhere(s, s', {InTask(task)})
  {
  }

  lemma Quiet(s: State, s': State, task: nat)
    requires Ledger(s) && s'.books == s.books && s'.queues == s.queues
    requires task !in s.tasks || (Holding(s.tasks[task]).None? && !Started(s.tasks[task]))
    requires task !in s'.tasks || (Holding(s'.tasks[task]).None? && !Started(s'.tasks[task]))
    requires forall t :: t != task ==> (t in s'.tasks <==> t in s.tasks) && (t in s.tasks ==> s'.tasks[t] == s.tasks[t])
    ensures Ledger(s')
  {
    TaskSet(s, s', task);
    LedgerKept(s, s');
  }

  lemma InstallStep(c: Config, s: State, step: Step)
    requires Ledger(s) && Numbered(s) && step.Install?
    ensures Ledger(Do(c, s, step))
  {
    LedgerKept(s, DoInstall(s, step.channel, step.backend));
  }

  /** Queue numbers are drawn from the object counter. */
  ghost predicate Numbered(s: State) {
    forall q :: q in s.queues ==> q < s.nextObject
  }

  lemma TopicStep(c: Config, s: State, step: Step)
    requires Ledger(s) && Shape(s) && step.SetTopic?
    ensures Ledger(Do(c, s, step))
  {
    var task := step.task;
    if task !in s.tasks {
      Quiet(s, DoSetTopic(c, s, step.channel, step.topic, task), task);
    }
  }

  lemma StartWorkerStep(c: Config, s: State, step: Step)
    requires Ledger(s) && step.StartWorker?
    ensures Ledger(Do(c, s, step))
  {
    var task := step.task;
    if task !in s.tasks {
      Quiet(s, DoStartWorker(s, task, step.channel), task);
    }
  }

  lemma StartDrainStep(c: Config, s: State, step: Step)
    requires Ledger(s) && (step.StartRemoval? || step.StartClosing?)
    ensures Ledger(Do(c, s, step))
  {
    var s' := Do(c, s, step);
    if step.task !in s.tasks {
      Quiet(s, s', step.task);
    }
  }

  lemma FlagStep(c: Config, s: State, step: Step)
    requires Ledger(s) && (step.Deactivate? || step.Close?)
    ensures Ledger(Do(c, s, step))
  {
    LedgerKept(s, Do(c, s, step));
  }

  lemma PutKeeps(s: State, s': State, q: nat, d: Descriptor)
    requires Ledger(s) && Shape(s) && q in s.queues && !d.claimed
    requires s'.books == s.books && s'.tasks == s.tasks && s'.queues == s.queues[q := Put(s.queues[q], d)]
    ensures Ledger(s')
  {
    LedgerKept(s, s');
  }

  lemma IngressStep(c: Config, s: State, step: Step)
    requires Ledger(s) && Shape(s) && step.Ingress?
    ensures Ledger(Do(c, s, step))
  {
    var s' := DoIngress(c, s, step.task, step.channel, step.id, step.tracked);
    if s'.queues != s.queues {
      var runtime := s.channels[step.channel];
      PutKeeps(s, s', runtime.identity,
               Descriptor(step.id, step.tracked, step.channel, runtime.identity, runtime.activation.value));
    } else if step.task !in s.tasks {
      Quiet(s, s', step.task);
    }
  }

  lemma ClaimStep(c: Config, s: State, step: Step)
    requires Ledger(s) && Shape(s) && step.Claim?
    ensures Ledger(Do(c, s, step))
  {
    var task := step.task;
    var s' := DoClaim(s, task);
    if task in s.tasks && s.tasks[task].Claiming? {
      var d := s.tasks[task].d;
      TaskSet(s, s', task);
      if d.id in s.books.journal {
        LedgerKept(s, s');
      } else {
        LedgerTaken(s, s', InTask(task), d.id);
      }
    }
  }

  /** Putting a task's descriptor on a queue hands its row to the new slot. */
  lemma PutMoves(s: State, s': State, q: nat, task: nat, d: Descriptor)
    requires Ledger(s) && Shape(s) && q in s.queues && d.claimed && s'.books == s.books
    requires task in s.tasks && Holding(s.tasks[task]) == Some(d.id) && !Started(s.tasks[task])
    requires s'.tasks == s.tasks - {task} && s'.queues == s.queues[q := Put(s.queues[q], d)]
    ensures Ledger(s')
  {
    var slot := InSlot(q, |s.queues[q].items|);
    assert SameElsewhere(s, s', {InTask(task), slot});
    LedgerMoved(s, s', InTask(task), slot);
  }

  lemma EnqueueStep(c: Config, s: State, step: Step)
    requires Ledger(s) && Shape(s) && step.Enqueue?
    ensures Ledger(Do(c, s, step))
  {
    var task := step.task;
    var s' := DoEnqueue(c, s, task);
    if task in s.tasks && s.tasks[task].Announcing? {
      var d := s.tasks[task].d;
      if Current(c, s, d) && d.identity in s.queues {
        PutMoves(s, s', d.identity, task, d);
      } else {
        TaskSet(s, s', task);
        LedgerKept(s, s');
      }
    }
  }

  lemma Settles(s: State, s': State, task: nat, id: Uuid, status: Status)
    requires Ledger(s) && task in s.tasks && Holding(s.tasks[task]) == Some(id)
    requires !status.Accepted? && (BeforeExecution(status) ==> !Started(s.tasks[task]))
    requires task in s'.tasks ==> Holding(s'.tasks[task]).None?
    requires s'.tasks == s.tasks - {task} || (task in s'.tasks && s'.tasks == s.tasks[task := s'.tasks[task]])
    requires s' == Finish(s.(tasks := s'.tasks), id, status)
    ensures Ledger(s')
  {
    assert Held(s, InTask(task)) == Some(id);
    TaskSet(s, s', task);
    LedgerSettled(s, s', InTask(task), id, status);
  }

  lemma RejectStep(c: Config, s: State, step: Step)
    requires Ledger(s) && Shape(s) && step.Reject?
    ensures Ledger(Do(c, s, step))
  {
    var task := step.task;
    if task in s.tasks && s.tasks[task].Rejecting? {
      Settles(s, DoReject(s, task), task, s.tasks[task].d.id, Failed(ChannelChanged));
    }
  }

  lemma RefuseStep(c: Config, s: State, step: Step)
    requires Ledger(s) && Shape(s) && step.Refuse?
    ensures Ledger(Do(c, s, step))
  {
    var task := step.task;
    if task in s.tasks && s.tasks[task].Worker? && s.tasks[task].state.Refusing? {
      Settles(s, DoRefuse(s, task), task, s.tasks[task].state.d.id, Failed(Suspended));
    }
  }

  lemma SettleStep(c: Config, s: State, step: Step)
    requires Ledger(s) && Shape(s) && step.Settle?
    ensures Ledger(Do(c, s, step))
  {
    var task := step.task;
    if task in s.tasks && s.tasks[task].Worker? && s.tasks[task].state.Settling? {
      assert Claims(s.tasks[task]);
      Settles(s, DoSettle(s, task), task, s.tasks[task].state.d.id, s.tasks[task].state.status);
    }
  }

  lemma DrainWriteStep(c: Config, s: State, step: Step)
    requires Ledger(s) && Shape(s) && step.DrainWrite?
    ensures Ledger(Do(c, s, step))
  {
    var task := step.task;
    if task in s.tasks && s.tasks[task].Draining? && s.tasks[task].current.Some? {
      Settles(s, DoDrainWrite(s, task), task, s.tasks[task].current.value.id, Failed(s.tasks[task].reason));
    }
  }

  /** Taking the head of a queue into one task. */
  lemma PopElsewhere(s: State, s': State, q: nat, task: nat)
    requires Shape(s) && Waiting(s, q) && s'.queues == Pop(s, q).queues
    requires task in s'.tasks && s'.tasks == s.tasks[task := s'.tasks[task]]
    ensures SameElsewhere(s, s', {InSlot(q, s.queues[q].taken), InTask(task)})
    ensures Held(s', InSlot(q, s.queues[q].taken)) == None
    ensures Held(s, InSlot(q, s.queues[q].taken)) == if Head(s, q).claimed then Some(Head(s, q).id) else None
  {
  }

  lemma TakeStep(c: Config, s: State, step: Step)
    requires Ledger(s) && Shape(s) && step.Take?
    ensures Ledger(Do(c, s, step))
  {
    var task := step.task;
    var s' := DoTake(c, s, task);
    if task in s.tasks && s.tasks[task].Worker? && s.tasks[task].state.Idle? && Waiting(s, s.tasks[task].queue) {
      var q := s.tasks[task].queue;
      assert s.tasks == s.tasks[task := s.tasks[task]];
      if Head(s, q).claimed {
        TakesClaimed(c, s, task, q);
      } else {
        PopUnclaimed(s, s', q, task);
      }
    }
  }

  lemma TakesClaimed(c: Config, s: State, task: nat, q: nat)
    requires Ledger(s) && Shape(s) && Waiting(s, q) && Head(s, q).claimed
    requires task in s.tasks && s.tasks[task] == Worker(q, Idle)
    ensures Ledger(DoTake(c, s, task))
  {
    var s', d, slot := DoTake(c, s, task), Head(s, q), InSlot(q, s.queues[q].taken);
    PopElsewhere(s, s', q, task);
    if Current(c, s, d) {
      LedgerDispatched(s, s', slot, InTask(task), d.id);
    } else {
      LedgerMoved(s, s', slot, InTask(task));
    }
  }

  lemma PopUnclaimed(s: State, s': State, q: nat, task: nat)
    requires Ledger(s) && Shape(s) && Waiting(s, q) && !Head(s, q).claimed && s'.books == s.books
    requires s'.queues == Pop(s, q).queues
    requires task in s.tasks && task in s'.tasks && s'.tasks == s.tasks[task := s'.tasks[task]]
    requires Holding(s.tasks[task]).None? && Holding(s'.tasks[task]).None?
    ensures Ledger(s')
  {
    PopElsewhere(s, s', q, task);
    LedgerKept(s, s');
  }

  lemma DrainTakes(s: State, task: nat)
    requires Ledger(s) && Shape(s)
    requires task in s.tasks && s.tasks[task].Draining? && s.tasks[task].current.None?
      && Waiting(s, s.tasks[task].queue)
    ensures Ledger(DoDrainNext(s, task))
  {
    var s' := DoDrainNext(s, task);
    var q := s.tasks[task].queue;
    assert s.tasks == s.tasks[task := s.tasks[task]];
    if Head(s, q).claimed {
      PopElsewhere(s, s', q, task);
      LedgerMoved(s, s', InSlot(q, s.queues[q].taken), InTask(task));
    } else {
      PopUnclaimed(s, s', q, task);
    }
  }

  lemma DrainEnds(s: State, task: nat)
    requires Ledger(s)
    requires task in s.tasks && s.tasks[task].Draining? && s.tasks[task].current.None?
      && !Waiting(s, s.tasks[task].queue)
    ensures Ledger(DoDrainNext(s, task))
  {
    Quiet(s, DoDrainNext(s, task), task);
  }

  lemma DrainNextStep(c: Config, s: State, step: Step)
    requires Ledger(s) && Shape(s) && step.DrainNext?
    ensures Ledger(Do(c, s, step))
  {
    var task := step.task;
    if task in s.tasks && s.tasks[task].Draining? && s.tasks[task].current.None? {
      if Waiting(s, s.tasks[task].queue) {
        DrainTakes(s, task);
      } else {
        DrainEnds(s, task);
      }
    }
  }

  lemma HandlerEndsStep(c: Config, s: State, step: Step)
    requires Ledger(s) && Shape(s) && step.HandlerEnds?
    ensures Ledger(Do(c, s, step))
  {
    var task := step.task;
    var s' := DoHandlerEnds(s, task, step.outcome);
    if task in s.tasks && s.tasks[task].Worker? && s.tasks[task].state.Running? && IsOutcome(step.outcome) {
      TaskSet(s, s', task);
      LedgerKept(s, s');
    }
  }

  lemma CancelStep(c: Config, s: State, step: Step)
    requires Ledger(s) && Shape(s) && step.Cancel?
    ensures Ledger(Do(c, s, step))
  {
    var task := step.task;
    var s' := DoCancel(s, task);
    if task in s.tasks {
      TaskSet(s, s', task);
      if Holding(s.tasks[task]).Some? {
        LedgerDropped(s, s', InTask(task), Holding(s.tasks[task]).value);
      } else {
        LedgerKept(s, s');
      }
    }
  }

  lemma RestartStep(c: Config, s: State, step: Step)
    requires Ledger(s) && step.Restart?
    ensures Ledger(Do(c, s, step))
  {

  }

  predicate ServesRow(step: Step) {
    step.Claim? || step.Enqueue? || step.Reject? || step.Take? || step.Refuse? || step.HandlerEnds? || step.Settle?
    || step.DrainNext? || step.DrainWrite? || step.Cancel?
  }

  lemma LedgerStep(c: Config, s: State, step: Step)
    requires Ledger(s) && Shape(s) && Numbered(s)
    ensures Ledger(Do(c, s, step))
  {
    if ServesRow(step) {
      LedgerRowStep(c, s, step);
    } else {
      LedgerSetupStep(c, s, step);
    }
  }

  lemma LedgerRowStep(c: Config, s: State, step: Step)
    requires Ledger(s) && Shape(s) && ServesRow(step)
    ensures Ledger(Do(c, s, step))
  {
    match step
    case Claim(_) => ClaimStep(c, s, step);
    case Enqueue(_) => EnqueueStep(c, s, step);
    case Reject(_) => RejectStep(c, s, step);
    case Take(_) => TakeStep(c, s, step);
    case Refuse(_) => RefuseStep(c, s, step);
    case HandlerEnds(_, _) => HandlerEndsStep(c, s, step);
    case Settle(_) => SettleStep(c, s, step);
    case DrainNext(_) => DrainNextStep(c, s, step);
    case DrainWrite(_) => DrainWriteStep(c, s, step);
    case Cancel(_) => CancelStep(c, s, step);
  }

  lemma LedgerSetupStep(c: Config, s: State, step: Step)
    requires Ledger(s) && Shape(s) && Numbered(s) && !ServesRow(step)
    ensures Ledger(Do(c, s, step))
  {
    match step
    case Install(_, _) => InstallStep(c, s, step);
    case SetTopic(_, _, _) => TopicStep(c, s, step);
    case Deactivate(_) => FlagStep(c, s, step);
    case Ingress(_, _, _, _) => IngressStep(c, s, step);
    case StartWorker(_, _) => StartWorkerStep(c, s, step);
    case StartRemoval(_, _) => StartDrainStep(c, s, step);
    case Close => FlagStep(c, s, step);
    case StartClosing(_, _) => StartDrainStep(c, s, step);
    case Restart(_) => RestartStep(c, s, step);
  }

  lemma ShapeStep(c: Config, s: State, step: Step)
    requires Shape(s)
    ensures Shape(Do(c, s, step))
  {
    if step.Ingress? || step.Enqueue? {
      ShapePutStep(c, s, step);
    } else if step.Take? {
      ShapeTakeStep(c, s, step.task);
    } else if step.DrainNext? {
      ShapeDrainStep(s, step.task);
    } else if step.Refuse? || step.HandlerEnds? || step.Settle? || step.DrainWrite? {
      ShapeWorkStep(c, s, step);
    } else {
      ShapeTaskStep(c, s, step);
    }
  }

  lemma ShapePutStep(c: Config, s: State, step: Step)
    requires Shape(s) && (step.Ingress? || step.Enqueue?)
    ensures Shape(Do(c, s, step))
  {
  }

  lemma ShapeTakeStep(c: Config, s: State, task: nat)
    requires Shape(s)
    ensures Shape(DoTake(c, s, task))
  {
  }

  lemma ShapeDrainStep(s: State, task: nat)
    requires Shape(s)
    ensures Shape(DoDrainNext(s, task))
  {
  }

  lemma ShapeWorkStep(c: Config, s: State, step: Step)
    requires Shape(s) && (step.Refuse? || step.HandlerEnds? || step.Settle? || step.DrainWrite?)
    ensures Shape(Do(c, s, step))
  {
  }

  lemma ShapeTaskStep(c: Config, s: State, step: Step)
    requires Shape(s) && !step.Ingress? && !step.Enqueue? && !step.Take? && !step.DrainNext?
    requires !step.Refuse? && !step.HandlerEnds? && !step.Settle? && !step.DrainWrite?
    ensures Shape(Do(c, s, step))
  {
  }

  // ----- Where descriptors come from -----

  function DescriptorOf(t: Task): Option<Descriptor> {
    match t
    case Claiming(d) => Some(d)
    case Announcing(d) => Some(d)
    case Rejecting(d) => Some(d)
    case Worker(_, Idle) => None
    case Worker(_, Refusing(d)) => Some(d)
    case Worker(_, Running(d)) => Some(d)
    case Worker(_, Settling(d, _)) => Some(d)
    case Draining(_, _, _, current) => current
  }

  /** The runtime and activation captured at ingress were in force at the call. */
  predicate Trusted(c: Config, e: Dispatch) {
    && !e.closed && e.runtime.identity == e.d.identity && e.runtime.activation == Some(e.d.activation)
    && e.d.activation.account == c.owner && e.d.activation.backend == e.runtime.backend
  }

  /** The calls of claimed descriptors, counted per mutation. */
  function Calls(log: seq<Dispatch>): multiset<Uuid> {
    if log == [] then multiset{}
    else
      var e := log[|log| - 1];
      Calls(log[..|log| - 1]) + if e.d.claimed then multiset{e.d.id} else multiset{}
  }

  /** Object numbers in use lie below the counter. */
  ghost predicate Below(s: State) {
    && Numbered(s)
    && (forall k :: k in s.channels ==>
        s.channels[k].identity < s.nextObject && Older(s.channels[k].activation, s.nextObject))
    && (forall d :: d in s.trace.captured ==> d.identity < s.nextObject && d.activation.serial < s.nextObject)
  }

  predicate Older(activation: Option<Activation>, n: nat) {
    activation.Some? ==> activation.value.serial < n
  }

  /** Tasks and queues hold only descriptors that ingress captured, each on the queue of its own runtime. */
  ghost predicate Provenance(s: State) {
    && (forall t :: t in s.tasks && DescriptorOf(s.tasks[t]).Some? ==>
        DescriptorOf(s.tasks[t]).value in s.trace.captured)
    && (forall q :: q in s.queues ==> forall i :: 0 <= i < |s.queues[q].items| ==>
          s.queues[q].items[i] in s.trace.captured && s.queues[q].items[i].identity == q)
  }

  ghost predicate Logged(c: Config, s: State) {
    && (forall i :: 0 <= i < |s.trace.log| ==> s.trace.log[i].d in s.trace.captured && Trusted(c, s.trace.log[i]))
    && s.books.dispatched == Calls(s.trace.log)
  }

  predicate ChangesObjects(step: Step) {
    step.Install? || step.SetTopic? || step.Deactivate? || step.Ingress? || step.DrainNext? || step.Restart?
  }

  /** Every other step leaves channels, captured descriptors and queue numbers alone. */
  lemma ObjectsKept(c: Config, s: State, step: Step)
    requires !ChangesObjects(step)
    ensures var s' := Do(c, s, step);
      && s'.channels == s.channels && s'.trace.captured == s.trace.captured
      && s'.nextObject == s.nextObject && s'.queues.Keys == s.queues.Keys
  {
  }

  lemma BelowStep(c: Config, s: State, step: Step)
    requires Below(s)
    ensures Below(Do(c, s, step))
  {
    if step.Install? || step.SetTopic? || step.Deactivate? {
      BelowChannelStep(c, s, step);
    } else if ChangesObjects(step) {
      BelowIngressStep(c, s, step);
    } else {
      ObjectsKept(c, s, step);
      assert forall q :: q in Do(c, s, step).queues ==> q in Do(c, s, step).queues.Keys;
    }
  }

  lemma BelowChannelStep(c: Config, s: State, step: Step)
    requires Below(s) && (step.Install? || step.SetTopic? || step.Deactivate?)
    ensures Below(Do(c, s, step))
  {
  }

  lemma DrainKeepsObjects(s: State, task: nat)
    ensures var s' := DoDrainNext(s, task);
      && s'.trace.captured == s.trace.captured && s'.closed == s.closed
      && s'.nextObject == s.nextObject && s'.queues.Keys == s.queues.Keys
      && forall k :: k in s'.channels ==> k in s.channels && s'.channels[k] == s.channels[k]
  {
  }

  lemma BelowIngressStep(c: Config, s: State, step: Step)
    requires Below(s) && (step.Ingress? || step.DrainNext? || step.Restart?)
    ensures Below(Do(c, s, step))
  {
    match step
    case Ingress(_, _, _, _) =>
    case DrainNext(task) => DrainKeepsObjects(s, task);
    case Restart(_) =>
  }

  lemma ProvenancePutStep(c: Config, s: State, step: Step)
    requires Provenance(s) && (step.Ingress? || step.Enqueue?)
    ensures Provenance(Do(c, s, step))
  {
  }

  lemma ProvenanceTakeStep(c: Config, s: State, task: nat)
    requires Provenance(s)
    ensures Provenance(DoTake(c, s, task))
  {
    if task in s.tasks && s.tasks[task].Worker? && Waiting(s, s.tasks[task].queue) {
      assert Head(s, s.tasks[task].queue) in s.trace.captured;
    }
  }

  lemma ProvenanceDrainStep(s: State, task: nat)
    requires Provenance(s)
    ensures Provenance(DoDrainNext(s, task))
  {
    if task in s.tasks && s.tasks[task].Draining? && Waiting(s, s.tasks[task].queue) {
      assert Head(s, s.tasks[task].queue) in s.trace.captured;
    }
  }

  lemma ProvenanceWorkStep(c: Config, s: State, step: Step)
    requires Provenance(s) && (step.Refuse? || step.HandlerEnds? || step.Settle? || step.DrainWrite?)
    ensures Provenance(Do(c, s, step))
  {
  }

  lemma ProvenanceTaskStep(c: Config, s: State, step: Step)
    requires Provenance(s) && !step.Ingress? && !step.Enqueue? && !step.Take? && !step.DrainNext?
    requires !step.Refuse? && !step.HandlerEnds? && !step.Settle? && !step.DrainWrite?
    ensures Provenance(Do(c, s, step))
  {
  }

  lemma ProvenanceStep(c: Config, s: State, step: Step)
    requires Provenance(s)
    ensures Provenance(Do(c, s, step))
  {
    if step.Ingress? || step.Enqueue? {
      ProvenancePutStep(c, s, step);
    } else if step.Take? {
      ProvenanceTakeStep(c, s, step.task);
    } else if step.DrainNext? {
      ProvenanceDrainStep(s, step.task);
    } else if step.Refuse? || step.HandlerEnds? || step.Settle? || step.DrainWrite? {
      ProvenanceWorkStep(c, s, step);
    } else {
      ProvenanceTaskStep(c, s, step);
    }
  }

  lemma TakeLogs(c: Config, s: State, task: nat)
    requires Provenance(s) && Logged(c, s)
    ensures Logged(c, DoTake(c, s, task))
  {
    var s' := DoTake(c, s, task);
    if s'.trace.log != s.trace.log {
      var q := s.tasks[task].queue;
      assert Head(s, q) in s.trace.captured;
      assert s'.trace.log[..|s'.trace.log| - 1] == s.trace.log;
    }
  }

  /** No other step calls a handler. */
  lemma OnlyTakeLogs(c: Config, s: State, step: Step)
    requires !step.Take?
    ensures Do(c, s, step).trace.log == s.trace.log && s.trace.captured <= Do(c, s, step).trace.captured
  {
  }

  lemma OnlyTakeCounts(c: Config, s: State, step: Step)
    requires !step.Take?
    ensures Do(c, s, step).books.dispatched == s.books.dispatched
  {
  }

  lemma LoggedStep(c: Config, s: State, step: Step)
    requires Provenance(s) && Logged(c, s)
    ensures Logged(c, Do(c, s, step))
  {
    if step.Take? {
      TakeLogs(c, s, step.task);
    } else {
      OnlyTakeLogs(c, s, step);
      OnlyTakeCounts(c, s, step);
    }
  }
}
