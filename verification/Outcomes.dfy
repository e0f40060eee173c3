/** What the journal says of an action, against what its handler did. */
module Outcomes {
  import opened Common
  import opened Actions
  import ActionResults

  /** The statuses that say a handler ran, and how it ended. */
  predicate Ran(status: Status) {
    status == Succeeded || status == Failed(HandlerError) || status == Uncertain(false)
  }

  // ----- What a step writes -----

  /** What a task is about to write, and for which row. */
  function Verdict(t: Task): Option<(Uuid, Status)> {
    match t
    case Rejecting(d) => Some((d.id, Failed(ChannelChanged)))
    case Worker(_, Refusing(d)) => Some((d.id, Failed(Suspended)))
    case Worker(_, Settling(d, status)) => Some((d.id, status))
    case Draining(_, reason, _, Some(d)) => Some((d.id, Failed(reason)))
    case _ => None
  }

  /** The step writes this verdict of its task. */
  predicate Writes(s: State, step: Step, id: Uuid, status: Status) {
    match step
    case Reject(t) => t in s.tasks && s.tasks[t].Rejecting? && Verdict(s.tasks[t]) == Some((id, status))
    case Refuse(t) => t in s.tasks && IsRefusing(s.tasks[t]) && Verdict(s.tasks[t]) == Some((id, status))
    case Settle(t) => t in s.tasks && IsSettling(s.tasks[t]) && Verdict(s.tasks[t]) == Some((id, status))
    case DrainWrite(t) => t in s.tasks && s.tasks[t].Draining? && Verdict(s.tasks[t]) == Some((id, status))
    case _ => false
  }

  predicate IsRefusing(t: Task) {
    t.Worker? && t.state.Refusing?
  }

  predicate IsSettling(t: Task) {
    t.Worker? && t.state.Settling?
  }

  predicate IsRunning(t: Task) {
    t.Worker? && t.state.Running?
  }

  predicate WritesSomething(step: Step) {
    step.Reject? || step.Refuse? || step.Settle? || step.DrainWrite?
  }

  /** Short of a restart, a row gets the verdict written for it, and no other step touches it. */
  lemma RowGetsVerdict(c: Config, s: State, step: Step, id: Uuid)
    requires !step.Restart? && id in s.books.journal
    ensures id in Do(c, s, step).books.journal
    ensures forall status :: Writes(s, step, id, status) ==> Do(c, s, step).books.journal[id] == status
    ensures (forall status :: !Writes(s, step, id, status)) ==>
      Do(c, s, step).books.journal[id] == s.books.journal[id]
  {
    if WritesSomething(step) {
      WriteLands(c, s, step, id);
    } else {
      NothingWritten(c, s, step);
    }
  }

  lemma WriteLands(c: Config, s: State, step: Step, id: Uuid)
    requires WritesSomething(step) && id in s.books.journal
    ensures id in Do(c, s, step).books.journal
    ensures forall status :: Writes(s, step, id, status) ==> Do(c, s, step).books.journal[id] == status
    ensures (forall status :: !Writes(s, step, id, status)) ==>
      Do(c, s, step).books.journal[id] == s.books.journal[id]
  {
    var before, after := s.books.journal, Do(c, s, step).books.journal;
    if step.task in s.tasks && Verdict(s.tasks[step.task]).Some? {
      var (row, status) := Verdict(s.tasks[step.task]).value;
      VerdictLands(c, s, step, row, status);
      assert Writes(s, step, row, status) || after == before;
    } else {
      VerdictMissing(c, s, step);
    }
  }

  lemma VerdictLands(c: Config, s: State, step: Step, row: Uuid, status: Status)
    requires WritesSomething(step) && step.task in s.tasks && Verdict(s.tasks[step.task]) == Some((row, status))
    ensures var before, after := s.books.journal, Do(c, s, step).books.journal;
      if Writes(s, step, row, status) && row in before then after == before[row := status] else after == before
  {
  }

  lemma VerdictMissing(c: Config, s: State, step: Step)
    requires WritesSomething(step) && (step.task !in s.tasks || Verdict(s.tasks[step.task]).None?)
    ensures Do(c, s, step).books.journal == s.books.journal
    ensures forall id, status :: !Writes(s, step, id, status)
  {
  }

  /** Every other step but a restart writes no terminal status. */
  lemma NothingWritten(c: Config, s: State, step: Step)
    requires !WritesSomething(step) && !step.Restart?
    ensures forall id :: id in s.books.journal ==>
      id in Do(c, s, step).books.journal && Do(c, s, step).books.journal[id] == s.books.journal[id]
    ensures forall id :: id in Do(c, s, step).books.journal && id !in s.books.journal ==>
      Do(c, s, step).books.journal[id] == Accepted
  {
  }

  // ----- Where an outcome comes from -----

  /** A handler of this mutation ends in this way. */
  predicate Ends(s: State, step: Step, id: Uuid, status: Status) {
    && step.HandlerEnds? && step.task in s.tasks && IsRunning(s.tasks[step.task])
    && s.tasks[step.task].state.d.claimed && s.tasks[step.task].state.d.id == id
    && step.outcome == status && IsOutcome(status)
  }

  type Evidence = (Uuid, Status) -> bool

  /** Outcomes about to be written, and outcomes written, are backed by evidence. */
  ghost predicate Backed(s: State, ev: Evidence) {
    && (forall t :: t in s.tasks && IsSettling(s.tasks[t]) ==> ev(s.tasks[t].state.d.id, s.tasks[t].state.status))
    && (forall id :: id in s.books.journal && Ran(s.books.journal[id]) ==> ev(id, s.books.journal[id]))
  }

  /** Settling tasks stay as they are, or come from a handler that ends. */
  lemma SettlingFrom(c: Config, s: State, step: Step, t: nat)
    requires t in Do(c, s, step).tasks && IsSettling(Do(c, s, step).tasks[t])
    ensures var w := Do(c, s, step).tasks[t];
      || (t in s.tasks && s.tasks[t] == w)
      || Ends(s, step, w.state.d.id, w.state.status)
  {
    if step.HandlerEnds? {
      EndingSettles(s, step.task, step.outcome, t);
    }
  }

  lemma EndingSettles(s: State, task: nat, outcome: Status, t: nat)
    requires t in DoHandlerEnds(s, task, outcome).tasks && IsSettling(DoHandlerEnds(s, task, outcome).tasks[t])
    ensures var w := DoHandlerEnds(s, task, outcome).tasks[t];
      (t in s.tasks && s.tasks[t] == w) || Ends(s, HandlerEnds(task, outcome), w.state.d.id, w.state.status)
  {
  }

  lemma StepBacked(c: Config, s: State, step: Step, ev: Evidence, ev': Evidence)
    requires Shape(s) && Backed(s, ev)
    requires forall id, status :: ev(id, status) || Ends(s, step, id, status) ==> ev'(id, status)
    ensures Backed(Do(c, s, step), ev')
  {
    var s' := Do(c, s, step);
    forall t | t in s'.tasks && IsSettling(s'.tasks[t])
      ensures ev'(s'.tasks[t].state.d.id, s'.tasks[t].state.status)
    {
      SettlingFrom(c, s, step, t);
    }
    forall id | id in s'.books.journal && Ran(s'.books.journal[id]) ensures ev'(id, s'.books.journal[id]) {
      RanFrom(c, s, step, id);
    }
  }

  /** A row that says a handler ran said so before, or had it from a settling worker. */
  lemma RanFrom(c: Config, s: State, step: Step, id: Uuid)
    requires Shape(s) && id in Do(c, s, step).books.journal && Ran(Do(c, s, step).books.journal[id])
    ensures var status := Do(c, s, step).books.journal[id];
      || (id in s.books.journal && s.books.journal[id] == status)
      || exists t :: t in s.tasks && IsSettling(s.tasks[t]) && Verdict(s.tasks[t]) == Some((id, status))
  {
    if WritesSomething(step) {
      if step.task in s.tasks {
        assert Claims(s.tasks[step.task]);
      }
      WrittenFrom(c, s, step, id);
    } else if !step.Restart? {
      NothingWritten(c, s, step);
    }
  }

  lemma WrittenFrom(c: Config, s: State, step: Step, id: Uuid)
    requires WritesSomething(step) && (step.task in s.tasks ==> Claims(s.tasks[step.task]))
    requires id in Do(c, s, step).books.journal && Ran(Do(c, s, step).books.journal[id])
    ensures var status := Do(c, s, step).books.journal[id];
      || (id in s.books.journal && s.books.journal[id] == status)
      || (step.task in s.tasks && IsSettling(s.tasks[step.task]) && Verdict(s.tasks[step.task]) == Some((id, status)))
  {
  }

  // ----- A row that says a handler ran was dispatched, once -----

  ghost predicate RunningIsDispatched(s: State) {
    forall t :: t in s.tasks && IsRunning(s.tasks[t]) && s.tasks[t].state.d.claimed ==>
      s.tasks[t].state.d.id in s.books.dispatched
  }

  lemma DispatchedStays(c: Config, s: State, step: Step, id: Uuid)
    requires id in s.books.dispatched
    ensures id in Do(c, s, step).books.dispatched
  {
    if !step.Take? {
      OnlyTakeCounts(c, s, step);
    }
  }

  lemma RunningFrom(c: Config, s: State, step: Step, t: nat)
    requires !step.Take? && t in Do(c, s, step).tasks && IsRunning(Do(c, s, step).tasks[t])
    ensures t in s.tasks && s.tasks[t] == Do(c, s, step).tasks[t]
  {
  }

  lemma TakeDispatches(c: Config, s: State, task: nat)
    requires RunningIsDispatched(s)
    ensures RunningIsDispatched(DoTake(c, s, task))
  {
  }

  lemma RunningStep(c: Config, s: State, step: Step)
    requires RunningIsDispatched(s)
    ensures RunningIsDispatched(Do(c, s, step))
  {
    if step.Take? {
      TakeDispatches(c, s, step.task);
    } else {
      var s' := Do(c, s, step);
      OnlyTakeCounts(c, s, step);
      forall t | t in s'.tasks && IsRunning(s'.tasks[t]) && s'.tasks[t].state.d.claimed
        ensures s'.tasks[t].state.d.id in s'.books.dispatched
      {
        RunningFrom(c, s, step, t);
      }
    }
  }

  function WasDispatched(s: State): Evidence {
    (id, status) => id in s.books.dispatched
  }

  lemma {:induction false} AllDispatched(c: Config, steps: seq<Step>)
    ensures var s := Run(c, INITIAL, steps); RunningIsDispatched(s) && Backed(s, WasDispatched(s))
  {
    if steps != [] {
      var n := |steps| - 1;
      var s := Run(c, INITIAL, steps[..n]);
      AllDispatched(c, steps[..n]);
      ActionResults.InvHolds(c, steps[..n]);
      RunningStep(c, s, steps[n]);
      DispatchedBacks(c, s, steps[n]);
    }
  }

  lemma DispatchedBacks(c: Config, s: State, step: Step)
    requires Shape(s) && RunningIsDispatched(s) && Backed(s, WasDispatched(s))
    ensures Backed(Do(c, s, step), WasDispatched(Do(c, s, step)))
  {
    forall id, status | WasDispatched(s)(id, status) || Ends(s, step, id, status)
      ensures WasDispatched(Do(c, s, step))(id, status)
    {
      DispatchedStays(c, s, step, id);
    }
    StepBacked(c, s, step, WasDispatched(s), WasDispatched(Do(c, s, step)));
  }

  /**
   What a settled row says is true: unless a restart gave up on it, it says that a handler ran exactly
   when one did, and then it was one.
   */
  lemma RowTellsWhetherRan(c: Config, steps: seq<Step>, id: Uuid)
    requires var s := Run(c, INITIAL, steps);
      && id in s.books.journal && id !in s.books.forgotten
      && !s.books.journal[id].Accepted? && s.books.journal[id] != Uncertain(true)
    ensures var s := Run(c, INITIAL, steps);
      && (Ran(s.books.journal[id]) <==> Calls(s.trace.log)[id] == 1)
      && (BeforeExecution(s.books.journal[id]) <==> Calls(s.trace.log)[id] == 0)
  {
    var s := Run(c, INITIAL, steps);
    ActionResults.InvHolds(c, steps);
    if Ran(s.books.journal[id]) {
      RanIsDispatched(c, steps, id);
      ActionResults.DispatchedAtMostOnce(c, steps, id);
    }
  }

  /** Conversely, a row whose mutation reached no handler never says so, whatever was swept or abandoned. */
  lemma NeverRan(c: Config, steps: seq<Step>, id: Uuid)
    requires var s := Run(c, INITIAL, steps); id in s.books.journal && Calls(s.trace.log)[id] == 0
    ensures var status := Run(c, INITIAL, steps).books.journal[id];
      status == Accepted || BeforeExecution(status) || status == Uncertain(true)
  {
    var s := Run(c, INITIAL, steps);
    if Ran(s.books.journal[id]) {
      RanIsDispatched(c, steps, id);
    }
  }

  lemma RanIsDispatched(c: Config, steps: seq<Step>, id: Uuid)
    requires id in Run(c, INITIAL, steps).books.journal && Ran(Run(c, INITIAL, steps).books.journal[id])
    ensures Calls(Run(c, INITIAL, steps).trace.log)[id] > 0
  {
    var s := Run(c, INITIAL, steps);
    AllDispatched(c, steps);
    ActionResults.InvHolds(c, steps);
    assert WasDispatched(s)(id, s.books.journal[id]);
  }

  // ----- And the outcome is the handler's -----

  /** At some moment of the run a handler of this mutation ended in this way. */
  ghost predicate Ended(c: Config, steps: seq<Step>, id: Uuid, status: Status) {
    exists n :: 0 <= n < |steps| && Ends(Run(c, INITIAL, steps[..n]), steps[n], id, status)
  }

  lemma EndedGrows(c: Config, steps: seq<Step>, n: nat, id: Uuid, status: Status)
    requires n < |steps|
    requires Ended(c, steps[..n], id, status) || Ends(Run(c, INITIAL, steps[..n]), steps[n], id, status)
    ensures Ended(c, steps, id, status)
  {
    if m :| 0 <= m < n && Ends(Run(c, INITIAL, steps[..n][..m]), steps[..n][m], id, status) {
      assert steps[..n][..m] == steps[..m];
      assert Ends(Run(c, INITIAL, steps[..m]), steps[m], id, status);
    }
  }

  ghost function HasEnded(c: Config, steps: seq<Step>): Evidence {
    (id, status) => Ended(c, steps, id, status)
  }

  lemma {:induction false} AllEnded(c: Config, steps: seq<Step>)
    ensures Backed(Run(c, INITIAL, steps), HasEnded(c, steps))
  {
    if steps != [] {
      var n := |steps| - 1;
      AllEnded(c, steps[..n]);
      ActionResults.InvHolds(c, steps[..n]);
      forall id, status | HasEnded(c, steps[..n])(id, status) || Ends(Run(c, INITIAL, steps[..n]), steps[n], id, status)
        ensures HasEnded(c, steps)(id, status)
      {
        EndedGrows(c, steps, n, id, status);
      }
      StepBacked(c, Run(c, INITIAL, steps[..n]), steps[n], HasEnded(c, steps[..n]), HasEnded(c, steps));
    }
  }

  /** A row that says a handler ran holds an outcome its handler ended with. */
  lemma OutcomeIsTheHandlers(c: Config, steps: seq<Step>, id: Uuid)
    requires id in Run(c, INITIAL, steps).books.journal && Ran(Run(c, INITIAL, steps).books.journal[id])
    ensures Ended(c, steps, id, Run(c, INITIAL, steps).books.journal[id])
  {
    AllEnded(c, steps);
    assert HasEnded(c, steps)(id, Run(c, INITIAL, steps).books.journal[id]);
  }

  /** The outcome is in the row, or on its way there, or was lost with its worker. */
  ghost predicate Stands(s: State, id: Uuid, status: Status) {
    && id in s.books.journal
    && (s.books.journal[id].Accepted? ==> id in s.books.abandoned || exists t :: Settles(s, t, id, status))
    && (!s.books.journal[id].Accepted? ==> s.books.journal[id] == status || s.books.journal[id] == Uncertain(true))
  }

  predicate Settles(s: State, t: nat, id: Uuid, status: Status) {
    t in s.tasks && IsSettling(s.tasks[t]) && Verdict(s.tasks[t]) == Some((id, status))
  }

  lemma EndsStands(c: Config, s: State, step: Step, id: Uuid, status: Status)
    requires Custody(s) && Ends(s, step, id, status)
    ensures Stands(Do(c, s, step), id, status)
  {
    assert Held(s, InTask(step.task)) == Some(id);
    assert Settles(Do(c, s, step), step.task, id, status);
  }

  lemma RestartStands(s: State, expired: set<Uuid>, id: Uuid, status: Status)
    requires Stands(s, id, status) && id !in expired
    ensures Stands(DoRestart(s, expired), id, status)
  {
  }

  /** A row that is settled or abandoned is held by nobody, so nobody writes it. */
  lemma NotWritten(c: Config, s: State, step: Step, id: Uuid)
    requires Custody(s) && !step.Restart? && id in s.books.journal
    requires !s.books.journal[id].Accepted? || id in s.books.abandoned
    ensures id in Do(c, s, step).books.journal && Do(c, s, step).books.journal[id] == s.books.journal[id]
    ensures id in s.books.abandoned ==> id in Do(c, s, step).books.abandoned
  {
    forall status ensures !Writes(s, step, id, status) {
      if WritesSomething(step) {
        assert Held(s, InTask(step.task)) != Some(id);
      }
    }
    RowGetsVerdict(c, s, step, id);
    AbandonedStays(c, s, step);
  }

  lemma AbandonedStays(c: Config, s: State, step: Step)
    requires !step.Restart?
    ensures s.books.abandoned <= Do(c, s, step).books.abandoned
  {
  }

  /** A row on its way: its own worker writes it, or is cancelled, or waits. */
  lemma SettlingStands(c: Config, s: State, step: Step, t: nat, id: Uuid, status: Status)
    requires Custody(s) && Shape(s) && !step.Restart? && Settles(s, t, id, status)
    ensures Stands(Do(c, s, step), id, status)
  {
    var s' := Do(c, s, step);
    assert Held(s, InTask(t)) == Some(id);
    RowGetsVerdict(c, s, step, id);
    if step == Settle(t) {
      assert Claims(s.tasks[t]);
      assert Writes(s, step, id, status);
    } else if step == Cancel(t) {
      CancelAbandons(s, t, id, status);
    } else {
      WaitingStays(c, s, step, t);
      OthersWrite(c, s, step, t, id);
      assert Settles(s', t, id, status);
    }
  }

  /** The writes of other tasks are for other rows. */
  lemma OthersWrite(c: Config, s: State, step: Step, t: nat, id: Uuid)
    requires Custody(s) && t in s.tasks && Holding(s.tasks[t]) == Some(id) && step != Settle(t)
    requires IsSettling(s.tasks[t])
    ensures forall other :: !Writes(s, step, id, other)
  {
    assert Held(s, InTask(t)) == Some(id);
    forall other ensures !Writes(s, step, id, other) {
      if WritesSomething(step) && step.task != t {
        assert Held(s, InTask(step.task)) != Some(id);
      }
    }
  }

  lemma CancelAbandons(s: State, t: nat, id: Uuid, status: Status)
    requires Custody(s) && Settles(s, t, id, status)
    ensures Stands(DoCancel(s, t), id, status)
  {
    assert Held(s, InTask(t)) == Some(id);
    assert Holding(s.tasks[t]) == Some(id);
  }

  lemma WaitingStays(c: Config, s: State, step: Step, t: nat)
    requires t in s.tasks && IsSettling(s.tasks[t]) && !step.Restart? && step != Settle(t) && step != Cancel(t)
    ensures t in Do(c, s, step).tasks && Do(c, s, step).tasks[t] == s.tasks[t]
  {
  }

  lemma StandsStep(c: Config, s: State, step: Step, id: Uuid, status: Status)
    requires Custody(s) && Shape(s) && Stands(s, id, status) && id !in Do(c, s, step).books.forgotten
    ensures Stands(Do(c, s, step), id, status)
  {
    if step.Restart? {
      RestartStands(s, step.expired, id, status);
    } else if !s.books.journal[id].Accepted? || id in s.books.abandoned {
      NotWritten(c, s, step, id);
    } else {
      var t :| Settles(s, t, id, status);
      SettlingStands(c, s, step, t, id, status);
    }
  }

  lemma ForgottenStays(c: Config, s: State, step: Step)
    ensures s.books.forgotten <= Do(c, s, step).books.forgotten
  {
  }

  /** However the run goes on, the outcome a handler ended with is never replaced by another. */
  lemma {:induction false} OutcomeStands(c: Config, steps: seq<Step>, id: Uuid, status: Status)
    requires Ended(c, steps, id, status) && id !in Run(c, INITIAL, steps).books.forgotten
    ensures Stands(Run(c, INITIAL, steps), id, status)
  {
    var n := |steps| - 1;
    var s := Run(c, INITIAL, steps[..n]);
    ActionResults.InvHolds(c, steps[..n]);
    ForgottenStays(c, s, steps[n]);
    if Ends(s, steps[n], id, status) {
      EndsStands(c, s, steps[n], id, status);
    } else {
      EndedBefore(c, steps, id, status);
      OutcomeStands(c, steps[..n], id, status);
      StandsStep(c, s, steps[n], id, status);
    }
  }

  lemma EndedBefore(c: Config, steps: seq<Step>, id: Uuid, status: Status)
    requires Ended(c, steps, id, status)
    requires !Ends(Run(c, INITIAL, steps[..|steps| - 1]), steps[|steps| - 1], id, status)
    ensures Ended(c, steps[..|steps| - 1], id, status)
  {
    var n := |steps| - 1;
    var m :| 0 <= m < |steps| && Ends(Run(c, INITIAL, steps[..m]), steps[m], id, status);
    assert steps[..n][..m] == steps[..m] && steps[..n][m] == steps[m];
  }

  // ----- Where a row goes after its announcement -----

  /** Every channel's queue is there. */
  ghost predicate QueuesThere(s: State) {
    forall k :: k in s.channels ==> s.channels[k].identity in s.queues
  }

  lemma QueuesStep(c: Config, s: State, step: Step)
    requires QueuesThere(s)
    ensures QueuesThere(Do(c, s, step))
  {
    if step.DrainNext? {
      DrainKeepsObjects(s, step.task);
    } else if !ChangesObjects(step) {
      ObjectsKept(c, s, step);
    }
  }

  lemma {:induction false} QueuesHold(c: Config, steps: seq<Step>)
    ensures QueuesThere(Run(c, INITIAL, steps))
  {
    if steps != [] {
      QueuesHold(c, steps[..|steps| - 1]);
      QueuesStep(c, Run(c, INITIAL, steps[..|steps| - 1]), steps[|steps| - 1]);
    }
  }

  /** The bridge is open, and the channel has the runtime and the owner's activation the descriptor was made for. */
  predicate InForce(c: Config, s: State, d: Descriptor) {
    && !s.closed && d.channel in s.channels && d.activation.account == c.owner
    && s.channels[d.channel] == Runtime(d.identity, d.activation.backend, Some(d.activation))
  }

  /** A row goes to the tail of its channel's queue exactly when its descriptor is in force, and else is refused. */
  lemma EnqueuedIff(c: Config, steps: seq<Step>, task: nat)
    requires task in Run(c, INITIAL, steps).tasks && Run(c, INITIAL, steps).tasks[task].Announcing?
    ensures var s := Run(c, INITIAL, steps);
      var d, s' := s.tasks[task].d, Do(c, s, Enqueue(task));
      if InForce(c, s, d)
      then task !in s'.tasks && d.identity in s.queues
        && s'.queues == s.queues[d.identity := Put(s.queues[d.identity], d)]
      else task in s'.tasks && s'.tasks[task] == Rejecting(d) && s'.queues == s.queues
  {
    QueuesHold(c, steps);
  }

  /** A queue gets a worker exactly if it has none. */
  lemma WorkerStartsIff(c: Config, s: State, task: nat, channel: Channel)
    requires task !in s.tasks && channel in s.channels
    ensures var q, s' := s.channels[channel].identity, Do(c, s, StartWorker(task, channel));
      s' == if exists t :: t in s.tasks && s.tasks[t].Worker? && s.tasks[t].queue == q then s
            else s.(tasks := s.tasks[task := Worker(q, Idle)])
  {
  }

  /** An idle worker takes the head that waits, and calls its handler exactly when the descriptor is in force. */
  lemma TakenIff(c: Config, s: State, task: nat, q: nat)
    requires task in s.tasks && s.tasks[task] == Worker(q, Idle) && Waiting(s, q)
    ensures var d, s' := Head(s, q), Do(c, s, Take(task));
      && s'.queues == Pop(s, q).queues && s'.books.journal == s.books.journal
      && s'.tasks == s.tasks[task := Worker(q, if InForce(c, s, d) then Running(d)
                                               else if d.claimed then Refusing(d) else Idle)]
      && s'.trace.log == if InForce(c, s, d) then s.trace.log + [Dispatch(d, s.channels[d.channel], false)]
                         else s.trace.log
  {
  }

  /** A restart leaves the journal and nothing else: no channel, queue or task, and an open bridge. */
  lemma RestartLeaves(c: Config, s: State, expired: set<Uuid>)
    ensures var s' := Do(c, s, Restart(expired));
      && s'.channels == map[] && s'.queues == map[] && s'.tasks == map[] && !s'.closed
      && s'.trace == s.trace && s'.nextObject == s.nextObject && s'.books.dispatched == s.books.dispatched
  {
  }

  // ----- What a topic does -----

  /**
   Whatever a topic says, no descriptor captured on its channel before is current after it; the channel is
   active afterwards exactly when the whole marker is valid; and if it is not, and the channel was active or
   the marker was there, the queue is drained as suspended.
   */
  lemma TopicTakesEffect(c: Config, steps: seq<Step>, channel: Channel, topic: Topic, task: nat)
    requires channel in Run(c, INITIAL, steps).channels && task !in Run(c, INITIAL, steps).tasks
    ensures var s := Run(c, INITIAL, steps);
      var s', r := Do(c, s, SetTopic(channel, topic, task)), s.channels[channel];
      var good := topic == Marked(c.owner, c.agent, r.backend);
      && (forall d :: d in s.trace.captured && d.channel == channel ==> !Current(c, s', d))
      && channel in s'.channels && s'.channels[channel].identity == r.identity
      && (s'.channels[channel].activation.Some? <==> good)
      && (task in s'.tasks <==> !good && (topic.Unmarked? ==> r.activation.Some?))
      && (task in s'.tasks ==> s'.tasks[task] == Draining(r.identity, Suspended, None, None))
  {
    ActionResults.InvHolds(c, steps);
  }

  /** Installing a channel changes nothing if it is there, and else makes one that no earlier descriptor is for. */
  lemma InstalledIsNew(c: Config, steps: seq<Step>, channel: Channel, backend: string)
    ensures var s := Run(c, INITIAL, steps);
      var s' := Do(c, s, Install(channel, backend));
      if channel in s.channels then s' == s
      else
        && channel in s'.channels && s'.channels == s.channels[channel := s'.channels[channel]]
        && var r := s'.channels[channel];
           && r.activation.None? && r.backend == backend && r.identity in s'.queues && s'.queues[r.identity].items == []
           && forall d :: d in s.trace.captured ==> d.identity != r.identity
  {
    ActionResults.InvHolds(c, steps);
  }

  /** Suspending a channel leaves no descriptor of it in force, and touches no other channel. */
  lemma SuspensionStops(c: Config, s: State, channel: Channel)
    ensures var s' := Do(c, s, Deactivate(channel));
      && (forall d :: InForce(c, s', d) <==> InForce(c, s, d) && d.channel != channel)
      && s'.channels.Keys == s.channels.Keys && s'.queues == s.queues && s'.tasks == s.tasks && s'.books == s.books
  {
  }

  /** Once closed, the bridge captures nothing and calls no handler, whatever happens short of a restart. */
  lemma {:induction false} ClosedForGood(c: Config, s: State, steps: seq<Step>)
    requires forall i :: 0 <= i < |steps| ==> !steps[i].Restart?
    ensures var s' := Run(c, Do(c, s, Close), steps); s'.closed && s'.trace == s.trace
  {
    if steps != [] {
      var n := |steps| - 1;
      ClosedForGood(c, s, steps[..n]);
      ClosedStep(c, Run(c, Do(c, s, Close), steps[..n]), steps[n]);
    }
  }

  lemma ClosedStep(c: Config, s: State, step: Step)
    requires s.closed && !step.Restart?
    ensures Do(c, s, step).closed && Do(c, s, step).trace == s.trace
  {
  }

  // ----- What ingress and removal do -----

  /**
   An action is captured exactly while the bridge is open and its channel is active, with the runtime and the
   activation its channel has then. A mutation goes on to its claim; a read goes to the queue's tail if its
   activation is the owner's, for the channel's backend.
   */
  lemma IngressIff(c: Config, steps: seq<Step>, task: nat, channel: Channel, id: Uuid, tracked: bool)
    requires task !in Run(c, INITIAL, steps).tasks && channel in Run(c, INITIAL, steps).channels
    ensures var s := Run(c, INITIAL, steps);
      var r, s' := s.channels[channel], Do(c, s, Ingress(task, channel, id, tracked));
      if s.closed || r.activation.None? then s' == s
      else
        var a := r.activation.value;
        var d := Descriptor(id, tracked, channel, r.identity, a);
        && s'.trace == s.trace.(captured := s.trace.captured + {d}) && s'.books == s.books
        && s'.tasks == (if tracked then s.tasks[task := Claiming(d)] else s.tasks)
        && r.identity in s.queues
        && s'.queues == if !tracked && a.account == c.owner && a.backend == r.backend
                        then s.queues[r.identity := Put(s.queues[r.identity], d)] else s.queues
  {
    QueuesHold(c, steps);
  }

  /** A claim is taken exactly when the journal has no row for the id; otherwise the action ends there. */
  lemma ClaimedIff(c: Config, s: State, task: nat)
    requires task in s.tasks && s.tasks[task].Claiming?
    ensures var d, s' := s.tasks[task].d, Do(c, s, Claim(task));
      && s'.books.journal == (if d.id in s.books.journal then s.books.journal else s.books.journal[d.id := Accepted])
      && (task in s'.tasks <==> d.id !in s.books.journal)
      && (task in s'.tasks ==> s'.tasks[task] == Announcing(d))
      && s'.queues == s.queues && s'.channels == s.channels
  {
  }

  /** A drain takes the next descriptor that waits; when none does it is over, and a removal forgets its channel. */
  lemma DrainTakesOrEnds(c: Config, s: State, task: nat)
    requires task in s.tasks && s.tasks[task].Draining? && s.tasks[task].current.None?
    ensures var t, s' := s.tasks[task], Do(c, s, DrainNext(task));
      if Waiting(s, t.queue) then
        var d := Head(s, t.queue);
        && s'.queues == Pop(s, t.queue).queues && s'.channels == s.channels && task in s'.tasks
        && s'.tasks[task] == (if d.claimed then t.(current := Some(d)) else t)
      else
        && task !in s'.tasks && s'.queues == s.queues
        && s'.channels == if t.removes.Some? then s.channels - {t.removes.value} else s.channels
  {
  }

  /** Removal and closing drain the queue of the channel's present runtime, each for its own reason. */
  lemma DrainsFor(c: Config, s: State, task: nat, channel: Channel)
    requires task !in s.tasks && channel in s.channels
    ensures var q := s.channels[channel].identity;
      && Do(c, s, StartRemoval(task, channel)).tasks
         == s.tasks[task := Draining(q, ChannelRemoved, Some(channel), None)]
      && Do(c, s, StartClosing(task, channel)).tasks
         == if s.closed then s.tasks[task := Draining(q, BridgeClosed, None, None)] else s.tasks
  {
  }

  // ----- Workers and drains come to their ends -----

  /** Whatever a worker does, its own next steps bring it back to its queue. */
  lemma WorkerComesBack(c: Config, s: State, task: nat, outcome: Status)
    requires task in s.tasks && s.tasks[task].Worker? && IsOutcome(outcome)
    ensures Do(c, Do(c, Do(c, s, HandlerEnds(task, outcome)), Refuse(task)), Settle(task)).tasks
         == s.tasks[task := Worker(s.tasks[task].queue, Idle)]
  {
    var q := s.tasks[task].queue;
    match s.tasks[task].state
    case Idle =>
    case Refusing(d) => assert s.tasks[task := Worker(q, Idle)] == Do(c, s, Refuse(task)).tasks;
    case Running(d) =>
      var ended := Do(c, s, HandlerEnds(task, outcome));
      if d.claimed {
        assert ended.tasks[task := Worker(q, Idle)] == s.tasks[task := Worker(q, Idle)];
      }
    case Settling(d, status) =>
  }

  /** The drain takes and settles n descriptors. */
  function Rounds(task: nat, n: nat): seq<Step> {
    if n == 0 then [] else Rounds(task, n - 1) + [DrainNext(task), DrainWrite(task)]
  }

  /** This row waits among the next n of the queue. */
  predicate IsWaiting(q: Queue, n: nat, id: Uuid) {
    exists i :: q.taken <= i < q.taken + n && i < |q.items| && q.items[i].claimed && q.items[i].id == id
  }

  predicate DrainsQueue(s: State, task: nat, q: nat, reason: Reason) {
    && task in s.tasks && s.tasks[task].Draining? && s.tasks[task].current.None?
    && s.tasks[task].queue == q && s.tasks[task].reason == reason && q in s.queues
  }

  /** The next n of a queue are taken, and their rows failed for this reason; nothing else changed. */
  ghost predicate Failing(s: State, s': State, q: nat, reason: Reason, n: nat)
    requires q in s.queues
  {
    && s'.tasks == s.tasks && s'.channels == s.channels
    && s'.queues == s.queues[q := Queue(s.queues[q].items, s.queues[q].taken + n)]
    && s'.books.journal.Keys == s.books.journal.Keys
    && forall id :: id in s.books.journal ==>
         s'.books.journal[id] == if IsWaiting(s.queues[q], n, id) then Failed(reason) else s.books.journal[id]
  }

  lemma {:induction false} RoundsFail(c: Config, s: State, task: nat, q: nat, reason: Reason, n: nat)
    requires DrainsQueue(s, task, q, reason) && s.queues[q].taken + n <= |s.queues[q].items|
    ensures Given(Failing(s, Run(c, s, Rounds(task, n)), q, reason, n))
  {
    if n == 0 {
      NoneFail(s, q, reason);
    } else {
      RoundsFail(c, s, task, q, reason, n - 1);
      var before := Run(c, s, Rounds(task, n - 1));
      RoundsNext(c, s, task, n);
      OneRound(c, before, task, q, reason);
      OneMore(s, before, Run(c, s, Rounds(task, n)), q, reason, n - 1);
    }
  }

  lemma RoundsNext(c: Config, s: State, task: nat, n: nat)
    requires n > 0
    ensures Run(c, s, Rounds(task, n))
         == Do(c, Do(c, Run(c, s, Rounds(task, n - 1)), DrainNext(task)), DrainWrite(task))
  {
    var before, steps := Rounds(task, n - 1), Rounds(task, n);
    assert steps[..|steps| - 1] == before + [DrainNext(task)];
    assert (before + [DrainNext(task)])[..|before|] == before;
  }

  lemma NoneFail(s: State, q: nat, reason: Reason)
    requires q in s.queues
    ensures Given(Failing(s, s, q, reason, 0))
  {
  }

  lemma OneRound(c: Config, s: State, task: nat, q: nat, reason: Reason)
    requires DrainsQueue(s, task, q, reason) && Waiting(s, q)
    ensures Given(Failing(s, Do(c, Do(c, s, DrainNext(task)), DrainWrite(task)), q, reason, 1))
  {
    var d := Head(s, q);
    assert IsWaiting(s.queues[q], 1, d.id) == d.claimed;
    assert forall id :: IsWaiting(s.queues[q], 1, id) ==> id == d.id && d.claimed;
  }

  lemma OneMore(s: State, s': State, s'': State, q: nat, reason: Reason, n: nat)
    requires q in s.queues && q in s'.queues
    requires Given(Failing(s, s', q, reason, n)) && Given(Failing(s', s'', q, reason, 1))
    ensures Given(Failing(s, s'', q, reason, n + 1))
  {
    var queue := s.queues[q];
    assert forall id :: IsWaiting(queue, n + 1, id) <==> IsWaiting(queue, n, id) || IsWaiting(s'.queues[q], 1, id);
  }

  /** Left alone, a drain fails exactly the mutations that wait, and is over; a removal then forgets its channel. */
  lemma DrainFailsAll(c: Config, s: State, task: nat, q: nat, reason: Reason)
    requires DrainsQueue(s, task, q, reason) && s.queues[q].taken <= |s.queues[q].items|
    ensures var waiting := |s.queues[q].items| - s.queues[q].taken;
      var s' := Run(c, s, Rounds(task, waiting));
      && Failing(s, s', q, reason, waiting)
      && Do(c, s', DrainNext(task)) == s'.(
           tasks := s.tasks - {task},
           channels := if s.tasks[task].removes.Some? then s.channels - {s.tasks[task].removes.value} else s.channels)
  {
    RoundsFail(c, s, task, q, reason, |s.queues[q].items| - s.queues[q].taken);
  }
}
