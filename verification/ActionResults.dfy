/** What holds of actions in every reachable state, over every interleaving, cancellation and restart. */
module ActionResults {
  import opened Common
  import opened Actions

  // ----- Every reachable state -----

  ghost predicate Inv(c: Config, s: State) {
    Shape(s) && Ledger(s) && Below(s) && Provenance(s) && Logged(c, s)
  }

  lemma InvStep(c: Config, s: State, step: Step)
    requires Inv(c, s)
    ensures Inv(c, Do(c, s, step))
  {
    ShapeStep(c, s, step);
    LedgerStep(c, s, step);
    BelowStep(c, s, step);
    ProvenanceStep(c, s, step);
    LoggedStep(c, s, step);
  }

  lemma {:induction false} InvHolds(c: Config, steps: seq<Step>)
    ensures Inv(c, Run(c, INITIAL, steps))
  {
    if steps != [] {
      InvHolds(c, steps[..|steps| - 1]);
      InvStep(c, Run(c, INITIAL, steps[..|steps| - 1]), steps[|steps| - 1]);
    }
  }

  // ----- Main results -----

  /** A mutation whose row was never deleted reaches a handler at most once, over every interleaving. */
  lemma DispatchedAtMostOnce(c: Config, steps: seq<Step>, id: Uuid)
    requires id !in Run(c, INITIAL, steps).books.forgotten
    ensures Calls(Run(c, INITIAL, steps).trace.log)[id] <= 1
  {
    InvHolds(c, steps);
  }

  /** Every handler call ran for a captured descriptor whose runtime and activation were still in force. */
  lemma DispatchedOnlyWhenCurrent(c: Config, steps: seq<Step>, i: nat)
    requires i < |Run(c, INITIAL, steps).trace.log|
    ensures Trusted(c, Run(c, INITIAL, steps).trace.log[i])
    ensures Run(c, INITIAL, steps).trace.log[i].d in Run(c, INITIAL, steps).trace.captured
  {
    InvHolds(c, steps);
  }

  ghost predicate HeldByOne(s: State, id: Uuid) {
    exists h :: Held(s, h) == Some(id) && forall h' :: Held(s, h') == Some(id) ==> h' == h
  }

  ghost predicate HeldByNone(s: State, id: Uuid) {
    forall h :: Held(s, h) != Some(id)
  }

  /** An accepted row has exactly one holder or was abandoned, never both; any other row has no holder. */
  lemma ClaimsAreConserved(c: Config, steps: seq<Step>, id: Uuid)
    ensures var s := Run(c, INITIAL, steps);
      && (id in s.books.journal && s.books.journal[id].Accepted? <==> HeldByOne(s, id) || id in s.books.abandoned)
      && !(HeldByOne(s, id) && id in s.books.abandoned)
      && (HeldByOne(s, id) || HeldByNone(s, id))
  {
    InvHolds(c, steps);
    var s := Run(c, INITIAL, steps);
    if h :| Held(s, h) == Some(id) {
      assert forall h' :: Held(s, h') == Some(id) ==> h' == h;
      assert HeldByOne(s, id);
    }
  }

  /** Once terminal, a retained row never changes: the unconditional UPDATE only ever meets an accepted row. */
  lemma TerminalIsFinal(c: Config, steps: seq<Step>, step: Step, id: Uuid)
    requires id in Run(c, INITIAL, steps).books.journal && !Run(c, INITIAL, steps).books.journal[id].Accepted?
    ensures var s := Run(c, INITIAL, steps);
      var s' := Do(c, s, step);
      if step.Restart? && id in step.expired then id !in s'.books.journal
      else id in s'.books.journal && s'.books.journal[id] == s.books.journal[id]
    ensures !step.Restart? ==>
      Do(c, Run(c, INITIAL, steps), step).books.settled[id] == Run(c, INITIAL, steps).books.settled[id]
  {
    InvHolds(c, steps);
    if !step.Restart? {
      OnlyHoldersFinish(c, Run(c, INITIAL, steps), step, id);
    }
  }

  /** Between restarts a terminal status is written at most once for a row, and only over an accepted one. */
  lemma SettledAtMostOnce(c: Config, steps: seq<Step>, id: Uuid)
    ensures var s := Run(c, INITIAL, steps);
      s.books.settled[id] <= 1 && (s.books.settled[id] == 1 ==> id in s.books.journal && !s.books.journal[id].Accepted?)
  {
    InvHolds(c, steps);
    assert Run(c, INITIAL, steps).books.settled[id] > 0 ==> id in Run(c, INITIAL, steps).books.settled;
  }

  /** A row nobody holds is not written. */
  lemma OnlyHoldersFinish(c: Config, s: State, step: Step, id: Uuid)
    requires !step.Restart? && id in s.books.journal && HeldByNone(s, id)
    ensures var s' := Do(c, s, step);
      && id in s'.books.journal && s'.books.journal[id] == s.books.journal[id]
      && s'.books.settled[id] == s.books.settled[id]
  {
    if step.Reject? || step.Refuse? || step.Settle? || step.DrainWrite? {
      assert Held(s, InTask(step.task)) != Some(id);
    }
  }

  /** A row that failed before execution never reached a handler. */
  lemma BeforeExecutionNeverRan(c: Config, steps: seq<Step>, id: Uuid)
    requires var s := Run(c, INITIAL, steps);
      id in s.books.journal && BeforeExecution(s.books.journal[id]) && id !in s.books.forgotten
    ensures Calls(Run(c, INITIAL, steps).trace.log)[id] == 0
  {
    InvHolds(c, steps);
  }

  /** Restart turns exactly the rows still held or abandoned, and not expired, into uncertain ones. */
  lemma RestartSettlesLeftovers(c: Config, steps: seq<Step>, expired: set<Uuid>, id: Uuid)
    ensures var s := Run(c, INITIAL, steps);
      var s' := Do(c, s, Restart(expired));
      && (id in s'.books.journal <==> id in s.books.journal && id !in expired)
      && (id in s'.books.journal ==>
            && !s'.books.journal[id].Accepted?
            && (s'.books.journal[id] != s.books.journal[id] <==> HeldByOne(s, id) || id in s.books.abandoned)
            && (s'.books.journal[id] != s.books.journal[id] ==> s'.books.journal[id] == Uncertain(true)))
  {
    ClaimsAreConserved(c, steps, id);
  }

  /** A descriptor that stops being current stays so: no later runtime or activation revives it. */
  lemma {:induction false} StaleForever(c: Config, steps: seq<Step>, more: seq<Step>, d: Descriptor)
    requires d in Run(c, INITIAL, steps).trace.captured && !Current(c, Run(c, INITIAL, steps), d)
    ensures !Current(c, Run(c, Run(c, INITIAL, steps), more), d)
  {
    InvHolds(c, steps);
    StaysStale(c, Run(c, INITIAL, steps), more, d);
  }

  lemma {:induction false} StaysStale(c: Config, s: State, more: seq<Step>, d: Descriptor)
    requires Below(s) && d in s.trace.captured && !Current(c, s, d)
    ensures Below(Run(c, s, more)) && d in Run(c, s, more).trace.captured && !Current(c, Run(c, s, more), d)
  {
    if more != [] {
      var before := Run(c, s, more[..|more| - 1]);
      StaysStale(c, s, more[..|more| - 1], d);
      BelowStep(c, before, more[|more| - 1]);
      StaleStep(c, before, more[|more| - 1], d);
    }
  }

  lemma StaleStep(c: Config, s: State, step: Step, d: Descriptor)
    requires Below(s) && d in s.trace.captured && !Current(c, s, d)
    ensures d in Do(c, s, step).trace.captured && !Current(c, Do(c, s, step), d)
  {
    if ChangesObjects(step) {
      StaleObjectStep(c, s, step, d);
    } else {
      ObjectsKept(c, s, step);
    }
  }

  lemma StaleObjectStep(c: Config, s: State, step: Step, d: Descriptor)
    requires Below(s) && d in s.trace.captured && !Current(c, s, d) && ChangesObjects(step)
    ensures d in Do(c, s, step).trace.captured && !Current(c, Do(c, s, step), d)
  {
    match step
    case Install(_, _) =>
    case SetTopic(channel, topic, task) => StaleTopicStep(c, s, channel, topic, task, d);
    case Deactivate(_) =>
    case Ingress(_, _, _, _) =>
    case DrainNext(task) => DrainKeepsObjects(s, task);
    case Restart(_) =>
  }

  lemma StaleTopicStep(c: Config, s: State, channel: Channel, topic: Topic, task: nat, d: Descriptor)
    requires Below(s) && d in s.trace.captured && !Current(c, s, d)
    ensures !Current(c, DoSetTopic(c, s, channel, topic, task), d)
  {
  }

  // ----- A claimed action does get served -----

  /** A new mutation on an active channel is claimed and reaches the tail of the channel's queue. */
  lemma NewActionIsQueued(c: Config, s: State, task: nat, channel: Channel, id: Uuid)
    requires !s.closed && channel in s.channels && s.channels[channel].activation.Some?
    requires var r := s.channels[channel];
      r.activation.value.account == c.owner && r.activation.value.backend == r.backend
    requires s.channels[channel].identity in s.queues && task !in s.tasks && id !in s.books.journal
    ensures var r := s.channels[channel];
      var d := Descriptor(id, true, channel, r.identity, r.activation.value);
      Do(c, Do(c, Do(c, s, Ingress(task, channel, id, true)), Claim(task)), Enqueue(task))
      == s.(trace := s.trace.(captured := s.trace.captured + {d}),
            books := s.books.(journal := s.books.journal[id := Accepted]),
            queues := s.queues[r.identity := Put(s.queues[r.identity], d)])
  {
    var r := s.channels[channel];
    var d := Descriptor(id, true, channel, r.identity, r.activation.value);
    var s1 := Do(c, s, Ingress(task, channel, id, true));
    assert s1 == s.(trace := s.trace.(captured := s.trace.captured + {d}), tasks := s.tasks[task := Claiming(d)]);
    assert Do(c, s1, Claim(task))
      == s1.(books := s.books.(journal := s.books.journal[id := Accepted]), tasks := s.tasks[task := Announcing(d)]);
    assert s.tasks[task := Announcing(d)] - {task} == s.tasks;
  }

  /** An idle worker of the channel runs a current queue head to its outcome. */
  lemma HeadIsRun(c: Config, s: State, worker: nat, outcome: Status)
    requires worker in s.tasks && s.tasks[worker].Worker? && s.tasks[worker].state.Idle?
    requires Waiting(s, s.tasks[worker].queue) && IsOutcome(outcome)
    requires var d := Head(s, s.tasks[worker].queue); d.claimed && Current(c, s, d) && d.id in s.books.journal
    ensures var id := Head(s, s.tasks[worker].queue).id;
      var s' := Do(c, Do(c, Do(c, s, Take(worker)), HandlerEnds(worker, outcome)), Settle(worker));
      && s'.books.journal == s.books.journal[id := outcome]
      && s'.books.dispatched == s.books.dispatched + multiset{id} && s'.tasks == s.tasks
  {
    var q := s.tasks[worker].queue;
    var d := Head(s, q);
    var s1 := Do(c, s, Take(worker));
    assert s1.tasks == s.tasks[worker := Worker(q, Running(d))];
    assert Do(c, s1, HandlerEnds(worker, outcome)).tasks == s.tasks[worker := Worker(q, Settling(d, outcome))];
  }
}
