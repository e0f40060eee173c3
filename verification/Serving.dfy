/** How a channel's actions are served: by one worker, one at a time, in the order they were queued. */
module Serving {
  import opened Common
  import opened Actions
  import ActionResults

  // ----- One worker -----

  predicate Serves(s: State, t: nat) {
    t in s.tasks && s.tasks[t].Worker?
  }

  ghost predicate OneWorker(s: State) {
    forall t, u :: Serves(s, t) && Serves(s, u) && s.tasks[t].queue == s.tasks[u].queue ==> t == u
  }

  /** Workers keep to their queues, and none is new. */
  ghost predicate WorkersFrom(s: State, s': State) {
    forall t :: Serves(s', t) ==> Serves(s, t) && s.tasks[t].queue == s'.tasks[t].queue
  }

  lemma StartKeepsOneWorker(s: State, task: nat, channel: Channel)
    requires OneWorker(s)
    ensures OneWorker(DoStartWorker(s, task, channel))
  {
  }

  lemma SetupKeepsWorkers(c: Config, s: State, step: Step)
    requires !ServesRow(step) && !step.StartWorker?
    ensures WorkersFrom(s, Do(c, s, step))
  {
  }

  lemma RowKeepsWorkers(c: Config, s: State, step: Step)
    requires ServesRow(step) && !step.Take?
    ensures WorkersFrom(s, Do(c, s, step))
  {
  }

  lemma TakeKeepsWorkers(c: Config, s: State, task: nat)
    ensures WorkersFrom(s, DoTake(c, s, task))
  {
  }

  lemma OneWorkerStep(c: Config, s: State, step: Step)
    requires OneWorker(s)
    ensures OneWorker(Do(c, s, step))
  {
    if step.StartWorker? {
      StartKeepsOneWorker(s, step.task, step.channel);
    } else if step.Take? {
      TakeKeepsWorkers(c, s, step.task);
    } else if ServesRow(step) {
      RowKeepsWorkers(c, s, step);
    } else {
      SetupKeepsWorkers(c, s, step);
    }
  }

  // ----- In the order of the queue -----

  /** The descriptors of one queue that reached a handler, in the order of the calls. */
  function Called(log: seq<Dispatch>, q: nat): seq<Descriptor>
    decreases |log|
  {
    if log == [] then []
    else
      var n := |log| - 1;
      Called(log[..n], q) + if log[n].d.identity == q then [log[n].d] else []
  }

  /** `a` is `b` with some entries left out. */
  predicate Sublist<T(==)>(a: seq<T>, b: seq<T>)
    decreases |b|
  {
    if a == [] then true
    else if b == [] then false
    else
      || (a[|a| - 1] == b[|b| - 1] && Sublist(a[..|a| - 1], b[..|b| - 1]))
      || Sublist(a, b[..|b| - 1])
  }

  lemma SublistSkips<T>(a: seq<T>, b: seq<T>, x: T)
    requires Sublist(a, b)
    ensures Sublist(a, b + [x])
  {
    assert (b + [x])[..|b|] == b;
  }

  lemma SublistTakes<T>(a: seq<T>, b: seq<T>, x: T)
    requires Sublist(a, b)
    ensures Sublist(a + [x], b + [x])
  {
    assert (b + [x])[..|b|] == b && (a + [x])[..|a|] == a;
  }

  function Gone(q: Queue): seq<Descriptor>
    requires q.taken <= |q.items|
  {
    q.items[..q.taken]
  }

  ghost predicate InQueueOrder(s: State)
    requires Shape(s)
  {
    forall q :: q in s.queues ==> Sublist(Called(s.trace.log, q), Gone(s.queues[q]))
  }

  /** Nothing was called for a queue that does not exist yet. */
  lemma {:induction false} NotYetCalled(log: seq<Dispatch>, q: nat)
    requires forall i :: 0 <= i < |log| ==> log[i].d.identity < q
    ensures Called(log, q) == []
    decreases |log|
  {
    if log != [] {
      NotYetCalled(log[..|log| - 1], q);
    }
  }

  /** What was taken from any queue stays taken, and the calls are the same. */
  ghost predicate SameGone(s: State, s': State)
    requires Shape(s) && Shape(s')
  {
    && s'.trace.log == s.trace.log
    && forall q :: q in s'.queues ==>
         if q in s.queues then Gone(s'.queues[q]) == Gone(s.queues[q]) else q >= s.nextObject
  }

  lemma SameGoneKeepsOrder(c: Config, s: State, s': State)
    requires Shape(s) && Shape(s') && InQueueOrder(s) && SameGone(s, s') && Below(s) && Logged(c, s)
    ensures InQueueOrder(s')
  {
    forall q | q in s'.queues ensures Sublist(Called(s'.trace.log, q), Gone(s'.queues[q])) {
      if q !in s.queues {
        NotYetCalled(s.trace.log, q);
      }
    }
  }

  lemma PutKeepsGone(q: Queue, d: Descriptor)
    requires q.taken <= |q.items|
    ensures Gone(Put(q, d)) == Gone(q)
  {
  }

  lemma SetupKeepsGone(c: Config, s: State, step: Step)
    requires Shape(s) && Shape(Do(c, s, step)) && Numbered(s) && !ServesRow(step)
    ensures SameGone(s, Do(c, s, step))
  {
    if step.Ingress? && step.channel in s.channels && s.channels[step.channel].identity in s.queues {
      var r := s.channels[step.channel];
      if r.activation.Some? {
        PutKeepsGone(s.queues[r.identity],
                     Descriptor(step.id, step.tracked, step.channel, r.identity, r.activation.value));
      }
    }
  }

  lemma EnqueueKeepsGone(c: Config, s: State, task: nat)
    requires Shape(s) && Shape(DoEnqueue(c, s, task))
    ensures SameGone(s, DoEnqueue(c, s, task))
  {
    if task in s.tasks && s.tasks[task].Announcing? && s.tasks[task].d.identity in s.queues {
      PutKeepsGone(s.queues[s.tasks[task].d.identity], s.tasks[task].d);
    }
  }

  lemma RowKeepsGone(c: Config, s: State, step: Step)
    requires Shape(s) && Shape(Do(c, s, step)) && ServesRow(step) && !step.Enqueue? && !step.Take? && !step.DrainNext?
    ensures SameGone(s, Do(c, s, step))
  {
  }

  /** Taking the head of one queue, with or without calling a handler for it. */
  lemma PopKeepsOrder(s: State, s': State, q: nat)
    requires Shape(s) && Shape(s') && InQueueOrder(s) && Waiting(s, q) && s'.queues == Pop(s, q).queues
    requires Head(s, q).identity == q
    requires s'.trace.log == s.trace.log
          || (s'.trace.log != [] && s'.trace.log[..|s'.trace.log| - 1] == s.trace.log
              && s'.trace.log[|s'.trace.log| - 1].d == Head(s, q))
    ensures InQueueOrder(s')
  {
    var d := Head(s, q);
    assert Gone(s'.queues[q]) == Gone(s.queues[q]) + [d];
    SublistSkips(Called(s.trace.log, q), Gone(s.queues[q]), d);
    SublistTakes(Called(s.trace.log, q), Gone(s.queues[q]), d);
    forall p | p in s'.queues ensures Sublist(Called(s'.trace.log, p), Gone(s'.queues[p])) {
      if p != q {
        assert Called(s'.trace.log, p) == Called(s.trace.log, p);
      }
    }
  }

  lemma TakeKeepsOrder(c: Config, s: State, task: nat)
    requires Shape(s) && Shape(DoTake(c, s, task)) && Provenance(s) && InQueueOrder(s)
    ensures InQueueOrder(DoTake(c, s, task))
  {
    if task in s.tasks && s.tasks[task].Worker? && s.tasks[task].state.Idle? && Waiting(s, s.tasks[task].queue) {
      PopKeepsOrder(s, DoTake(c, s, task), s.tasks[task].queue);
    }
  }

  lemma DrainKeepsOrder(s: State, task: nat)
    requires Shape(s) && Shape(DoDrainNext(s, task)) && Provenance(s) && InQueueOrder(s)
    ensures InQueueOrder(DoDrainNext(s, task))
  {
    if task in s.tasks && s.tasks[task].Draining? && s.tasks[task].current.None? && Waiting(s, s.tasks[task].queue) {
      PopKeepsOrder(s, DoDrainNext(s, task), s.tasks[task].queue);
    }
  }

  lemma OrderStep(c: Config, s: State, step: Step)
    requires Shape(s) && Shape(Do(c, s, step)) && Numbered(s) && Below(s) && Provenance(s) && Logged(c, s)
    requires InQueueOrder(s)
    ensures InQueueOrder(Do(c, s, step))
  {
    if step.Take? {
      TakeKeepsOrder(c, s, step.task);
    } else if step.DrainNext? {
      DrainKeepsOrder(s, step.task);
    } else {
      KeepsGone(c, s, step);
      SameGoneKeepsOrder(c, s, Do(c, s, step));
    }
  }

  lemma KeepsGone(c: Config, s: State, step: Step)
    requires Shape(s) && Shape(Do(c, s, step)) && Numbered(s) && !step.Take? && !step.DrainNext?
    ensures SameGone(s, Do(c, s, step))
  {
    if step.Enqueue? {
      EnqueueKeepsGone(c, s, step.task);
    } else if ServesRow(step) {
      RowKeepsGone(c, s, step);
    } else {
      SetupKeepsGone(c, s, step);
    }
  }

  // ----- Every reachable state -----

  lemma {:induction false} ServingHolds(c: Config, steps: seq<Step>)
    ensures var s := Run(c, INITIAL, steps);
      ActionResults.Inv(c, s) && OneWorker(s) && InQueueOrder(s)
  {
    if steps == [] {
      ActionResults.InvHolds(c, []);
    } else {
      var n := |steps| - 1;
      ServingHolds(c, steps[..n]);
      OneWorkerStep(c, Run(c, INITIAL, steps[..n]), steps[n]);
      ActionResults.InvStep(c, Run(c, INITIAL, steps[..n]), steps[n]);
      OrderStep(c, Run(c, INITIAL, steps[..n]), steps[n]);
    }
  }

  ghost predicate RunsHandler(s: State, task: nat, q: nat) {
    task in s.tasks && s.tasks[task].Worker? && s.tasks[task].state.Running? && s.tasks[task].queue == q
  }

  /** No two handlers of one channel run at once: a call is made only when the one before it has ended. */
  lemma OneAtATime(c: Config, steps: seq<Step>, step: Step, task: nat, other: nat, q: nat)
    requires RunsHandler(Run(c, INITIAL, steps), other, q)
    ensures RunsHandler(Run(c, INITIAL, steps), task, q) ==> task == other
    ensures var s := Run(c, INITIAL, steps); Called(Do(c, s, step).trace.log, q) == Called(s.trace.log, q)
  {
    ServingHolds(c, steps);
    var s := Run(c, INITIAL, steps);
    if step.Take? {
      TakeIsIdle(c, s, step.task, other, q);
    } else {
      OnlyTakeLogs(c, s, step);
    }
  }

  lemma TakeIsIdle(c: Config, s: State, task: nat, other: nat, q: nat)
    requires OneWorker(s) && Provenance(s) && RunsHandler(s, other, q)
    ensures Called(DoTake(c, s, task).trace.log, q) == Called(s.trace.log, q)
  {
    var s' := DoTake(c, s, task);
    if s'.trace.log != s.trace.log {
      assert s.tasks[task].queue != q;
      assert Head(s, s.tasks[task].queue).identity == s.tasks[task].queue;
      assert s'.trace.log[..|s'.trace.log| - 1] == s.trace.log;
    }
  }

  /** The calls of a queue follow its order: they are what was taken from it, less what was refused. */
  lemma CalledInQueueOrder(c: Config, steps: seq<Step>, q: nat)
    requires q in Run(c, INITIAL, steps).queues
    ensures var s := Run(c, INITIAL, steps);
      s.queues[q].taken <= |s.queues[q].items|
        && Sublist(Called(s.trace.log, q), s.queues[q].items[..s.queues[q].taken])
  {
    ServingHolds(c, steps);
    assert Shape(Run(c, INITIAL, steps));
  }
}
