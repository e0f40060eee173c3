/** What raises a channel's busy flag and what lowers it. */
module DrainFlags {
  import opened Common
  import opened Draining
  import PQ = PromptQueue
  import DrainResults

  predicate Busy(s: State, runtime: nat) {
    runtime in s.bridge.runtimes && s.bridge.runtimes[runtime].busy
  }

  // ----- One step of a drain -----

  /** The drain ends before a backend accepted anything from it, its binding still in place. */
  ghost predicate GivesUp(s: State, step: Step, task: nat) {
    && DrainOf(step) == Some(task) && task in s.drains && task !in Do(s, step).drains
    && !s.drains[task].pc.Removing? && Holds(s, s.drains[task])
  }

  /** A drain's step never raises a flag, and lowers one exactly when the drain gives up: that of its runtime. */
  lemma DrainLowersIff(s: State, step: Step, task: nat, runtime: nat)
    requires DrainOf(step) == Some(task) && task in s.drains
    ensures Busy(Do(s, step), runtime) <==>
      Busy(s, runtime) && !(GivesUp(s, step, task) && s.drains[task].identity == runtime)
  {
    match step
    case ReadHead(_) =>
    case Resume(_) => ResumeLowers(s, task, runtime);
    case SendOk(_, turn) => SendOkLeaves(s, task, turn, runtime);
    case SendLost(_) => ReleaseLowers(s, s.drains[task], runtime);
    case Fail(_) => ReleaseLowers(s, s.drains[task], runtime);
    case Remove(_) =>
    case Abandon(_) =>
  }

  lemma ReleaseLowers(s: State, d: Drain, runtime: nat)
    ensures Busy(Release(s, d), runtime) <==> Busy(s, runtime) && !(Holds(s, d) && d.identity == runtime)
  {
  }

  lemma ResumeLowers(s: State, task: nat, runtime: nat)
    requires task in s.drains
    ensures Busy(DoResume(s, task), runtime) <==>
      Busy(s, runtime) && !(GivesUp(s, Resume(task), task) && s.drains[task].identity == runtime)
  {
    ReleaseLowers(s, s.drains[task], runtime);
  }

  lemma SendOkLeaves(s: State, task: nat, turn: Option<string>, runtime: nat)
    requires task in s.drains
    ensures Busy(DoSendOk(s, task, turn), runtime) <==> Busy(s, runtime)
    ensures task in DoSendOk(s, task, turn).drains
  {
  }

  /** So a drain that ends with nothing delivered leaves its channel free. */
  lemma EndedIsFree(s: State, step: Step, task: nat)
    requires GivesUp(s, step, task)
    ensures !Busy(Do(s, step), s.drains[task].identity)
  {
    DrainLowersIff(s, step, task, s.drains[task].identity);
  }

  /** The turn a backend answers becomes the runtime's turn exactly while the drain's binding is in place. */
  lemma AnswerIsTheTurn(s: State, task: nat, turn: Option<string>, runtime: nat)
    requires task in s.drains && s.drains[task].pc.Sending? && runtime in s.bridge.runtimes
    ensures var s' := Do(s, SendOk(task, turn));
      && runtime in s'.bridge.runtimes
      && s'.bridge.runtimes[runtime].turn
         == if Holds(s, s.drains[task])
           && s.drains[task].identity == runtime then turn else s.bridge.runtimes[runtime].turn
  {
  }

  // ----- When drains start and when they hand a prompt over -----

  /** A drain starts exactly on an active, bound, idle channel whose session is not being closed. */
  lemma StartsIff(s: State, channel: Channel)
    requires Numbered(s)
    ensures s.next in Do(s, StartDrain(channel)).drains <==>
      && channel in s.bridge.channels && s.bridge.channels[channel] in s.bridge.runtimes
      && var r := s.bridge.runtimes[s.bridge.channels[channel]];
         r.activation.Some? && r.binding.Some? && !r.busy && !r.closing
    ensures s.next in Do(s, StartDrain(channel)).drains ==>
      Current(Do(s, StartDrain(channel)), Do(s, StartDrain(channel)).drains[s.next]) || s.bridge.closed
  {
  }

  /** A removed channel has no drain; installed again it has a runtime that no drain captured, idle and unbound. */
  lemma InstalledIsNew(s: State, channel: Channel)
    requires Numbered(s)
    ensures forall t :: t in s.drains && s.drains[t].channel == channel ==>
      !Current(Do(s, Uninstall(channel)), s.drains[t])
    ensures var s' := Do(s, Install(channel));
      if channel in s.bridge.channels then s' == s
      else
        && channel in s'.bridge.channels && s'.bridge.channels[channel] in s'.bridge.runtimes
        && s'.bridge.runtimes[s'.bridge.channels[channel]] == Runtime(None, None, false, None, false)
        && s'.drains == s.drains && forall t :: t in s.drains ==> s.drains[t].identity != s'.bridge.channels[channel]
  {
  }

  /** What a drain read is handed to the backend exactly if the channel is still as the drain found it. */
  lemma HandsOverIff(s: State, task: nat, item: PQ.Prompt)
    requires task in s.drains && s.drains[task].pc == Listed(Some(item))
    ensures var d, s' := s.drains[task], Do(s, Resume(task));
      && (task in s'.drains <==>
            && !s.bridge.closed && d.channel in s.bridge.channels && s.bridge.channels[d.channel] == d.identity
            && d.identity in s.bridge.runtimes
            && s.bridge.runtimes[d.identity].activation == Some(d.activation)
            && s.bridge.runtimes[d.identity].binding == Some(d.binding))
      && (task in s'.drains ==> s'.drains[task] == d.(pc := Sending(item)))
      && s'.books == s.books
  {
  }

  /** A prompt for a bound, busy channel sets out for the queue of the session bound there, and none for an idle one. */
  lemma EntersIff(s: State, channel: Channel, id: string, text: string, limit: int)
    requires Numbered(s) && id !in s.books.used
    requires channel in s.bridge.channels && s.bridge.channels[channel] in s.bridge.runtimes
    ensures var r, s' := s.bridge.runtimes[s.bridge.channels[channel]], Do(s, StartEnqueue(channel, id, text, limit));
      && (s.next in s'.entering <==> r.binding.Some? && r.busy)
      && (s.next in s'.entering ==>
            s'.entering[s.next] == Entering(PQ.Key(channel, r.binding.value.session), id, text, limit))
  {
  }

  /** It reaches the tail of that queue exactly when there is room. */
  lemma CommitsIff(steps: seq<Step>, task: nat, now: int)
    requires task in Run(START, steps).entering
    ensures var s := Run(START, steps);
      var e, s' := s.entering[task], Do(s, CommitEnqueue(task, now));
      var q := PQ.Q(s.books.queues, e.key);
      && PQ.Q(s'.books.queues, e.key) == (if |q| < e.limit then q + [PQ.Prompt(e.id, e.text, now)] else q)
      && (PQ.Holds(s'.books.queues, e.key, e.id) <==> |q| < e.limit)
  {
    DrainResults.RunKeeps(steps);
    var s := Run(START, steps);
    var e := s.entering[task];
    var q := PQ.Q(s.books.queues, e.key);
    assert !PQ.Holds(s.books.queues, e.key, e.id);
    Appends(q, PQ.Prompt(e.id, e.text, now));
  }

  lemma Appends(q: seq<PQ.Prompt>, item: PQ.Prompt)
    requires PQ.IndexOf(q, item.id) == |q|
    ensures PQ.IndexOf(q + [item], item.id) < |q + [item]|
  {
    Has(q, item.id);
    Has(q + [item], item.id);
    InAppended(q, item, item.id);
  }

  // ----- Over whole runs -----

  /** A turn event or an attach that raises the flag. */
  predicate Raises(s: State, step: Step, runtime: nat) {
    runtime in s.bridge.runtimes &&
    match step
    case SetTurn(r, busy, _) => r == runtime && busy
    case Rebind(r, _, busy, _) => r == runtime && busy
    case _ => false
  }

  ghost predicate Starts(s: State, step: Step, runtime: nat, task: nat) {
    && step.StartDrain? && task !in s.drains && task in Do(s, step).drains
    && Do(s, step).drains[task].identity == runtime
  }

  /** The drain has its binding, and nothing delivered yet. */
  predicate Working(s: State, task: nat, runtime: nat) {
    && task in s.drains && s.drains[task].identity == runtime
    && Holds(s, s.drains[task]) && !s.drains[task].pc.Removing?
  }

  /** A backend accepts the drain's prompt. */
  predicate Sends(s: State, step: Step, task: nat) {
    step.SendOk? && step.task == task && task in s.drains && s.drains[task].pc.Sending?
  }

  ghost predicate Stood(steps: seq<Step>, runtime: nat, n: nat) {
    forall m :: n < m <= |steps| ==> Busy(Run(START, steps[..m]), runtime)
  }

  ghost predicate RaisedAt(steps: seq<Step>, runtime: nat, n: nat) {
    n < |steps| && Raises(Run(START, steps[..n]), steps[n], runtime) && Stood(steps, runtime, n)
  }

  ghost predicate RaisedByEvent(steps: seq<Step>, runtime: nat) {
    exists n: nat :: RaisedAt(steps, runtime, n)
  }

  ghost predicate Delivered(steps: seq<Step>, task: nat) {
    exists n: nat :: n < |steps| && Sends(Run(START, steps[..n]), steps[n], task)
  }

  ghost predicate StartedAt(steps: seq<Step>, runtime: nat, task: nat, n: nat) {
    n < |steps| && Starts(Run(START, steps[..n]), steps[n], runtime, task) && Stood(steps, runtime, n)
  }

  /** By a drain that is still at it, or whose prompt a backend accepted. */
  ghost predicate RaisedByDrain(steps: seq<Step>, runtime: nat) {
    exists n: nat, task: nat ::
      StartedAt(steps, runtime, task, n) && (Working(Run(START, steps), task, runtime) || Delivered(steps, task))
  }

  /** Where a raised flag comes from, in one step. */
  lemma BusyFrom(s: State, step: Step, runtime: nat)
    requires Busy(Do(s, step), runtime) && !Busy(s, runtime) && Numbered(s)
    ensures Raises(s, step, runtime) || (Starts(s, step, runtime, s.next) && Working(Do(s, step), s.next, runtime))
  {
    if DrainOf(step).Some? {
      if DrainOf(step).value in s.drains {
        DrainLowersIff(s, step, DrainOf(step).value, runtime);
      }
    } else if step.StartDrain? {
      StartRaises(s, step.channel, runtime);
    }
  }

  lemma StartRaises(s: State, channel: Channel, runtime: nat)
    requires Busy(DoStart(s, channel), runtime) && !Busy(s, runtime) && Numbered(s)
    ensures Starts(s, StartDrain(channel), runtime, s.next) && Working(DoStart(s, channel), s.next, runtime)
  {
  }

  /** A drain at work stays at work while the flag stands, until its prompt is accepted or an event takes over. */
  lemma WorkingStays(s: State, step: Step, runtime: nat, task: nat)
    requires Working(s, task, runtime) && Busy(s, runtime) && Busy(Do(s, step), runtime) && Numbered(s)
    requires !Raises(s, step, runtime) && !Sends(s, step, task)
    ensures Working(Do(s, step), task, runtime)
  {
    if DrainOf(step) == Some(task) {
      OwnStep(s, step, runtime, task);
    } else if DrainOf(step).Some? {
      DrainBindings(s, step);
      OthersStep(s, step, task);
    } else if IsChannelStep(step) {
      ChannelStepTasks(s, step);
      ChannelStepHolds(s, step, runtime, task);
    }
  }

  lemma OwnStep(s: State, step: Step, runtime: nat, task: nat)
    requires Working(s, task, runtime) && Busy(Do(s, step), runtime) && DrainOf(step) == Some(task)
    requires !Sends(s, step, task)
    ensures Working(Do(s, step), task, runtime)
  {
    DrainLowersIff(s, step, task, runtime);
    DrainBindings(s, step);
  }

  lemma OthersStep(s: State, step: Step, task: nat)
    requires DrainOf(step).Some? && DrainOf(step) != Some(task) && task in s.drains
    ensures task in Do(s, step).drains && Do(s, step).drains[task] == s.drains[task]
  {
  }

  lemma ChannelStepHolds(s: State, step: Step, runtime: nat, task: nat)
    requires IsChannelStep(step) && Working(s, task, runtime) && Busy(Do(s, step), runtime)
    requires !Raises(s, step, runtime) && Numbered(s)
    ensures runtime in Do(s, step).bridge.runtimes
    ensures Do(s, step).bridge.runtimes[runtime].binding == s.bridge.runtimes[runtime].binding
  {
  }

  lemma StoodOn(steps: seq<Step>, runtime: nat, n: nat)
    requires steps != [] && n < |steps| && Busy(Run(START, steps), runtime)
    requires n < |steps| - 1 ==> Stood(steps[..|steps| - 1], runtime, n)
    ensures Stood(steps, runtime, n)
  {
    forall m | n < m <= |steps| ensures Busy(Run(START, steps[..m]), runtime) {
      if m < |steps| {
        assert steps[..|steps| - 1][..m] == steps[..m];
      } else {
        assert steps[..m] == steps;
      }
    }
  }

  lemma EventOn(steps: seq<Step>, runtime: nat)
    requires steps != [] && Busy(Run(START, steps), runtime) && RaisedByEvent(steps[..|steps| - 1], runtime)
    ensures RaisedByEvent(steps, runtime)
  {
    var before := steps[..|steps| - 1];
    var n: nat :| RaisedAt(before, runtime, n);
    assert before[..n] == steps[..n];
    StoodOn(steps, runtime, n);
    assert RaisedAt(steps, runtime, n);
  }

  lemma StartedOn(steps: seq<Step>, runtime: nat, task: nat, n: nat)
    requires steps != [] && Busy(Run(START, steps), runtime) && StartedAt(steps[..|steps| - 1], runtime, task, n)
    ensures StartedAt(steps, runtime, task, n)
  {
    assert steps[..|steps| - 1][..n] == steps[..n];
    StoodOn(steps, runtime, n);
  }

  lemma DeliveredOn(steps: seq<Step>, task: nat)
    requires steps != [] && Delivered(steps[..|steps| - 1], task)
    ensures Delivered(steps, task)
  {
    var before := steps[..|steps| - 1];
    var n: nat :| n < |before| && Sends(Run(START, before[..n]), before[n], task);
    assert before[..n] == steps[..n];
  }

  /**
   Every raised flag is accounted for: ever since a turn event or an attach raised it, or ever since a
   drain did that still has nothing delivered, or has.
   */
  lemma {:induction false} FlagIsAccounted(steps: seq<Step>, runtime: nat)
    requires Busy(Run(START, steps), runtime)
    ensures RaisedByEvent(steps, runtime) || RaisedByDrain(steps, runtime)
    decreases |steps|
  {
    var n := |steps| - 1;
    var s, step := Run(START, steps[..n]), steps[n];
    DrainResults.RunKeeps(steps[..n]);
    if Raises(s, step, runtime) {
      StoodOn(steps, runtime, n);
      assert RaisedAt(steps, runtime, n);
    } else if !Busy(s, runtime) {
      BusyFrom(s, step, runtime);
      StoodOn(steps, runtime, n);
      assert StartedAt(steps, runtime, s.next, n);
    } else {
      FlagIsAccounted(steps[..n], runtime);
      if RaisedByEvent(steps[..n], runtime) {
        EventOn(steps, runtime);
      } else {
        DrainOn(steps, runtime);
      }
    }
  }

  lemma DrainOn(steps: seq<Step>, runtime: nat)
    requires steps != [] && RaisedByDrain(steps[..|steps| - 1], runtime) && Busy(Run(START, steps), runtime)
    requires var s := Run(START, steps[..|steps| - 1]);
      Numbered(s) && Busy(s, runtime) && !Raises(s, steps[|steps| - 1], runtime)
    ensures RaisedByDrain(steps, runtime)
  {
    var last := |steps| - 1;
    var s, step := Run(START, steps[..last]), steps[last];
    var n: nat, task: nat :| StartedAt(steps[..last], runtime, task, n)
                             && (Working(s, task, runtime) || Delivered(steps[..last], task));
    StartedOn(steps, runtime, task, n);
    if Delivered(steps[..last], task) {
      DeliveredOn(steps, task);
    } else if Sends(s, step, task) {
      assert Delivered(steps, task);
    } else {
      WorkingStays(s, step, runtime, task);
    }
  }
}
