/**
 When a queued prompt may be delivered twice. A drain raises its channel's busy flag to keep other
 drains of the same queue out until its prompt is out of the store; this module says exactly which
 steps defeat that.
 */
module DrainOverlap {
  import opened Common
  import opened Draining
  import PQ = PromptQueue

  // ----- The claim on a queue -----

  ghost predicate Live(s: State, t: nat, k: PQ.Key) {
    t in s.drains && Key(s.drains[t]) == k
  }

  /** At most one drain works on the queue. */
  ghost predicate Apart(s: State, k: PQ.Key) {
    forall t, u :: Live(s, t, k) && Live(s, u, k) ==> t == u
  }

  predicate Registered(s: State, channel: Channel) {
    channel in s.bridge.channels && s.bridge.channels[channel] in s.bridge.runtimes
  }

  /** The channel's present runtime is bound to the queue's session. */
  predicate Bound(s: State, k: PQ.Key) {
    && Registered(s, k.channel)
    && s.bridge.runtimes[s.bridge.channels[k.channel]].binding.Some?
    && s.bridge.runtimes[s.bridge.channels[k.channel]].binding.value.session == k.session
  }

  /** And nothing but a suspension or a close in progress keeps a drain from starting there. */
  predicate Unclaimed(s: State, k: PQ.Key) {
    Bound(s, k) && !s.bridge.runtimes[s.bridge.channels[k.channel]].busy
  }

  /** One drain at most, and while there is one, no other can start. */
  ghost predicate Guarded(s: State, k: PQ.Key) {
    Apart(s, k) && forall t :: Live(s, t, k) ==> !Unclaimed(s, k)
  }

  /** A turn event that clears the flag of the bound runtime, or binding the session to it without the flag. */
  predicate Frees(s: State, k: PQ.Key, step: Step) {
    && Registered(s, k.channel)
    && var present := s.bridge.channels[k.channel];
       match step
       case SetTurn(runtime, busy, _) => runtime == present && !busy && Bound(s, k)
       case Rebind(runtime, session, busy, _) => runtime == present && !busy && session == k.session
       case _ => false
  }

  /** Freeing the queue while a drain works on it. */
  ghost predicate Opens(s: State, k: PQ.Key, step: Step) {
    Frees(s, k, step) && exists t :: Live(s, t, k)
  }

  /** A runtime belongs to one channel, also in the eyes of the drains that captured it. */
  ghost predicate Housed(s: State) {
    && (forall c, e :: c in s.bridge.channels && e in s.bridge.channels ==>
          s.bridge.channels[c] == s.bridge.channels[e] ==> c == e)
    && (forall c :: c in s.bridge.channels ==> s.bridge.channels[c] in s.bridge.runtimes)
    && (forall t, c :: t in s.drains && c in s.bridge.channels && s.bridge.channels[c] == s.drains[t].identity ==>
          c == s.drains[t].channel)
  }

  ghost predicate Sane(s: State) {
    Numbered(s) && Housed(s)
  }

  lemma StepHouses(s: State, step: Step)
    requires Sane(s)
    ensures Sane(Do(s, step))
  {
    StepNumbers(s, step);
    if IsChannelStep(step) {
      ChannelStepTasks(s, step);
      ChannelStepHouses(s, step);
    } else if step.StartDrain? {
      StartHouses(s, step.channel);
    } else if DrainOf(step).Some? {
      DrainBindings(s, step);
      DrainTasks(s, step);
    }
  }

  lemma ChannelStepHouses(s: State, step: Step)
    requires Sane(s) && IsChannelStep(step)
    ensures Housed(Do(s, step))
  {
    ChannelStepTasks(s, step);
    if !step.Install? && !step.Uninstall? {
      assert Do(s, step).bridge.channels == s.bridge.channels;
    }
  }

  lemma StartHouses(s: State, channel: Channel)
    requires Sane(s)
    ensures Housed(DoStart(s, channel))
  {
  }

  // ----- Which steps defeat the claim -----

  lemma ChannelStepGuards(s: State, k: PQ.Key, step: Step)
    requires Sane(s) && Guarded(s, k) && IsChannelStep(step) && !Opens(s, k, step)
    ensures Guarded(Do(s, step), k)
  {
    ChannelStepTasks(s, step);
    var s' := Do(s, step);
    forall t | Live(s', t, k) ensures Live(s, t, k) && !Unclaimed(s', k) {
      assert Live(s, t, k);
      if Unclaimed(s', k) {
        ChannelStepClaims(s, k, step);
      }
    }
  }

  lemma ChannelStepClaims(s: State, k: PQ.Key, step: Step)
    requires Sane(s) && IsChannelStep(step) && !Frees(s, k, step) && Unclaimed(Do(s, step), k)
    ensures Unclaimed(s, k)
  {
  }

  lemma StartGuards(s: State, k: PQ.Key, channel: Channel)
    requires Sane(s) && Guarded(s, k)
    ensures Guarded(DoStart(s, channel), k)
  {
    var s' := DoStart(s, channel);
    if s' != s {
      var d := s'.drains[s.next];
      assert s.next !in s.drains && s'.drains == s.drains[s.next := d];
      forall t | Live(s', t, k) && t != s.next ensures Live(s, t, k) {
      }
      if Key(d) == k {
        assert Unclaimed(s, k) && !Unclaimed(s', k);
      } else {
        assert Unclaimed(s', k) ==> Unclaimed(s, k);
      }
    }
  }

  /** Only a drain of the queue itself can unclaim it by releasing its runtime. */
  lemma ReleaseFrees(s: State, k: PQ.Key, d: Drain)
    requires Holds(s, d) && !Unclaimed(s, k) && Unclaimed(Release(s, d), k)
    requires forall c :: c in s.bridge.channels && s.bridge.channels[c] == d.identity ==> c == d.channel
    ensures Key(d) == k
  {
  }

  /** A drain that ends may release the flag, but then no drain of its queue is left. */
  lemma EndGuards(s: State, k: PQ.Key, task: nat, s': State)
    requires Sane(s) && Guarded(s, k) && task in s.drains
    requires s'.drains == s.drains - {task}
    requires s'.bridge == s.bridge || (Holds(s, s.drains[task]) && s'.bridge == Release(s, s.drains[task]).bridge)
    ensures Guarded(s', k)
  {
    forall t | Live(s', t, k) ensures Live(s, t, k) && !Unclaimed(s', k) {
      assert Live(s, t, k);
      if Unclaimed(s', k) {
        ReleaseFrees(s, k, s.drains[task]);
        assert Live(s, task, k);
      }
    }
  }

  /** A drain that goes on sets a turn at most. */
  lemma GoOnGuards(s: State, k: PQ.Key, step: Step)
    requires Sane(s) && Guarded(s, k) && (step.ReadHead? || step.Resume? || step.SendOk?)
    requires step.task in Do(s, step).drains
    ensures Guarded(Do(s, step), k)
  {
    var s' := Do(s, step);
    DrainTasks(s, step);
    if Unclaimed(s', k) {
      GoOnClaims(s, k, step);
    }
    forall t | Live(s', t, k) ensures Live(s, t, k) {
    }
  }

  lemma GoOnClaims(s: State, k: PQ.Key, step: Step)
    requires (step.ReadHead? || step.Resume? || step.SendOk?) && step.task in Do(s, step).drains
    requires Unclaimed(Do(s, step), k)
    ensures Unclaimed(s, k)
  {
  }

  lemma ActGuards(s: State, k: PQ.Key, step: Step)
    requires Sane(s) && Guarded(s, k) && DrainOf(step).Some?
    ensures Guarded(Do(s, step), k)
  {
    var task := DrainOf(step).value;
    var s' := Do(s, step);
    if task !in s.drains {
      SameTasksGuard(s, k, s');
    } else if task !in s'.drains {
      EndGuards(s, k, task, s');
    } else if step.ReadHead? || step.Resume? || step.SendOk? {
      GoOnGuards(s, k, step);
    } else {
      SameTasksGuard(s, k, s');
    }
  }

  lemma SameTasksGuard(s: State, k: PQ.Key, s': State)
    requires Guarded(s, k) && s'.drains == s.drains && s'.bridge == s.bridge
    ensures Guarded(s', k)
  {
    assert forall t :: Live(s', t, k) ==> Live(s, t, k);
  }

  /** A step leaves the queue guarded exactly when it does not free it under a drain. */
  lemma StepGuards(s: State, k: PQ.Key, step: Step)
    requires Sane(s) && Guarded(s, k)
    ensures Guarded(Do(s, step), k) <==> !Opens(s, k, step)
  {
    if Opens(s, k, step) {
      OpensUnguards(s, k, step);
    } else if IsChannelStep(step) {
      ChannelStepGuards(s, k, step);
    } else if step.StartDrain? {
      StartGuards(s, k, step.channel);
    } else if DrainOf(step).Some? {
      ActGuards(s, k, step);
    } else {
      StoreStepGuards(s, k, step);
    }
  }

  lemma StoreStepGuards(s: State, k: PQ.Key, step: Step)
    requires Guarded(s, k) && (step.StartEnqueue? || step.CommitEnqueue? || step.Request?)
    ensures Guarded(Do(s, step), k)
  {
    SameTasksGuard(s, k, Do(s, step));
  }

  lemma OpensUnguards(s: State, k: PQ.Key, step: Step)
    requires Opens(s, k, step)
    ensures Unclaimed(Do(s, step), k) && Do(s, step).drains == s.drains && Do(s, step).books == s.books
    ensures !Guarded(Do(s, step), k)
  {
    var t :| Live(s, t, k);
    assert Live(Do(s, step), t, k);
  }

  // ----- Over whole runs -----

  /** No step of the run frees the queue while a drain works on it. */
  ghost predicate NeverOpens(s: State, k: PQ.Key, steps: seq<Step>)
    decreases |steps|
  {
    steps == [] ||
    (NeverOpens(s, k, steps[..|steps| - 1]) && !Opens(Run(s, steps[..|steps| - 1]), k, steps[|steps| - 1]))
  }

  lemma {:induction false} RunGuards(s: State, k: PQ.Key, steps: seq<Step>)
    requires Sane(s) && Guarded(s, k) && NeverOpens(s, k, steps)
    ensures Sane(Run(s, steps)) && Guarded(Run(s, steps), k)
    decreases |steps|
  {
    if steps != [] {
      var n := |steps| - 1;
      RunGuards(s, k, steps[..n]);
      StepHouses(Run(s, steps[..n]), steps[n]);
      StepGuards(Run(s, steps[..n]), k, steps[n]);
    }
  }

  /** As long as nothing frees a queue under its drain, at most one drain works on it. */
  lemma DrainsExclude(steps: seq<Step>, k: PQ.Key)
    requires NeverOpens(START, k, steps)
    ensures Apart(Run(START, steps), k)
  {
    RunGuards(START, k, steps);
  }

  /** The steps that let a drain start on an unclaimed queue. */
  function Starting(s: State, k: PQ.Key): seq<Step>
    requires Registered(s, k.channel)
  {
    var r := s.bridge.channels[k.channel];
    [SetActivation(r, true), SetClosing(r, false), StartDrain(k.channel)]
  }

  lemma RunThree(s: State, a: Step, b: Step, c: Step)
    ensures Run(s, [a, b, c]) == Do(Do(Do(s, a), b), c)
  {
    var steps := [a, b, c];
    assert steps[..2] == [a, b] && [a, b][..1] == [a] && [a][..0] == [];
    assert Run(s, [a]) == Do(Run(s, []), a);
    assert Run(s, [a, b]) == Do(Run(s, [a]), b);
  }

  /** On an unclaimed queue a drain can start, whatever else is going on. */
  lemma StartingStarts(s: State, k: PQ.Key)
    requires Numbered(s) && Unclaimed(s, k)
    ensures Started(s, k, Run(s, Starting(s, k)))
  {
    var r := s.bridge.channels[k.channel];
    var b := s.bridge.runtimes[r].(activation := Some(s.next), closing := false);
    RunThree(s, SetActivation(r, true), SetClosing(r, false), StartDrain(k.channel));
    var s2 := s.(bridge := s.bridge.(runtimes := s.bridge.runtimes[r := b]), next := s.next + 1);
    Activated(s, r);
    FreeStarts(s2, k.channel);
    assert s2.bridge.runtimes[r := b.(busy := true)] == s.bridge.runtimes[r := b.(busy := true)];
  }

  lemma Activated(s: State, r: nat)
    requires r in s.bridge.runtimes
    ensures Do(Do(s, SetActivation(r, true)), SetClosing(r, false))
         == s.(bridge := s.bridge.(runtimes :=
                 s.bridge.runtimes[r := s.bridge.runtimes[r].(activation := Some(s.next), closing := false)]),
               next := s.next + 1)
  {
    var s1 := Do(s, SetActivation(r, true));
    assert Do(s1, SetClosing(r, false)).bridge.runtimes
        == s.bridge.runtimes[r := s.bridge.runtimes[r].(activation := Some(s.next), closing := false)];
  }

  ghost predicate Started(s: State, k: PQ.Key, s': State)
    requires Unclaimed(s, k)
  {
    var r := s.bridge.channels[k.channel];
    && s'.drains == s.drains[s.next + 1 := Drain(k.channel, r, s.bridge.runtimes[r].binding.value, s.next, Listing)]
    && s'.books == s.books && s'.next == s.next + 2
    && s'.bridge == s.bridge.(runtimes :=
         s.bridge.runtimes[r := s.bridge.runtimes[r].(activation := Some(s.next), closing := false, busy := true)])
  }

  lemma FreeStarts(s: State, channel: Channel)
    requires Registered(s, channel)
    requires var r := s.bridge.runtimes[s.bridge.channels[channel]];
      r.activation.Some? && r.binding.Some? && !r.busy && !r.closing
    ensures var i := s.bridge.channels[channel]; var r := s.bridge.runtimes[i];
      DoStart(s, channel) == s.(
        bridge := s.bridge.(runtimes := s.bridge.runtimes[i := r.(busy := true)]),
        drains := s.drains[s.next := Drain(channel, i, r.binding.value, r.activation.value, Listing)],
        next := s.next + 1)
  {
  }

  /** Steps that no queue minds. */
  predicate Plain(step: Step) {
    !step.SetTurn? && !step.Rebind? && !step.SendLost? && !step.Abandon?
  }

  lemma {:induction false} PlainNeverOpens(s: State, k: PQ.Key, steps: seq<Step>)
    requires forall i :: 0 <= i < |steps| ==> Plain(steps[i])
    ensures NeverOpens(s, k, steps)
    decreases |steps|
  {
    if steps != [] {
      PlainNeverOpens(s, k, steps[..|steps| - 1]);
    }
  }

  /**
   Guarding is exactly what it takes: in a guarded state drains stay apart whatever comes, short of
   freeing the queue under one, and in any other state two drains of the queue can meet.
   */
  lemma GuardedIff(s: State, k: PQ.Key)
    requires Sane(s)
    ensures Guarded(s, k) <==> forall more :: NeverOpens(s, k, more) ==> Apart(Run(s, more), k)
  {
    if Guarded(s, k) {
      forall more | NeverOpens(s, k, more) ensures Apart(Run(s, more), k) {
        RunGuards(s, k, more);
      }
    } else {
      DrainsMeet(s, k);
    }
  }

  lemma DrainsMeet(s: State, k: PQ.Key)
    requires Sane(s) && !Guarded(s, k)
    ensures exists more :: NeverOpens(s, k, more) && !Apart(Run(s, more), k)
  {
    if !Apart(s, k) {
      var none: seq<Step> := [];
      assert NeverOpens(s, k, none) && Run(s, none) == s;
    } else {
      var t :| Live(s, t, k) && Unclaimed(s, k);
      var more := Starting(s, k);
      PlainNeverOpens(s, k, more);
      StartingStarts(s, k);
      assert Live(Run(s, more), t, k) && Live(Run(s, more), s.next + 1, k);
      assert NeverOpens(s, k, more) && !Apart(Run(s, more), k);
    }
  }
}
