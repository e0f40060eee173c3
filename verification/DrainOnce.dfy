/**
 How often a queued prompt is delivered: once, unless a queue is freed under its drain or an answer
 is lost while the prompt is still stored; and after either, a second time in some run.
 */
module DrainOnce {
  import opened Common
  import opened Draining
  import opened DrainOverlap
  import PQ = PromptQueue

  /** How often backends accepted a prompt for the queue's session. */
  function Count(s: State, k: PQ.Key, id: string): nat {
    s.books.accepted[Delivery(id, k.session)]
  }

  /** Some drain of the queue has delivered the prompt and is about to remove it. */
  ghost predicate BeingRemoved(s: State, k: PQ.Key, id: string) {
    exists t :: Live(s, t, k) && s.drains[t].pc.Removing? && s.drains[t].pc.item.id == id
  }

  /** A prompt that a drain is still to deliver. */
  function Ahead(pc: Pc): Option<string> {
    match pc
    case Listed(head) => if head.Some? then Some(head.value.id) else None
    case Sending(item) => Some(item.id)
    case _ => None
  }

  ghost predicate AtMostOnce(s: State, k: PQ.Key) {
    forall id :: id in s.books.queued && s.books.queued[id] == k ==> Count(s, k, id) <= 1
  }

  ghost predicate StoredIsNew(s: State, k: PQ.Key) {
    forall id :: PQ.Holds(s.books.queues, k, id) && Count(s, k, id) > 0 ==> BeingRemoved(s, k, id)
  }

  ghost predicate AheadIsNew(s: State, k: PQ.Key) {
    forall t :: Live(s, t, k) && Ahead(s.drains[t].pc).Some? ==> Count(s, k, Ahead(s.drains[t].pc).value) == 0
  }

  /** The queue's prompts were delivered once at most, and those still to deliver not at all. */
  ghost predicate Once(s: State, k: PQ.Key) {
    && Guarded(s, k) && PQ.DistinctIds(PQ.Q(s.books.queues, k))
    && AtMostOnce(s, k) && StoredIsNew(s, k) && AheadIsNew(s, k)
  }

  /** A drain gives up on an accepted prompt that is still stored. */
  ghost predicate Loses(s: State, k: PQ.Key, step: Step) {
    match step
    case SendLost(t) => Live(s, t, k) && s.drains[t].pc.Sending? && PQ.Holds(s.books.queues, k, s.drains[t].pc.item.id)
    case Abandon(t) => Live(s, t, k) && s.drains[t].pc.Removing? && PQ.Holds(s.books.queues, k, s.drains[t].pc.item.id)
    case _ => false
  }

  // ----- Steps that keep the guarantee -----

  lemma DistinctAfter(qs: PQ.Queues, op: PQ.Op, k: PQ.Key)
    requires PQ.DistinctIds(PQ.Q(qs, k))
    ensures PQ.DistinctIds(PQ.Q(PQ.Step(qs, op), k))
  {
    var q := PQ.Q(qs, k);
    PQ.StepOnOne(qs, op, k);
    match op
    case Add(item, key, _) =>
      if PQ.Q(PQ.Step(qs, op), k) != q {
        assert !PQ.Holds(qs, k, item.id);
        Has(q, item.id);
      }
    case Edit(id, text) =>
    case Delete(id) =>
    case Clear(_) =>
    case Move(id, position) =>
      if PQ.IndexOf(q, id) < |q| {
        PQ.MoveBack(q, id, position);
      }
  }

  /** Nothing is accepted, and whoever is still to deliver something delivers something new. */
  lemma QuietOnce(s: State, s': State, k: PQ.Key)
    requires Once(s, k) && Guarded(s', k) && PQ.DistinctIds(PQ.Q(s'.books.queues, k))
    requires s'.books.accepted == s.books.accepted
    requires forall id :: id in s'.books.queued && s'.books.queued[id] == k ==>
      (id in s.books.queued && s.books.queued[id] == k) || Count(s, k, id) == 0
    requires forall id :: PQ.Holds(s'.books.queues, k, id) ==> PQ.Holds(s.books.queues, k, id) || Count(s, k, id) == 0
    requires forall id :: PQ.Holds(s'.books.queues, k, id) && BeingRemoved(s, k, id) ==> BeingRemoved(s', k, id)
    requires AheadIsNew(s', k)
    ensures Once(s', k)
  {
    forall id | PQ.Holds(s'.books.queues, k, id) && Count(s', k, id) > 0 ensures BeingRemoved(s', k, id) {
      assert PQ.Holds(s.books.queues, k, id);
    }
  }

  lemma RemovingStays(s: State, s': State, k: PQ.Key)
    requires forall t :: Live(s, t, k) && s.drains[t].pc.Removing? ==> t in s'.drains && s'.drains[t] == s.drains[t]
    ensures forall id :: BeingRemoved(s, k, id) ==> BeingRemoved(s', k, id)
  {
    forall id | BeingRemoved(s, k, id) ensures BeingRemoved(s', k, id) {
      var t :| Live(s, t, k) && s.drains[t].pc.Removing? && s.drains[t].pc.item.id == id;
      assert Live(s', t, k);
    }
  }

  lemma TasksStayOnce(s: State, s': State, k: PQ.Key)
    requires Once(s, k) && Guarded(s', k) && SameStore(s, s')
    requires forall t :: Live(s', t, k) ==>
      (Live(s, t, k) && s'.drains[t] == s.drains[t]) || Ahead(s'.drains[t].pc).None?
    requires forall t :: Live(s, t, k) && s.drains[t].pc.Removing? ==> t in s'.drains && s'.drains[t] == s.drains[t]
    ensures Once(s', k)
  {
    RemovingStays(s, s', k);
    QuietOnce(s, s', k);
  }

  lemma ChannelStepOnce(s: State, k: PQ.Key, step: Step)
    requires Once(s, k) && IsChannelStep(step) && Guarded(Do(s, step), k)
    ensures Once(Do(s, step), k)
  {
    ChannelStepTasks(s, step);
    TasksStayOnce(s, Do(s, step), k);
  }

  lemma StartOnce(s: State, k: PQ.Key, channel: Channel)
    requires Numbered(s) && Once(s, k) && Guarded(DoStart(s, channel), k)
    ensures Once(DoStart(s, channel), k)
  {
    TasksStayOnce(s, DoStart(s, channel), k);
  }

  lemma ReadHeadOnce(s: State, k: PQ.Key, task: nat)
    requires Once(s, k) && Guarded(DoReadHead(s, task), k)
    ensures Once(DoReadHead(s, task), k)
  {
    var s' := DoReadHead(s, task);
    if Live(s, task, k) && s.drains[task].pc.Listing? {
      var q := PQ.Q(s.books.queues, k);
      assert s'.drains == s.drains[task := s.drains[task].(pc := Listed(if q == [] then None else Some(q[0])))];
      if q != [] {
        HeadIsNew(s, k, task);
      }
      forall t | Live(s', t, k) && Ahead(s'.drains[t].pc).Some?
        ensures Count(s', k, Ahead(s'.drains[t].pc).value) == 0
      {
        assert Live(s, t, k);
      }
      assert forall t :: Live(s, t, k) ==> t == task;
      assert forall id :: !BeingRemoved(s, k, id);
      QuietOnce(s, s', k);
    } else {
      TasksStayOnce(s, s', k);
    }
  }

  lemma HeadIsNew(s: State, k: PQ.Key, task: nat)
    requires Once(s, k) && Live(s, task, k) && s.drains[task].pc.Listing? && PQ.Q(s.books.queues, k) != []
    ensures Count(s, k, PQ.Q(s.books.queues, k)[0].id) == 0
  {
    var id := PQ.Q(s.books.queues, k)[0].id;
    assert PQ.IndexOf(PQ.Q(s.books.queues, k), id) == 0;
    assert PQ.Holds(s.books.queues, k, id);
    assert forall t :: Live(s, t, k) ==> t == task;
    assert !BeingRemoved(s, k, id);
  }

  lemma ResumeOnce(s: State, k: PQ.Key, task: nat)
    requires Once(s, k) && Guarded(DoResume(s, task), k)
    ensures Once(DoResume(s, task), k)
  {
    var s' := DoResume(s, task);
    assert SameStore(s, s');
    forall t | Live(s', t, k) && Ahead(s'.drains[t].pc).Some?
      ensures Count(s', k, Ahead(s'.drains[t].pc).value) == 0
    {
      assert Live(s, t, k) && Ahead(s'.drains[t].pc) == Ahead(s.drains[t].pc);
    }
    RemovingStays(s, s', k);
    QuietOnce(s, s', k);
  }

  lemma FailOnce(s: State, k: PQ.Key, task: nat)
    requires Once(s, k) && Guarded(DoFail(s, task), k)
    ensures Once(DoFail(s, task), k)
  {
    TasksStayOnce(s, DoFail(s, task), k);
  }

  /** A backend accepts what a drain is sending; what is still stored then is about to be removed. */
  lemma AcceptOnce(s: State, s': State, k: PQ.Key, task: nat, item: PQ.Prompt)
    requires Inv(s) && Once(s, k) && Guarded(s', k)
    requires task in s.drains && s.drains[task].pc == Sending(item)
    requires var delivery := Delivery(item.id, s.drains[task].binding.session);
      s'.books == s.books.(accepted := s.books.accepted + multiset{delivery})
    requires forall t :: t in s'.drains && t != task ==> t in s.drains && s'.drains[t] == s.drains[t]
    requires forall t :: t in s.drains && t != task ==> t in s'.drains && s'.drains[t] == s.drains[t]
    requires task in s'.drains ==> s'.drains[task] == s.drains[task].(pc := Removing(item))
    requires Live(s, task, k) && PQ.Holds(s.books.queues, k, item.id) ==> task in s'.drains
    ensures Once(s', k)
  {
    var d := s.drains[task];
    assert Carried(s, d);
    forall id | id in s'.books.queued && s'.books.queued[id] == k ensures Count(s', k, id) <= 1 {
      if id == item.id {
        assert Live(s, task, k);
        assert Ahead(d.pc) == Some(id);
      }
    }
    forall id | PQ.Holds(s'.books.queues, k, id) && Count(s', k, id) > 0 ensures BeingRemoved(s', k, id) {
      assert id in s.books.queued && s.books.queued[id] == k;
      if id == item.id {
        assert Live(s, task, k) && Live(s', task, k);
      } else {
        var t :| Live(s, t, k) && s.drains[t].pc.Removing? && s.drains[t].pc.item.id == id;
        assert Live(s', t, k);
      }
    }
    forall t | Live(s', t, k) && Ahead(s'.drains[t].pc).Some?
      ensures Count(s', k, Ahead(s'.drains[t].pc).value) == 0
    {
      assert Live(s, t, k) && Carried(s, s.drains[t]);
      assert Ahead(s'.drains[t].pc).value == item.id ==> Live(s, task, k);
    }
  }

  lemma SendOkOnce(s: State, k: PQ.Key, task: nat, turn: Option<string>)
    requires Inv(s) && Once(s, k) && Guarded(DoSendOk(s, task, turn), k)
    ensures Once(DoSendOk(s, task, turn), k)
  {
    if task in s.drains && s.drains[task].pc.Sending? {
      AcceptOnce(s, DoSendOk(s, task, turn), k, task, s.drains[task].pc.item);
    }
  }

  lemma SendLostOnce(s: State, k: PQ.Key, task: nat)
    requires Inv(s) && Once(s, k) && Guarded(DoSendLost(s, task), k) && !Loses(s, k, SendLost(task))
    ensures Once(DoSendLost(s, task), k)
  {
    if task in s.drains && s.drains[task].pc.Sending? {
      AcceptOnce(s, DoSendLost(s, task), k, task, s.drains[task].pc.item);
    }
  }

  /** A stored prompt has one home. */
  lemma HomeIsHere(s: State, k: PQ.Key, id: string)
    requires Inv(s) && PQ.Holds(s.books.queues, k, id)
    ensures PQ.Stored(s.books.queues, id) && PQ.Home(s.books.queues, id) == k
  {
    assert PQ.Stored(s.books.queues, id);
    assert PQ.Holds(s.books.queues, PQ.Home(s.books.queues, id), id);
  }

  lemma RemoveOnce(s: State, k: PQ.Key, task: nat)
    requires Inv(s) && Once(s, k) && Guarded(DoRemove(s, task), k)
    ensures Once(DoRemove(s, task), k)
  {
    if task in s.drains && s.drains[task].pc.Removing? {
      var s', gone := DoRemove(s, task), s.drains[task].pc.item.id;
      var op := PQ.Op.Delete(gone);
      DistinctAfter(s.books.queues, op, k);
      forall id | PQ.Holds(s'.books.queues, k, id) ensures PQ.Holds(s.books.queues, k, id) && id != gone {
        StoredAfter(s.books.queues, op, k, id);
        if id == gone {
          HomeIsHere(s, k, id);
          PQ.WithoutHasNone(PQ.Q(s.books.queues, k), id);
        }
      }
      forall id | PQ.Holds(s'.books.queues, k, id) && BeingRemoved(s, k, id) ensures BeingRemoved(s', k, id) {
        var t :| Live(s, t, k) && s.drains[t].pc.Removing? && s.drains[t].pc.item.id == id;
        assert Live(s', t, k);
      }
      assert forall t :: Live(s', t, k) ==> Live(s, t, k);
      QuietOnce(s, s', k);
    }
  }

  lemma AbandonOnce(s: State, k: PQ.Key, task: nat)
    requires Once(s, k) && Guarded(DoAbandon(s, task), k) && !Loses(s, k, Abandon(task))
    ensures Once(DoAbandon(s, task), k)
  {
    var s' := DoAbandon(s, task);
    forall id | PQ.Holds(s'.books.queues, k, id) && BeingRemoved(s, k, id) ensures BeingRemoved(s', k, id) {
      var t :| Live(s, t, k) && s.drains[t].pc.Removing? && s.drains[t].pc.item.id == id;
      assert Live(s', t, k);
    }
    assert forall t :: Live(s', t, k) ==> Live(s, t, k);
    QuietOnce(s, s', k);
  }

  lemma StoreStepOnce(s: State, k: PQ.Key, step: Step)
    requires Inv(s) && Once(s, k) && (step.StartEnqueue? || step.CommitEnqueue? || step.Request?)
    requires Guarded(Do(s, step), k)
    ensures Once(Do(s, step), k)
  {
    var s' := Do(s, step);
    assert s'.drains == s.drains && s'.books.accepted == s.books.accepted;
    match step
    case StartEnqueue(_, _, _, _) => SameBooksOnce(s, s', k);
    case CommitEnqueue(task, now) => CommitOnce(s, k, task, now);
    case Request(op) =>
      if !op.Add? {
        DistinctAfter(s.books.queues, op, k);
        forall id | PQ.Holds(s'.books.queues, k, id) ensures PQ.Holds(s.books.queues, k, id) {
          StoredAfter(s.books.queues, op, k, id);
        }
        SameBooksOnce(s, s', k);
      }
  }

  lemma SameBooksOnce(s: State, s': State, k: PQ.Key)
    requires Once(s, k) && Guarded(s', k) && PQ.DistinctIds(PQ.Q(s'.books.queues, k))
    requires s'.drains == s.drains && s'.books.accepted == s.books.accepted && s'.books.queued == s.books.queued
    requires forall id :: PQ.Holds(s'.books.queues, k, id) ==> PQ.Holds(s.books.queues, k, id)
    ensures Once(s', k)
  {
    assert forall t :: Live(s', t, k) <==> Live(s, t, k);
    RemovingStays(s, s', k);
    QuietOnce(s, s', k);
  }

  lemma CommitOnce(s: State, k: PQ.Key, task: nat, now: int)
    requires Inv(s) && Once(s, k) && Guarded(DoCommitEnqueue(s, task, now), k)
    ensures Once(DoCommitEnqueue(s, task, now), k)
  {
    if task in s.entering {
      var e, s' := s.entering[task], DoCommitEnqueue(s, task, now);
      var op := PQ.Op.Add(PQ.Prompt(e.id, e.text, now), e.key, e.limit);
      DistinctAfter(s.books.queues, op, k);
      assert Count(s, k, e.id) == 0 by {
        assert Delivery(e.id, k.session) !in s.books.accepted;
      }
      forall id | PQ.Holds(s'.books.queues, k, id) ensures PQ.Holds(s.books.queues, k, id) || Count(s, k, id) == 0 {
        StoredAfter(s.books.queues, op, k, id);
      }
      assert forall t :: Live(s', t, k) <==> Live(s, t, k);
      RemovingStays(s, s', k);
      QuietOnce(s, s', k);
    }
  }

  /** Short of freeing the queue under its drain and of losing an answer, every step keeps the guarantee. */
  lemma StepOnce(s: State, k: PQ.Key, step: Step)
    requires Inv(s) && Sane(s) && Once(s, k) && !Opens(s, k, step) && !Loses(s, k, step)
    ensures Once(Do(s, step), k)
  {
    StepGuards(s, k, step);
    match step
    case StartDrain(channel) => StartOnce(s, k, channel);
    case ReadHead(task) => ReadHeadOnce(s, k, task);
    case Resume(task) => ResumeOnce(s, k, task);
    case SendOk(task, turn) => SendOkOnce(s, k, task, turn);
    case SendLost(task) => SendLostOnce(s, k, task);
    case Fail(task) => FailOnce(s, k, task);
    case Remove(task) => RemoveOnce(s, k, task);
    case Abandon(task) => AbandonOnce(s, k, task);
    case StartEnqueue(_, _, _, _) => StoreStepOnce(s, k, step);
    case CommitEnqueue(_, _) => StoreStepOnce(s, k, step);
    case Request(_) => StoreStepOnce(s, k, step);
    case _ => ChannelStepOnce(s, k, step);
  }

  // ----- Over whole runs -----

  /** A run without a step that frees the queue under its drain or loses an answer. */
  ghost predicate Careful(s: State, k: PQ.Key, steps: seq<Step>)
    decreases |steps|
  {
    steps == [] ||
    (var before, step := Run(s, steps[..|steps| - 1]), steps[|steps| - 1];
     Careful(s, k, steps[..|steps| - 1]) && !Opens(before, k, step) && !Loses(before, k, step))
  }

  lemma {:induction false} RunOnce(s: State, k: PQ.Key, steps: seq<Step>)
    requires Inv(s) && Sane(s) && Once(s, k) && Careful(s, k, steps)
    ensures Inv(Run(s, steps)) && Sane(Run(s, steps)) && Once(Run(s, steps), k)
    decreases |steps|
  {
    if steps != [] {
      var n := |steps| - 1;
      RunOnce(s, k, steps[..n]);
      StepKeeps(Run(s, steps[..n]), steps[n]);
      StepHouses(Run(s, steps[..n]), steps[n]);
      StepOnce(Run(s, steps[..n]), k, steps[n]);
    }
  }

  lemma StartIsOnce(k: PQ.Key)
    ensures Inv(START) && Sane(START) && Once(START, k)
  {
    forall other, id ensures !PQ.Holds(START.books.queues, other, id) {
    }
  }

  /** Over any careful run from the start, a prompt of the queue is delivered once at most. */
  lemma DeliveredOnce(steps: seq<Step>, k: PQ.Key, id: string)
    requires Careful(START, k, steps)
    requires id in Run(START, steps).books.queued && Run(START, steps).books.queued[id] == k
    ensures Count(Run(START, steps), k, id) <= 1
  {
    StartIsOnce(k);
    RunOnce(START, k, steps);
  }

  // ----- What a step that breaks it leads to -----

  lemma {:induction false} RunAppend(s: State, a: seq<Step>, b: seq<Step>)
    ensures Run(s, a + b) == Run(Run(s, a), b)
    decreases |b|
  {
    if b == [] {
      assert a + b == a;
    } else {
      var n := |b| - 1;
      assert (a + b)[..|a + b| - 1] == a + b[..n] && (a + b)[|a + b| - 1] == b[n];
      RunAppend(s, a, b[..n]);
    }
  }

  lemma RunCons(s: State, a: Step, b: seq<Step>)
    ensures Run(s, [a] + b) == Run(Do(s, a), b)
  {
    RunAppend(s, [a], b);
    assert Run(s, [a]) == Do(Run(s, []), a);
  }

  lemma {:induction false} CarefulThen(s: State, k: PQ.Key, a: seq<Step>, b: seq<Step>)
    requires Careful(s, k, a) && forall i :: 0 <= i < |b| ==> Plain(b[i])
    ensures Careful(s, k, a + b)
    decreases |b|
  {
    if b == [] {
      assert a + b == a;
    } else {
      var n := |b| - 1;
      assert (a + b)[..|a + b| - 1] == a + b[..n] && (a + b)[|a + b| - 1] == b[n];
      CarefulThen(s, k, a, b[..n]);
    }
  }

  ghost predicate SendingHead(s: State, s': State, k: PQ.Key)
    requires PQ.Q(s.books.queues, k) != []
  {
    && Live(s', s.next + 1, k) && s'.drains[s.next + 1].pc == Sending(PQ.Q(s.books.queues, k)[0])
    && s'.books == s.books && Bound(s', k)
    && s'.bridge.closed == s.bridge.closed && s'.bridge.channels == s.bridge.channels
  }

  /** A new drain of an unclaimed queue takes its head to the backend. */
  lemma SendsHead(s: State, k: PQ.Key)
    requires Numbered(s) && Unclaimed(s, k) && !s.bridge.closed && PQ.Q(s.books.queues, k) != []
    ensures Given(SendingHead(s, Run(s, Starting(s, k) + [ReadHead(s.next + 1), Resume(s.next + 1)]), k))
  {
    var u, s1 := s.next + 1, Run(s, Starting(s, k));
    StartingStarts(s, k);
    RunAppend(s, Starting(s, k), [ReadHead(u), Resume(u)]);
    RunTwo(s1, ReadHead(u), Resume(u));
    TakesHead(s, s1, k);
  }

  lemma TakesHead(s: State, s1: State, k: PQ.Key)
    requires Unclaimed(s, k) && !s.bridge.closed && PQ.Q(s.books.queues, k) != [] && Started(s, k, s1)
    ensures SendingHead(s, Do(Do(s1, ReadHead(s.next + 1)), Resume(s.next + 1)), k)
  {
    var u := s.next + 1;
    var s2 := DoReadHead(s1, u);
    assert s2 == s1.(drains := s1.drains[u := s1.drains[u].(pc := Listed(Some(PQ.Q(s.books.queues, k)[0])))]);
    assert Current(s2, s2.drains[u]) && Holds(s2, s2.drains[u]);
    assert DoResume(s2, u) == SetPc(s2, u, Sending(PQ.Q(s.books.queues, k)[0]));
  }

  lemma RunTwo(s: State, a: Step, b: Step)
    ensures Run(s, [a, b]) == Do(Do(s, a), b)
  {
    assert [a, b][..1] == [a] && [a][..0] == [];
    assert Run(s, [a]) == Do(Run(s, []), a);
  }

  /** And delivers it. */
  function Delivering(s: State, k: PQ.Key): seq<Step>
    requires Registered(s, k.channel)
  {
    Starting(s, k) + [ReadHead(s.next + 1), Resume(s.next + 1)] + [SendOk(s.next + 1, None)]
  }

  lemma DeliversHead(s: State, k: PQ.Key, id: string)
    requires Numbered(s) && Unclaimed(s, k) && !s.bridge.closed
    requires PQ.Q(s.books.queues, k) != [] && PQ.Q(s.books.queues, k)[0].id == id
    ensures Count(Run(s, Delivering(s, k)), k, id) == Count(s, k, id) + 1
  {
    var steps := Starting(s, k) + [ReadHead(s.next + 1), Resume(s.next + 1)];
    SendsHead(s, k);
    RunSnoc(s, steps, SendOk(s.next + 1, None));
    HeadCounts(s, Run(s, steps), k, id);
  }

  lemma HeadCounts(s: State, s1: State, k: PQ.Key, id: string)
    requires PQ.Q(s.books.queues, k) != [] && PQ.Q(s.books.queues, k)[0].id == id && Given(SendingHead(s, s1, k))
    ensures Count(Do(s1, SendOk(s.next + 1, None)), k, id) == Count(s, k, id) + 1
  {
    SendOkCounts(s1, s.next + 1, k, id);
  }

  lemma RunSnoc(s: State, a: seq<Step>, b: Step)
    ensures Run(s, a + [b]) == Do(Run(s, a), b)
  {
    assert (a + [b])[..|a + [b]| - 1] == a;
  }

  lemma SendOkCounts(s: State, t: nat, k: PQ.Key, id: string)
    requires Live(s, t, k) && s.drains[t].pc.Sending? && s.drains[t].pc.item.id == id
    ensures Count(Do(s, SendOk(t, None)), k, id) == Count(s, k, id) + 1
  {
  }

  /** Requests that delete whatever is queued before a prompt. */
  function Clearing(q: seq<PQ.Prompt>, id: string): seq<Step> {
    if q == [] || q[0].id == id then [] else [Request(PQ.Op.Delete(q[0].id))] + Clearing(q[1..], id)
  }

  lemma {:induction false} ClearingPlain(q: seq<PQ.Prompt>, id: string)
    ensures forall i :: 0 <= i < |Clearing(q, id)| ==> Plain(Clearing(q, id)[i])
  {
    if q != [] && q[0].id != id {
      ClearingPlain(q[1..], id);
    }
  }

  /** Nothing but the queue, and the record of removals, differs. */
  ghost predicate OnlyQueues(s: State, s': State) {
    s' == s.(books := s.books.(queues := s'.books.queues, removed := s'.books.removed))
  }

  ghost predicate HeadGone(s: State, s': State, k: PQ.Key, q: seq<PQ.Prompt>)
    requires q != []
  {
    Inv(s') && PQ.Q(s'.books.queues, k) == q[1..] && OnlyQueues(s, s')
  }

  lemma HeadIsHome(s: State, k: PQ.Key, q: seq<PQ.Prompt>)
    requires Given(Inv(s)) && PQ.Q(s.books.queues, k) == q != []
    ensures PQ.Stored(s.books.queues, q[0].id) && PQ.Home(s.books.queues, q[0].id) == k
  {
    assert PQ.IndexOf(q, q[0].id) == 0;
    HomeIsHere(s, k, q[0].id);
  }

  lemma HeadDeleted(s: State, k: PQ.Key, q: seq<PQ.Prompt>)
    requires PQ.Q(s.books.queues, k) == q != []
    requires PQ.Stored(s.books.queues, q[0].id) && PQ.Home(s.books.queues, q[0].id) == k
    ensures var s' := DoRequest(s, PQ.Op.Delete(q[0].id));
      PQ.Q(s'.books.queues, k) == q[1..] && OnlyQueues(s, s')
  {
    assert PQ.IndexOf(q, q[0].id) == 0;
    assert PQ.Without(q, q[0].id) == q[1..];
  }

  lemma RequestStays(s: State, op: PQ.Op)
    requires Given(Inv(s))
    ensures Given(Inv(DoRequest(s, op)))
  {
    RequestKeeps(s, op);
  }

  lemma DeleteHead(s: State, k: PQ.Key, q: seq<PQ.Prompt>)
    requires Given(Inv(s)) && PQ.Q(s.books.queues, k) == q != []
    ensures Given(HeadGone(s, DoRequest(s, PQ.Op.Delete(q[0].id)), k, q))
  {
    HeadIsHome(s, k, q);
    HeadDeleted(s, k, q);
    RequestStays(s, PQ.Op.Delete(q[0].id));
  }

  lemma DoesRequest(s: State, op: PQ.Op)
    ensures Do(s, Request(op)) == DoRequest(s, op)
  {
  }

  ghost predicate Cleared(s: State, s': State, k: PQ.Key, id: string) {
    OnlyQueues(s, s') && Inv(s') && PQ.Q(s'.books.queues, k) != [] && PQ.Q(s'.books.queues, k)[0].id == id
  }

  lemma {:induction false} ClearingClears(s: State, k: PQ.Key, q: seq<PQ.Prompt>, id: string)
    requires Given(Inv(s)) && PQ.Q(s.books.queues, k) == q && PQ.IndexOf(q, id) < |q|
    ensures Given(Cleared(s, Run(s, Clearing(q, id)), k, id))
    decreases |q|
  {
    if q[0].id == id {
      assert Run(s, []) == s;
    } else {
      var op := PQ.Op.Delete(q[0].id);
      var s1 := DoRequest(s, op);
      DeleteHead(s, k, q);
      ClearingClears(s1, k, q[1..], id);
      DoesRequest(s, op);
      ClearedThen(s, Request(op), s1, Clearing(q[1..], id), k, q, id);
    }
  }

  lemma ClearedThen(s: State, a: Step, s1: State, rest: seq<Step>, k: PQ.Key, q: seq<PQ.Prompt>, id: string)
    requires q != [] && s1 == Do(s, a) && Given(HeadGone(s, s1, k, q)) && Given(Cleared(s1, Run(s1, rest), k, id))
    ensures Given(Cleared(s, Run(s, [a] + rest), k, id))
  {
    RunCons(s, a, rest);
    ClearedAfter(s, s1, Run(s1, rest), k, q, id);
  }

  lemma ClearedAfter(s: State, s1: State, s2: State, k: PQ.Key, q: seq<PQ.Prompt>, id: string)
    requires q != [] && Given(HeadGone(s, s1, k, q)) && Given(Cleared(s1, s2, k, id))
    ensures Given(Cleared(s, s2, k, id))
  {
  }

  /** A stored prompt of an unclaimed queue can be delivered, whether it was delivered before or not. */
  lemma DeliversStored(s: State, k: PQ.Key, id: string) returns (more: seq<Step>)
    requires Inv(s) && Numbered(s) && Unclaimed(s, k) && !s.bridge.closed && PQ.Holds(s.books.queues, k, id)
    ensures Count(Run(s, more), k, id) == Count(s, k, id) + 1
    ensures forall i :: 0 <= i < |more| ==> Plain(more[i])
  {
    var q := PQ.Q(s.books.queues, k);
    var a := Clearing(q, id);
    ClearingPlain(q, id);
    ClearingClears(s, k, q, id);
    var s1 := Run(s, a);
    ClearedDelivers(s, s1, k, id);
    RunAppend(s, a, Delivering(s1, k));
    more := a + Delivering(s1, k);
  }

  lemma ClearedDelivers(s: State, s1: State, k: PQ.Key, id: string)
    requires Numbered(s) && Unclaimed(s, k) && !s.bridge.closed && Cleared(s, s1, k, id)
    ensures Unclaimed(s1, k) && Count(Run(s1, Delivering(s1, k)), k, id) == Count(s, k, id) + 1
    ensures forall i :: 0 <= i < |Delivering(s1, k)| ==> Plain(Delivering(s1, k)[i])
  {
    DeliversHead(s1, k, id);
  }

  ghost predicate Carrying(s: State, t: nat, k: PQ.Key, item: PQ.Prompt) {
    Live(s, t, k) && (s.drains[t].pc == Sending(item) || s.drains[t].pc == Removing(item))
  }

  /** A second delivery that no further step of the excluded kinds is needed for. */
  ghost predicate Repeats(s: State, k: PQ.Key, id: string) {
    exists more :: Careful(s, k, more) && Count(Run(s, more), k, id) >= 2
  }

  lemma UnclaimedRepeats(s: State, t: nat, k: PQ.Key, item: PQ.Prompt)
    requires Inv(s) && Numbered(s) && Unclaimed(s, k) && !s.bridge.closed
    requires Carrying(s, t, k, item) && PQ.Holds(s.books.queues, k, item.id)
    ensures Repeats(s, k, item.id)
  {
    if s.drains[t].pc.Sending? {
      SendingRepeats(s, t, k, item);
    } else {
      assert Carried(s, s.drains[t]);
      var more := DeliversStored(s, k, item.id);
      PlainCareful(s, k, more);
    }
  }

  lemma SendingRepeats(s: State, t: nat, k: PQ.Key, item: PQ.Prompt)
    requires Inv(s) && Numbered(s) && Unclaimed(s, k) && !s.bridge.closed
    requires Live(s, t, k) && s.drains[t].pc == Sending(item) && PQ.Holds(s.books.queues, k, item.id)
    ensures Repeats(s, k, item.id)
  {
    var sent := SendOk(t, None);
    var s1 := Do(s, sent);
    SendOkGoesOn(s, t, k, item);
    assert SentOn(s, s1, k, item);
    var more := DeliversStored(s1, k, item.id);
    PlainCareful(s1, k, more);
    RepeatsBefore(s, k, item.id, sent);
  }

  lemma SendOkGoesOn(s: State, t: nat, k: PQ.Key, item: PQ.Prompt)
    requires Inv(s) && Numbered(s) && Unclaimed(s, k) && Live(s, t, k) && s.drains[t].pc == Sending(item)
    ensures Inv(Do(s, SendOk(t, None))) && Numbered(Do(s, SendOk(t, None)))
    ensures SentOn(s, Do(s, SendOk(t, None)), k, item)
  {
    SendOkKeeps(s, t, None);
    StepNumbers(s, SendOk(t, None));
    SendOkSends(s, t, k, item);
  }

  ghost predicate SentOn(s: State, s1: State, k: PQ.Key, item: PQ.Prompt) {
    && Unclaimed(s1, k) && s1.bridge.closed == s.bridge.closed
    && s1.books == s.books.(accepted := s.books.accepted + multiset{Delivery(item.id, k.session)})
  }

  lemma SendOkSends(s: State, t: nat, k: PQ.Key, item: PQ.Prompt)
    requires Unclaimed(s, k) && Live(s, t, k) && s.drains[t].pc == Sending(item)
    ensures SentOn(s, DoSendOk(s, t, None), k, item)
  {
  }

  lemma PlainCareful(s: State, k: PQ.Key, steps: seq<Step>)
    requires forall i :: 0 <= i < |steps| ==> Plain(steps[i])
    ensures Careful(s, k, steps)
  {
    var none: seq<Step> := [];
    assert none + steps == steps;
    CarefulThen(s, k, none, steps);
  }

  lemma {:induction false} CarefulCons(s: State, k: PQ.Key, step: Step, more: seq<Step>)
    requires !Opens(s, k, step) && !Loses(s, k, step) && Careful(Do(s, step), k, more)
    ensures Careful(s, k, [step] + more)
    decreases |more|
  {
    var all := [step] + more;
    if more == [] {
      assert all[..|all| - 1] == [] && all[|all| - 1] == step;
      assert Careful(s, k, []) && Run(s, []) == s;
    } else {
      var n := |more| - 1;
      CarefulCons(s, k, step, more[..n]);
      RunCons(s, step, more[..n]);
      assert all[..|all| - 1] == [step] + more[..n] && all[|all| - 1] == more[n];
    }
  }

  /** What repeats after a step neither kind of which it is, repeats before it. */
  lemma RepeatsBefore(s: State, k: PQ.Key, id: string, step: Step)
    requires !Opens(s, k, step) && !Loses(s, k, step) && Repeats(Do(s, step), k, id)
    ensures Repeats(s, k, id)
  {
    var more :| Careful(Do(s, step), k, more) && Count(Run(Do(s, step), more), k, id) >= 2;
    CarefulCons(s, k, step, more);
    RunCons(s, step, more);
  }

  /** With no drain left, the channel can be attached to the session once more. */
  lemma AttachRepeats(s: State, k: PQ.Key, id: string)
    requires Inv(s) && Sane(s) && !s.bridge.closed && Registered(s, k.channel) && forall t :: !Live(s, t, k)
    requires PQ.Holds(s.books.queues, k, id) && Count(s, k, id) > 0
    ensures Repeats(s, k, id)
  {
    var attach := Rebind(s.bridge.channels[k.channel], k.session, false, None);
    var s1 := Do(s, attach);
    ChannelStepKeeps(s, attach);
    StepNumbers(s, attach);
    assert Unclaimed(s1, k);
    var more := DeliversStored(s1, k, id);
    PlainCareful(s1, k, more);
    RepeatsBefore(s, k, id, attach);
  }

  /** If need be, after it was registered anew. */
  lemma IdleRepeats(s: State, k: PQ.Key, id: string)
    requires Inv(s) && Sane(s) && !s.bridge.closed && forall t :: !Live(s, t, k)
    requires PQ.Holds(s.books.queues, k, id) && Count(s, k, id) > 0
    ensures Repeats(s, k, id)
  {
    if k.channel in s.bridge.channels {
      AttachRepeats(s, k, id);
    } else {
      var install := Install(k.channel);
      var s1 := Do(s, install);
      ChannelStepKeeps(s, install);
      StepHouses(s, install);
      assert s1.drains == s.drains && s1.books == s.books && s1.bridge.closed == s.bridge.closed;
      assert forall t :: Live(s1, t, k) ==> Live(s, t, k);
      AttachRepeats(s1, k, id);
      RepeatsBefore(s, k, id, install);
    }
  }

  /** A drain that gives up leaves its prompt delivered, and stored. */
  lemma LossEnds(s: State, t: nat, k: PQ.Key, item: PQ.Prompt, step: Step)
    requires Inv(s) && Apart(s, k) && Carrying(s, t, k, item) && Loses(s, k, step)
    ensures var s1 := Do(s, step);
      && s1.drains == s.drains - {t} && s1.books.queues == s.books.queues && Count(s1, k, item.id) > 0
      && s1.bridge.closed == s.bridge.closed
  {
    assert Carried(s, s.drains[t]);
    assert step == SendLost(t) || step == Abandon(t);
  }

  lemma LosesRepeats(s: State, t: nat, k: PQ.Key, item: PQ.Prompt, step: Step)
    requires Inv(s) && Sane(s) && Apart(s, k) && !s.bridge.closed
    requires Carrying(s, t, k, item) && Loses(s, k, step) && PQ.Holds(s.books.queues, k, item.id)
    ensures Repeats(Do(s, step), k, item.id)
  {
    LossEnds(s, t, k, item, step);
    StepKeeps(s, step);
    StepHouses(s, step);
    assert forall u :: Live(Do(s, step), u, k) ==> Live(s, u, k);
    IdleRepeats(Do(s, step), k, item.id);
  }

  /** Given out once, an id stays with its queue. */
  lemma {:induction false} QueuedStays(s: State, k: PQ.Key, steps: seq<Step>, id: string)
    requires Inv(s) && Sane(s) && id in s.books.queued && s.books.queued[id] == k
    ensures Inv(Run(s, steps)) && Sane(Run(s, steps))
    ensures id in Run(s, steps).books.queued && Run(s, steps).books.queued[id] == k
    decreases |steps|
  {
    if steps != [] {
      var n := |steps| - 1;
      QueuedStays(s, k, steps[..n], id);
      StepKeeps(Run(s, steps[..n]), steps[n]);
      StepHouses(Run(s, steps[..n]), steps[n]);
      StepQueued(Run(s, steps[..n]), k, steps[n], id);
    }
  }

  lemma StepQueued(s: State, k: PQ.Key, step: Step, id: string)
    requires Inv(s) && id in s.books.queued && s.books.queued[id] == k
    ensures id in Do(s, step).books.queued && Do(s, step).books.queued[id] == k
  {
    if IsChannelStep(step) {
      ChannelStepTasks(s, step);
    }
  }

  /**
   While a drain delivers a stored prompt, these are the steps after which the prompt may be delivered
   a second time: freeing its queue, and losing its own answer. Any other step rules that out, for
   every run that follows and takes neither kind of step itself.
   */
  lemma SecondSendIff(s: State, t: nat, k: PQ.Key, item: PQ.Prompt, step: Step)
    requires Inv(s) && Sane(s) && Once(s, k) && !s.bridge.closed
    requires Carrying(s, t, k, item) && PQ.Holds(s.books.queues, k, item.id)
    ensures Opens(s, k, step) || Loses(s, k, step) <==> Repeats(Do(s, step), k, item.id)
  {
    if Opens(s, k, step) {
      OpensUnguards(s, k, step);
      StepKeeps(s, step);
      StepNumbers(s, step);
      assert Carrying(Do(s, step), t, k, item);
      assert Do(s, step).bridge.closed == s.bridge.closed;
      UnclaimedRepeats(Do(s, step), t, k, item);
    } else if Loses(s, k, step) {
      LosesRepeats(s, t, k, item, step);
    } else {
      assert Carried(s, s.drains[t]);
      NoRepeat(s, k, item.id, step);
    }
  }

  lemma NoRepeat(s: State, k: PQ.Key, id: string, step: Step)
    requires Inv(s) && Sane(s) && Once(s, k) && !Opens(s, k, step) && !Loses(s, k, step)
    requires id in s.books.queued && s.books.queued[id] == k
    ensures !Repeats(Do(s, step), k, id)
  {
    var s1 := Do(s, step);
    StepKeeps(s, step);
    StepHouses(s, step);
    StepOnce(s, k, step);
    StepQueued(s, k, step, id);
    forall more | Careful(s1, k, more) ensures Count(Run(s1, more), k, id) <= 1 {
      RunOnce(s1, k, more);
      QueuedStays(s1, k, more, id);
    }
  }

  // ----- Such a drain is reached -----

  /** From the start: a prompt is queued behind a turn, the turn ends, and a drain delivers it. */
  ghost function Script(k: PQ.Key, id: string, text: string): seq<Step> {
    [Install(k.channel), Rebind(0, k.session, true, None), StartEnqueue(k.channel, id, text, 1), CommitEnqueue(2, 0),
     SetTurn(0, false, None)]
  }

  /** The states in between. */
  function Stages(k: PQ.Key, id: string, text: string): seq<State> {
    var off := Runtime(None, None, false, None, false);
    var on := off.(binding := Some(Binding(1, k.session)), busy := true);
    var channels := map[k.channel := 0];
    var stored := Books(map[k := [PQ.Prompt(id, text, 0)]], {id}, map[id := k], multiset{}, {});
    var s2 := START.(bridge := Bridge(map[0 := on], channels, false), next := 2);
    [START,
     START.(bridge := Bridge(map[0 := off], channels, false), next := 1),
     s2,
     s2.(entering := map[2 := Entering(k, id, text, 1)], next := 3, books := s2.books.(used := {id})),
     s2.(next := 3, books := stored),
     State(Bridge(map[0 := on.(busy := false)], channels, false), map[], map[], stored, 3)]
  }

  function Waiting(k: PQ.Key, id: string, text: string): State {
    Stages(k, id, text)[5]
  }

  /** A step of a bridge with no drains at all. */
  ghost predicate IdleStep(s: State, step: Step, s': State) {
    s.drains == map[] && Do(s, step) == s'
  }

  lemma {:induction false} IdleRun(s: State, k: PQ.Key, steps: seq<Step>, states: seq<State>)
    requires |states| == |steps| + 1 && states[0] == s
    requires forall i :: 0 <= i < |steps| ==> IdleStep(states[i], steps[i], states[i + 1])
    ensures Run(s, steps) == states[|steps|] && Careful(s, k, steps)
    decreases |steps|
  {
    if steps != [] {
      var n := |steps| - 1;
      IdleRun(s, k, steps[..n], states[..n + 1]);
      assert IdleStep(states[n], steps[n], states[n + 1]);
    }
  }

  lemma ScriptCommits(s: State, k: PQ.Key, id: string, text: string)
    requires s.entering == map[2 := Entering(k, id, text, 1)] && s.books == Books(map[], {id}, map[], multiset{}, {})
    ensures Do(s, CommitEnqueue(2, 0))
         == s.(entering := map[],
               books := Books(map[k := [PQ.Prompt(id, text, 0)]], {id}, map[id := k], multiset{}, {}))
  {
    assert forall other :: !PQ.Holds(s.books.queues, other, id);
    assert !PQ.Stored(s.books.queues, id);
    assert [] + [PQ.Prompt(id, text, 0)] == [PQ.Prompt(id, text, 0)];
    var after := PQ.Step(s.books.queues, PQ.Op.Add(PQ.Prompt(id, text, 0), k, 1));
    assert after == map[k := [PQ.Prompt(id, text, 0)]];
    assert PQ.Holds(after, k, id);
  }

  lemma EarlyStages(k: PQ.Key, id: string, text: string, i: nat)
    requires i < 3
    ensures IdleStep(Stages(k, id, text)[i], Script(k, id, text)[i], Stages(k, id, text)[i + 1])
  {
  }

  lemma LateStages(k: PQ.Key, id: string, text: string, i: nat)
    requires 3 <= i < 5
    ensures IdleStep(Stages(k, id, text)[i], Script(k, id, text)[i], Stages(k, id, text)[i + 1])
  {
    if i == 3 {
      ScriptCommits(Stages(k, id, text)[3], k, id, text);
    }
  }

  lemma ScriptWaits(k: PQ.Key, id: string, text: string)
    ensures Run(START, Script(k, id, text)) == Waiting(k, id, text) && Careful(START, k, Script(k, id, text))
  {
    forall i | 0 <= i < 5 ensures IdleStep(Stages(k, id, text)[i], Script(k, id, text)[i], Stages(k, id, text)[i + 1]) {
      if i < 3 {
        EarlyStages(k, id, text, i);
      } else {
        LateStages(k, id, text, i);
      }
    }
    IdleRun(START, k, Script(k, id, text), Stages(k, id, text));
  }

  ghost function MidSend(k: PQ.Key, id: string, text: string): seq<Step> {
    Script(k, id, text) + (Starting(Waiting(k, id, text), k) + [ReadHead(4), Resume(4)])
  }

  /** A careful run reaches a drain at the backend with a stored prompt. */
  lemma MidSendIsReached(k: PQ.Key, id: string, text: string)
    ensures Careful(START, k, MidSend(k, id, text))
      && DeliveringFirst(Run(START, MidSend(k, id, text)), k, PQ.Prompt(id, text, 0))
  {
    var w, item := Waiting(k, id, text), PQ.Prompt(id, text, 0);
    var rest := Starting(w, k) + [ReadHead(4), Resume(4)];
    ScriptWaits(k, id, text);
    SendsHead(w, k);
    RunAppend(START, Script(k, id, text), rest);
    CarefulThen(START, k, Script(k, id, text), rest);
    assert SendingHead(w, Run(START, MidSend(k, id, text)), k);
    assert PQ.Q(w.books.queues, k) == [item];
  }

  ghost predicate DeliveringFirst(s: State, k: PQ.Key, item: PQ.Prompt) {
    && !s.bridge.closed && Bound(s, k) && s.bridge.channels == map[k.channel := 0]
    && Live(s, 4, k) && s.drains[4].pc == Sending(item) && PQ.Q(s.books.queues, k) == [item]
  }

  /** There a turn event, attaching the session once more, and a lost answer each break the promise of one delivery. */
  lemma OneDeliveryFails(k: PQ.Key, id: string, text: string)
    ensures var s := Run(START, MidSend(k, id, text));
      && Careful(START, k, MidSend(k, id, text)) && Once(s, k)
      && Repeats(Do(s, SetTurn(0, false, None)), k, id)
      && Repeats(Do(s, Rebind(0, k.session, false, None)), k, id)
      && Repeats(Do(s, SendLost(4)), k, id)
  {
    MidSendIsReached(k, id, text);
    StartIsOnce(k);
    RunOnce(START, k, MidSend(k, id, text));
    var s, item := Run(START, MidSend(k, id, text)), PQ.Prompt(id, text, 0);
    FirstFails(s, k, item, SetTurn(0, false, None));
    FirstFails(s, k, item, Rebind(0, k.session, false, None));
    FirstFails(s, k, item, SendLost(4));
  }

  lemma FirstFails(s: State, k: PQ.Key, item: PQ.Prompt, step: Step)
    requires Inv(s) && Sane(s) && Once(s, k) && DeliveringFirst(s, k, item)
    requires step == SetTurn(0, false, None) || step == Rebind(0, k.session, false, None) || step == SendLost(4)
    ensures Repeats(Do(s, step), k, item.id)
  {
    assert PQ.IndexOf([item], item.id) == 0;
    assert Carrying(s, 4, k, item);
    SecondSendIff(s, 4, k, item, step);
  }
}
