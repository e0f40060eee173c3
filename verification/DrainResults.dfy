/** What holds of queued prompts and drains over every run. */
module DrainResults {
  import opened Common
  import opened Draining
  import PQ = PromptQueue

  lemma {:induction false} RunKeeps(steps: seq<Step>)
    ensures Inv(Run(START, steps)) && Numbered(Run(START, steps))
    decreases |steps|
  {
    if steps == [] {
      forall k, id ensures !PQ.Holds(START.books.queues, k, id) {
      }
    } else {
      var n := |steps| - 1;
      RunKeeps(steps[..n]);
      StepNumbers(Run(START, steps[..n]), steps[n]);
      StepKeeps(Run(START, steps[..n]), steps[n]);
    }
  }

  /**
   Conservation: after any run, every prompt ever queued is still stored in its queue, or was
   accepted for the session it was queued under, or was deleted or cleared on request.
   */
  lemma PromptsAreConserved(steps: seq<Step>, id: string)
    requires id in Run(START, steps).books.queued
    ensures Accounted(Run(START, steps), id)
  {
    RunKeeps(steps);
  }

  /** Affinity: whatever a backend accepted from a queue was queued for that very session. */
  lemma AcceptedWhereQueued(steps: seq<Step>, a: Delivery)
    requires a in Run(START, steps).books.accepted
    ensures a.id in Run(START, steps).books.queued && Run(START, steps).books.queued[a.id].session == a.session
  {
    RunKeeps(steps);
  }

  /** And a prompt is stored nowhere but where it was queued. */
  lemma StoredWhereQueued(steps: seq<Step>, k: PQ.Key, id: string)
    requires PQ.Holds(Run(START, steps).books.queues, k, id)
    ensures id in Run(START, steps).books.queued && Run(START, steps).books.queued[id] == k
  {
    RunKeeps(steps);
  }

  // ----- A drain that outlives its binding -----

  ghost predicate Outlived(s: State, task: nat) {
    task in s.drains && !Holds(s, s.drains[task])
  }

  lemma OutlivedStays(s: State, s': State, task: nat)
    requires Numbered(s) && Outlived(s, task) && BindingsFrom(s, s') && TasksFrom(s, s') && task in s'.drains
    ensures Outlived(s', task)
  {
  }

  lemma {:induction false} OutlivedForGood(s: State, steps: seq<Step>, task: nat)
    requires Numbered(s) && Outlived(s, task)
    ensures Numbered(Run(s, steps)) && task < Run(s, steps).next
    ensures task in Run(s, steps).drains ==> Outlived(Run(s, steps), task)
    decreases |steps|
  {
    if steps != [] {
      var n := |steps| - 1;
      OutlivedForGood(s, steps[..n], task);
      StepNumbers(Run(s, steps[..n]), steps[n]);
      StepFrame(Run(s, steps[..n]), steps[n]);
      if task in Run(s, steps[..n]).drains && task in Run(s, steps).drains {
        OutlivedStays(Run(s, steps[..n]), Run(s, steps), task);
      }
    }
  }

  /**
   However long a drain outlives its binding, over any run none of its steps changes any runtime:
   neither the busy flag nor the turn of whatever replaced the binding.
   */
  lemma OutlivedIsHarmless(s: State, steps: seq<Step>, step: Step, task: nat)
    requires Numbered(s) && Outlived(s, task) && DrainOf(step) == Some(task)
    ensures Do(Run(s, steps), step).bridge == Run(s, steps).bridge
  {
    OutlivedForGood(s, steps, task);
  }
}
