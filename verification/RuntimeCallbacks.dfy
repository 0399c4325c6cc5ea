/** When the main loop of a worker looks for the callback of a task it has executed. */
module RuntimeCallbacks {
  import opened Common
  import opened Runtime
  import opened RuntimeInvariants
  import opened RuntimePlacement
  import opened RuntimeGroups
  import opened RuntimeSlots
  import opened RuntimeSafety

  /** A call that waits for the task's group has deleted the task. */
  ghost predicate HasBeenCollected(s: State, t: nat) {
    t in s.attrs && s.attrs[t].group.Some? && s.attrs[t].group.value in s.groups
    && t in s.groups[s.attrs[t].group.value].collected
  }

  /** What the main loop finds when it looks for a callback in the slot of a task it has
      executed is that task if and only if no call has collected the task by then. */
  lemma CallbackIff(c: Config, run: seq<State>, i: nat, s': State, e: Entry)
    requires Run(c, run) && i < |run| && ReportStep(run[i], s', e)
    ensures |s'.lookups| == |run[i].lookups| + 1 && s'.lookups[|run[i].lookups|].entry == e
    ensures s'.lookups[|run[i].lookups|].found == Some(e.task) <==> !HasBeenCollected(run[i], e.task)
  {
    RunSafe(c, run, i);
    assert Keeps(c, run[i], OfCounts) && Keeps(c, run[i], OfGroups) && Keeps(c, run[i], OfHouses)
           && Keeps(c, run[i], OfNames);
    CollectedIff(c, run[i], e);
  }

  lemma CollectedIff(c: Config, s: State, e: Entry)
    requires Named(c, s) && Counting(s) && Grouped(c, s) && Housed(s) && Settles(s, e) && s.stage[e].spc.Report?
    ensures LivesIn(s.slots, s.attrs[e.task].slot, e.task, s.tasks[e.task])
    ensures Alive(s.tasks[e.task]) <==> !HasBeenCollected(s, e.task)
  {
    var t := e.task;
    assert TaskOk(s.attrs[t], s.tasks[t]) && EntryOk(s.attrs[t], s.tasks[t], e.instance, s.stage[e]);
    match s.attrs[t].group
    case None =>
    case Some(g) =>
      assert Acceptable(c, s, s.attrs[t]);
      assert GroupOk(c.limit, s, g, s.groups[g]) && PhaseIn(s, g, t) == s.tasks[t].phase;
  }

  // ----- nested executions ------------------------------------------------

  /** The instance has been taken by a waiting call, not by a main loop. */
  ghost predicate TakenNested(s: State, e: Entry) {
    e in s.stage && PastPop(s.stage[e]) && e !in s.mains
  }

  lemma NestedByProducer(c: Config, s: State, s': State, step: Step, e: Entry)
    requires ProducerMoves(c, s, s', step) && Working(s, step.t) && TakenNested(s, e)
    ensures TakenNested(s', e)
  {
    if Plain(step) { PlainEffect(c, s, s', step); }
  }

  lemma NestedByExecutor(c: Config, s: State, s': State, step: Step, e: Entry)
    requires ExecutorMoves(c, s, s', step) && TakenNested(s, e)
    ensures TakenNested(s', e)
  {
  }

  lemma NestedByCreation(c: Config, s: State, s': State, t: nat, attr: Attributes, e: Entry)
    requires Staged(s) && CreateStep(c, s, s', t, attr) && TakenNested(s, e)
    ensures TakenNested(s', e)
  {
  }

  lemma NestedByPop(c: Config, s: State, s': State, q: QueueId, w: nat, inspect: bool, e: Entry)
    requires Placed(s) && PopStep(c, s, s', q, w, inspect) && TakenNested(s, e)
    ensures TakenNested(s', e)
  {
    assert s.stage[s.queues[q][0]] == Queued(q);
  }

  lemma NestedAt(c: Config, path: seq<State>, i: nat, e: Entry)
    requires Path(c, path) && 0 < i < |path| && Inv(c, path[i - 1]) && TakenNested(path[i - 1], e)
    ensures TakenNested(path[i], e)
  {
    assert StepAt(c, path, i);
    var s, s' := path[i - 1], path[i];
    assert Keeps(c, s, OfStages) && Keeps(c, s, OfCounts) && Keeps(c, s, OfPlaces);
    var step :| Next(c, s, s', step);
    if ProducerMoves(c, s, s', step) {
      CurrentEntry(s, step.t);
      NestedByProducer(c, s, s', step, e);
    }
    else if ExecutorMoves(c, s, s', step) { NestedByExecutor(c, s, s', step, e); }
    else if CollectorMoves(s, s', step) { CollectorLeaves(s, s', step); }
    else if step.CreateTask? { NestedByCreation(c, s, s', step.t, step.attr, e); }
    else { NestedByPop(c, s, s', step.q, step.w, step.inspect, e); }
  }

  lemma {:induction false} NestedAlong(c: Config, path: seq<State>, k: nat, i: nat, e: Entry)
    requires Path(c, path) && k <= i < |path| && Inv(c, path[k]) && TakenNested(path[k], e)
    ensures TakenNested(path[i], e)
  {
    if k < i {
      NestedAlong(c, path, k, i - 1, e);
      SafeAlong(c, path, k, i - 1);
      NestedAt(c, path, i, e);
    }
  }

  ghost predicate LookedUp(s: State, e: Entry) {
    exists n :: 0 <= n < |s.lookups| && s.lookups[n].entry == e
  }

  /** For an instance that a waiting call has taken no callback is ever looked up. */
  lemma NestedNeverReports(c: Config, run: seq<State>, k: nat, i: nat, e: Entry)
    requires Run(c, run) && k <= i < |run| && TakenNested(run[k], e)
    ensures !LookedUp(run[i], e)
  {
    RunSafe(c, run, k);
    NestedAlong(c, run, k, i, e);
    RunSafe(c, run, i);
    assert Keeps(c, run[i], OfLookups);
  }

  /** Taking an instance in a wait makes it such an instance. */
  lemma PopNested(c: Config, run: seq<State>, i: nat, s': State, q: QueueId, w: nat)
    requires Run(c, run) && i < |run| && PopStep(c, run[i], s', q, w, false)
    ensures TakenNested(s', run[i].queues[q][0])
  {
    RunSafe(c, run, i);
    assert Keeps(c, run[i], OfLookups) && Keeps(c, run[i], OfPlaces);
    PopNestedIn(c, run[i], s', q, w);
  }

  lemma PopNestedIn(c: Config, s: State, s': State, q: QueueId, w: nat)
    requires Placed(s) && Reported(s) && PopStep(c, s, s', q, w, false)
    ensures TakenNested(s', s.queues[q][0])
  {
    assert s.stage[s.queues[q][0]] == Queued(q);
  }
}
