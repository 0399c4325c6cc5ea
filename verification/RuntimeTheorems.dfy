/** What the task runtime guarantees in every state of every run. */
module RuntimeTheorems {
  import opened Common
  import opened Runtime
  import opened RuntimeInvariants
  import opened RuntimePlacement
  import opened RuntimeGroups
  import opened RuntimeSafety

  // ----- completion -------------------------------------------------------

  /** Instances of `t` that have not passed the countdown. */
  ghost function Remaining(s: State, t: nat): set<nat>
    requires t in s.attrs
  {
    set k | k in Below(s.attrs[t].instances) && Entry(t, k) in s.stage && BeforeCountdown(s.stage[Entry(t, k)])
  }

  lemma RemainingIsPending(s: State, t: nat)
    requires Staged(s) && Counting(s) && t in s.tasks
    ensures Remaining(s, t) == s.tasks[t].pending
  {
    var attr, task := s.attrs[t], s.tasks[t];
    assert TaskOk(attr, task);
    forall k: nat ensures k in Remaining(s, t) <==> k in task.pending {
      if k < attr.instances {
        assert Entry(t, k) in s.stage && EntryOk(attr, task, k, s.stage[Entry(t, k)]);
      }
    }
  }

  /** The counter is the number of instances not yet past the countdown; at most one
      countdown has read 1, and one has exactly when none is left; a completed task
      has no instance that could still write its state. */
  lemma CompletionOnce(c: Config, run: seq<State>, i: nat, t: nat)
    requires Run(c, run) && i < |run| && t in run[i].tasks
    ensures t in run[i].attrs
    ensures run[i].tasks[t].todo == |Remaining(run[i], t)|
    ensures run[i].tasks[t].lasts == if Remaining(run[i], t) == {} && run[i].attrs[t].instances > 0 then 1 else 0
    ensures run[i].tasks[t].state.Completed? ==> Remaining(run[i], t) == {} && run[i].attrs[t].instances > 0
  {
    RunSafe(c, run, i);
    assert Keeps(c, run[i], OfStages);
    assert Keeps(c, run[i], OfCounts) && Keeps(c, run[i], OfStages);
    RemainingIsPending(run[i], t);
    assert TaskOk(run[i].attrs[t], run[i].tasks[t]);
  }

  /** A worker that takes an entry finds its task scheduled or running, so the
      branch that drops a task is never taken. */
  lemma NeverDropped(c: Config, run: seq<State>, i: nat, s': State, e: Entry)
    requires Run(c, run) && i < |run| && CheckStep(run[i], s', e)
    ensures s'.stage[e] == Popped(run[i].stage[e].worker, false)
  {
    RunSafe(c, run, i);
    assert Keeps(c, run[i], OfCounts);
    CheckKeeps(run[i], s', e);
  }

  lemma CheckKeeps(s: State, s': State, e: Entry)
    requires Counting(s) && CheckStep(s, s', e)
    ensures s'.stage[e] == s.stage[e].(inspect := false)
  {
    LiveState(s.attrs[e.task], s.tasks[e.task], e.instance, s.stage[e]);
  }

  predicate Final(task: Task) {
    task.state.Completed? || DeletedPhase(task.phase)
  }

  /** A final task is past its publication, and its start did not fail. */
  lemma FinalPublished(attr: Attributes, task: Task)
    requires TaskOk(attr, task) && Final(task)
    ensures !task.producer.Join? && !task.producer.Publish? && !task.producer.Fail?
  {
  }

  lemma ProducerEffect(c: Config, s: State, s': State, step: Step)
    requires ProducerMoves(c, s, s', step)
    ensures step.t in s.tasks && step.t in s'.tasks && s'.tasks == s.tasks[step.t := s'.tasks[step.t]]
    ensures var pc := s.tasks[step.t].producer;
            pc.Join? || pc.Publish? || pc.Fail?
            || (s'.tasks[step.t].state == s.tasks[step.t].state && s'.tasks[step.t].phase == s.tasks[step.t].phase)
  {
    TasksByProducer(c, s, s', step);
  }

  ghost predicate FinalIn(s: State, t: nat) {
    t in s.tasks && Final(s.tasks[t])
  }

  lemma FinalByProducer(c: Config, s: State, s': State, step: Step, t: nat)
    requires Counting(s) && ProducerMoves(c, s, s', step) && FinalIn(s, t) && t in s.attrs
    ensures FinalIn(s', t)
  {
    FinalPublished(s.attrs[t], s.tasks[t]);
    ProducerEffect(c, s, s', step);
  }

  lemma FinalByExecutor(c: Config, s: State, s': State, step: Step, t: nat)
    requires Counting(s) && ExecutorMoves(c, s, s', step) && FinalIn(s, t) && t in s.attrs
    ensures FinalIn(s', t)
  {
    assert TaskOk(s.attrs[t], s.tasks[t]);
    assert step.e.task == t ==> EntryOk(s.attrs[t], s.tasks[t], step.e.instance, s.stage[step.e]);
  }

  lemma FinalByCollector(c: Config, s: State, s': State, step: Step, t: nat)
    requires Counting(s) && Grouped(c, s) && CollectorMoves(s, s', step) && FinalIn(s, t) && t in s.attrs
    ensures FinalIn(s', t)
  {
    assert TaskOk(s.attrs[t], s.tasks[t]);
    if step.Takes? { HeadWaits(c, s, s.collectors[step.j].group); }
  }

  lemma FinalKept(c: Config, s: State, s': State, step: Step, t: nat)
    requires Counting(s) && Grouped(c, s) && Next(c, s, s', step) && FinalIn(s, t) && t in s.attrs
    ensures FinalIn(s', t)
  {
    if ProducerMoves(c, s, s', step) { FinalByProducer(c, s, s', step, t); }
    else if ExecutorMoves(c, s, s', step) { FinalByExecutor(c, s, s', step, t); }
    else if CollectorMoves(s, s', step) { FinalByCollector(c, s, s', step, t); }
  }

  lemma FinalAt(c: Config, path: seq<State>, j: nat, t: nat)
    requires Path(c, path) && 0 < j < |path| && Inv(c, path[j - 1]) && FinalIn(path[j - 1], t)
    ensures FinalIn(path[j], t)
  {
    assert StepAt(c, path, j);
    var s, s' := path[j - 1], path[j];
    var step :| Next(c, s, s', step);
    assert Keeps(c, s, OfCounts) && Keeps(c, s, OfGroups) && Keeps(c, s, OfNames) && Keeps(c, s, OfStages);
    FinalKept(c, s, s', step, t);
  }

  lemma {:induction false} FinalAlong(c: Config, path: seq<State>, i: nat, j: nat, t: nat)
    requires Path(c, path) && i <= j < |path| && Inv(c, path[i]) && FinalIn(path[i], t)
    ensures FinalIn(path[j], t)
  {
    if i < j {
      FinalAlong(c, path, i, j - 1, t);
      SafeAlong(c, path, i, j - 1);
      FinalAt(c, path, j, t);
    }
  }

  /** Once completed, a task stays completed until a collector deletes it: no late
      write of the running state overtakes the completion. */
  lemma CompletedStays(c: Config, run: seq<State>, i: nat, j: nat, t: nat)
    requires Run(c, run) && i <= j < |run| && t in run[i].tasks && run[i].tasks[t].state.Completed?
    ensures t in run[j].tasks
    ensures run[j].tasks[t].state.Completed? || (run[j].tasks[t].state.Error? && DeletedPhase(run[j].tasks[t].phase))
  {
    RunSafe(c, run, i);
    FinalAlong(c, run, i, j, t);
    RunSafe(c, run, j);
    assert Keeps(c, run[j], OfStages);
    assert Keeps(c, run[j], OfCounts);
    assert TaskOk(run[j].attrs[t], run[j].tasks[t]);
  }

  // ----- instance numbers -------------------------------------------------

  /** A worker is executing instance `k` of task `t`. */
  predicate IsExecuting(s: State, t: nat, k: nat) {
    Entry(t, k) in s.stage && s.stage[Entry(t, k)].Executing?
  }

  /** A running instance has the number of its turn among those that got one, so that
      running instances of one task have different numbers below the instance count, and
      once no instance remains every number has been given out, each to one instance. */
  lemma InstanceNumbers(c: Config, run: seq<State>, i: nat, t: nat)
    requires Run(c, run) && i < |run| && t in run[i].tasks
    ensures t in run[i].attrs
    ensures forall k, m :: IsExecuting(run[i], t, k) && IsExecuting(run[i], t, m) && k != m ==>
              run[i].stage[Entry(t, k)].number != run[i].stage[Entry(t, m)].number
    ensures forall k :: IsExecuting(run[i], t, k) ==>
              var number := run[i].stage[Entry(t, k)].number; var handed := run[i].tasks[t].handed;
              number < |handed| <= run[i].attrs[t].instances && handed[number] == k
    ensures Remaining(run[i], t) == {} ==>
              && |run[i].tasks[t].handed| == run[i].attrs[t].instances && Distinct(run[i].tasks[t].handed)
              && forall k: nat :: k in run[i].tasks[t].handed <==> k < run[i].attrs[t].instances
  {
    RunSafe(c, run, i);
    assert Keeps(c, run[i], OfCounts) && Keeps(c, run[i], OfStages);
    Numbers(c, run[i], t);
  }

  lemma Numbers(c: Config, s: State, t: nat)
    requires Staged(s) && Counting(s) && t in s.tasks
    ensures forall k, m :: IsExecuting(s, t, k) && IsExecuting(s, t, m) && k != m ==>
              s.stage[Entry(t, k)].number != s.stage[Entry(t, m)].number
    ensures forall k :: IsExecuting(s, t, k) ==>
              var number := s.stage[Entry(t, k)].number; var handed := s.tasks[t].handed;
              number < |handed| <= s.attrs[t].instances && handed[number] == k
    ensures Remaining(s, t) == {} ==>
              && |s.tasks[t].handed| == s.attrs[t].instances && Distinct(s.tasks[t].handed)
              && forall k: nat :: k in s.tasks[t].handed <==> k < s.attrs[t].instances
  {
    var attr, task := s.attrs[t], s.tasks[t];
    assert TaskOk(attr, task);
    HandedBound(attr, task);
    if Remaining(s, t) == {} {
      RemainingIsPending(s, t);
      forall k: nat ensures k in task.handed <==> k < attr.instances {
        if k < attr.instances {
          assert Entry(t, k) in s.stage && EntryOk(attr, task, k, s.stage[Entry(t, k)]);
        }
      }
      DistinctCardinality(task.handed, Below(attr.instances));
    }
  }

  lemma HandedBound(attr: Attributes, task: Task)
    requires TaskOk(attr, task)
    ensures |task.handed| <= attr.instances
  {
    var numbers := set k | k in task.handed;
    DistinctCardinality(task.handed, numbers);
    SubsetCardinality(numbers, Below(attr.instances));
  }

  // ----- the tasks of an action -------------------------------------------

  ghost predicate For(s: State, a: nat, e: Entry) {
    e.task in s.attrs && s.attrs[e.task].action == a
  }

  ghost function QueuedFor(s: State, a: nat): set<Entry> {
    set e | e in s.stage && For(s, a, e) && exists q :: q in s.queues && e in s.queues[q]
  }

  /** Taken out of a queue, and not yet past the action's decrement. */
  ghost function ExecutedFor(s: State, a: nat): set<Entry> {
    set e | e in s.stage && For(s, a, e)
            && (s.stage[e].Popped? || s.stage[e].Executing?
                || (s.stage[e].Settling? && !s.stage[e].spc.Notify? && !s.stage[e].spc.Report?))
  }

  /** Between the producer's increment and its push or rollback. */
  ghost function ProducedFor(s: State, a: nat): set<Entry> {
    set e | e in s.stage && For(s, a, e) && s.stage[e].Counted?
  }

  /** An action's counter is the number of its queued entries, plus the executions
      not past their decrement, plus the producers between increment and push. */
  lemma ActionCount(c: Config, run: seq<State>, i: nat, a: nat)
    requires Run(c, run) && i < |run| && a in c.actions
    ensures a in run[i].numTasks
    ensures run[i].numTasks[a] == |QueuedFor(run[i], a)| + |ExecutedFor(run[i], a)| + |ProducedFor(run[i], a)|
  {
    RunSafe(c, run, i);
    assert Keeps(c, run[i], OfFlights) && Keeps(c, run[i], OfPlaces);
    assert Keeps(c, run[i], OfNames);
    FlightCount(run[i], a);
  }

  lemma QueuedSomewhere(s: State, e: Entry)
    requires Placed(s) && e in s.stage
    ensures (exists q :: q in s.queues && e in s.queues[q]) <==> s.stage[e].Queued?
  {
    if q :| q in s.queues && e in s.queues[q] {
      var j :| 0 <= j < |s.queues[q]| && s.queues[q][j] == e;
    }
  }

  lemma QueuedMembers(s: State, a: nat)
    requires Placed(s)
    ensures forall e :: e in QueuedFor(s, a) <==> e in s.stage && For(s, a, e) && s.stage[e].Queued?
  {
    forall e | e in s.stage ensures e in QueuedFor(s, a) <==> For(s, a, e) && s.stage[e].Queued? {
      QueuedSomewhere(s, e);
    }
  }

  lemma FlightParts(s: State, a: nat, queued: set<Entry>)
    requires Flights(s) && a in s.inFlight
    requires forall e :: e in queued <==> e in s.stage && For(s, a, e) && s.stage[e].Queued?
    ensures s.inFlight[a] == queued + ExecutedFor(s, a) + ProducedFor(s, a)
    ensures queued !! ExecutedFor(s, a) && queued + ExecutedFor(s, a) !! ProducedFor(s, a)
  {
    forall e ensures e in s.inFlight[a] <==> e in queued + ExecutedFor(s, a) + ProducedFor(s, a) {
      assert e in s.inFlight[a] <==> FliesFor(s, a, e);
    }
  }

  lemma FlightCount(s: State, a: nat)
    requires Placed(s) && Flights(s) && a in s.inFlight
    ensures s.numTasks[a] == |QueuedFor(s, a)| + |ExecutedFor(s, a)| + |ProducedFor(s, a)|
  {
    QueuedMembers(s, a);
    FlightParts(s, a, QueuedFor(s, a));
    FourParts(s.inFlight[a], QueuedFor(s, a), ExecutedFor(s, a), ProducedFor(s, a), {});
  }

  /** While the counter is zero, no queue holds an entry of the action, no worker is inside
      it, and none has still to discount it. Instances that have not been counted may
      still raise the counter. */
  lemma ActionIdle(c: Config, run: seq<State>, i: nat, a: nat, e: Entry)
    requires Run(c, run) && i < |run| && a in c.actions && a in run[i].numTasks && run[i].numTasks[a] == 0
    requires For(run[i], a, e)
    ensures forall q :: q in run[i].queues ==> e !in run[i].queues[q]
    ensures e in run[i].stage ==> !InFlight(run[i].stage[e])
  {
    RunSafe(c, run, i);
    var s := run[i];
    assert Keeps(c, s, OfNames) && Keeps(c, s, OfFlights) && Keeps(c, s, OfPlaces);
    assert a in s.inFlight.Keys;
    assert e in s.inFlight[a] <==> FliesFor(s, a, e);
    NotQueued(s, e);
  }

  /** An instance at another stage is in no queue. */
  lemma NotQueued(s: State, e: Entry)
    requires Placed(s) && (e in s.stage ==> !s.stage[e].Queued?)
    ensures forall q :: q in s.queues ==> e !in s.queues[q]
  {
  }

  // ----- affinity ---------------------------------------------------------

  /** A queued entry lies at its task's priority, in a private queue of a worker of
      its affinity if the affinity is a restriction and in a public queue otherwise. */
  lemma QueueAffinity(c: Config, run: seq<State>, i: nat, q: QueueId, e: Entry)
    requires Run(c, run) && i < |run| && q in run[i].queues && e in run[i].queues[q]
    ensures c.Valid() && e.task in run[i].attrs && Suits(c, run[i].attrs[e.task], q)
  {
    RunSafe(c, run, i);
    var s := run[i];
    assert Keeps(c, s, OfPlaces) && Keeps(c, s, OfNames) && Keeps(c, s, OfStages);
    var j :| 0 <= j < |s.queues[q]| && s.queues[q][j] == e;
    assert s.stage[e] == Queued(q);
    assert Keeps(c, s, OfAims);
    assert StageSuits(c, s.attrs[e.task], s.stage[e]);
  }

  /** Only workers of a task's affinity execute its instances. */
  lemma ExecutionAffinity(c: Config, run: seq<State>, i: nat, e: Entry)
    requires Run(c, run) && i < |run| && e in run[i].stage
    requires run[i].stage[e].Popped? || run[i].stage[e].Executing? || run[i].stage[e].Settling?
    ensures c.Valid() && e.task in run[i].attrs
    ensures run[i].stage[e].worker < c.workers && run[i].stage[e].worker in MaskOf(c, run[i].attrs[e.task])
  {
    RunSafe(c, run, i);
    assert Keeps(c, run[i], OfStages);
    assert Keeps(c, run[i], OfAims);
    assert StageSuits(c, run[i].attrs[e.task], run[i].stage[e]);
  }

  // ----- deleted tasks ----------------------------------------------------

  /** What may be left of an instance of a deleted task: it was never counted, or it only
      has to tell the action that it is done, or to look for the task's callback. */
  predicate Quiet(st: Stage) {
    st.Fresh? || st.Done? || (st.Settling? && st.spc.Report?) || st.Abandoned?
      || (st.Settling? && st.spc == Release(false))
  }

  /** No queue holds a deleted task, no worker executes it, and no group queue will hand it
      to a second collector. A main loop that has executed it may still look for its
      callback; `RuntimeCallbacks.CallbackIff` says what it finds. */
  lemma DeletedIsQuiet(c: Config, run: seq<State>, i: nat, t: nat)
    requires Run(c, run) && i < |run| && t in run[i].tasks && run[i].tasks[t].state.Error?
    ensures forall k :: Entry(t, k) in run[i].stage ==> Quiet(run[i].stage[Entry(t, k)])
    ensures forall q, k :: q in run[i].queues ==> Entry(t, k) !in run[i].queues[q]
    ensures forall g :: g in run[i].groups ==> t !in run[i].groups[g].queue
  {
    RunSafe(c, run, i);
    assert Keeps(c, run[i], OfCounts) && Keeps(c, run[i], OfStages);
    QuietStages(run[i], t);
    assert Keeps(c, run[i], OfPlaces);
    QuietQueues(run[i], t);
    assert Keeps(c, run[i], OfGroups);
    QuietGroups(c, run[i], t);
  }

  lemma QuietStages(s: State, t: nat)
    requires Staged(s) && Counting(s) && t in s.tasks && s.tasks[t].state.Error?
    ensures forall k :: Entry(t, k) in s.stage ==> Quiet(s.stage[Entry(t, k)])
  {
    assert TaskOk(s.attrs[t], s.tasks[t]);
    forall k | Entry(t, k) in s.stage ensures Quiet(s.stage[Entry(t, k)]) {
      assert EntryOk(s.attrs[t], s.tasks[t], k, s.stage[Entry(t, k)]);
    }
  }

  lemma QuietQueues(s: State, t: nat)
    requires Placed(s) && forall k :: Entry(t, k) in s.stage ==> Quiet(s.stage[Entry(t, k)])
    ensures forall q, k :: q in s.queues ==> Entry(t, k) !in s.queues[q]
  {
    forall k ensures forall q :: q in s.queues ==> Entry(t, k) !in s.queues[q] {
      NotQueued(s, Entry(t, k));
    }
  }

  lemma QuietGroups(c: Config, s: State, t: nat)
    requires Staged(s) && Counting(s) && Grouped(c, s) && t in s.tasks && s.tasks[t].state.Error?
    ensures forall g :: g in s.groups ==> t !in s.groups[g].queue
  {
    assert TaskOk(s.attrs[t], s.tasks[t]);
    forall g | g in s.groups ensures t !in s.groups[g].queue {
      assert GroupOk(c.limit, s, g, s.groups[g]);
    }
  }
}
