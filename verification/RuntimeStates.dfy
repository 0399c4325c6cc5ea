/** What the state variable of a task tells about its instances. */
module RuntimeStates {
  import opened Common
  import opened Runtime
  import opened RuntimeInvariants
  import opened RuntimeGroups
  import opened RuntimeSafety
  import opened RuntimeTheorems

  /** The instance has written the running state. */
  predicate PastStart(st: Stage) {
    st.Settling? || st.Done? || (st.Executing? && !st.epc.Start?)
  }

  ghost predicate Begun(s: State, t: nat) {
    exists k: nat :: Entry(t, k) in s.stage && PastStart(s.stage[Entry(t, k)])
  }

  /** The countdown has read 1, and completion has still to be written. */
  ghost predicate Completing(s: State, t: nat) {
    exists k: nat :: Entry(t, k) in s.stage && s.stage[Entry(t, k)].Settling? && s.stage[Entry(t, k)].spc.Finish?
  }

  predicate Gone(task: Task) {
    task.producer.Failed? || DeletedPhase(task.phase)
  }

  ghost predicate StateFits(attr: Attributes, task: Task, begun: bool, finishes: bool) {
    && (begun ==> task.state.Running? || task.state.Completed? || task.state.Error?)
    && (task.state.Running? || task.state.Completed? ==> begun)
    && (finishes ==> task.state.Running?)
    && (attr.instances > 0 && task.pending == {} && task.finisher.None? ==> task.state.Completed? || task.state.Error?)
  }

  ghost predicate States(s: State) {
    forall t :: Exists(s, t) ==> StateFits(s.attrs[t], s.tasks[t], Begun(s, t), Completing(s, t))
  }

  // ----- the steps --------------------------------------------------------

  /** Nothing has become of the instances of `t` that matters here. */
  ghost predicate StagesKept(s: State, s': State, t: nat) {
    forall k: nat :: var e := Entry(t, k);
      && (e in s.stage && PastStart(s.stage[e]) <==> e in s'.stage && PastStart(s'.stage[e]))
      && (e in s.stage && s.stage[e].Settling? && s.stage[e].spc.Finish? <==>
          e in s'.stage && s'.stage[e].Settling? && s'.stage[e].spc.Finish?)
  }

  lemma SameInstances(s: State, s': State, t: nat)
    requires StagesKept(s, s', t)
    ensures Begun(s', t) <==> Begun(s, t)
    ensures Completing(s', t) <==> Completing(s, t)
  {
    if Begun(s, t) {
      var k: nat :| Entry(t, k) in s.stage && PastStart(s.stage[Entry(t, k)]);
      assert PastStart(s'.stage[Entry(t, k)]);
    }
    if Begun(s', t) {
      var k: nat :| Entry(t, k) in s'.stage && PastStart(s'.stage[Entry(t, k)]);
      assert PastStart(s.stage[Entry(t, k)]);
    }
    if Completing(s, t) {
      var k: nat :| Entry(t, k) in s.stage && s.stage[Entry(t, k)].Settling? && s.stage[Entry(t, k)].spc.Finish?;
      assert s'.stage[Entry(t, k)].spc.Finish?;
    }
    if Completing(s', t) {
      var k: nat :| Entry(t, k) in s'.stage && s'.stage[Entry(t, k)].Settling? && s'.stage[Entry(t, k)].spc.Finish?;
      assert s.stage[Entry(t, k)].spc.Finish?;
    }
  }

  /** The record of task `t` changes, and nothing that matters of any instance. */
  lemma RecordKept(s: State, s': State, t: nat)
    requires States(s) && s'.attrs == s.attrs && Exists(s, t) && t in s'.tasks && s'.tasks == s.tasks[t := s'.tasks[t]]
    requires forall u :: StagesKept(s, s', u)
    requires StateFits(s.attrs[t], s'.tasks[t], Begun(s, t), Completing(s, t))
    ensures States(s')
  {
    forall u | Exists(s', u) ensures StateFits(s'.attrs[u], s'.tasks[u], Begun(s', u), Completing(s', u)) {
      SameInstances(s, s', u);
    }
  }

  /** Instance `e` moves on, and its task takes note. */
  lemma InstanceMoves(s: State, s': State, e: Entry)
    requires States(s) && s'.attrs == s.attrs && Exists(s, e.task) && e.task in s'.tasks
    requires s'.tasks == s.tasks[e.task := s'.tasks[e.task]] && e in s'.stage && s'.stage == s.stage[e := s'.stage[e]]
    requires StateFits(s.attrs[e.task], s'.tasks[e.task], Begun(s', e.task), Completing(s', e.task))
    ensures States(s')
  {
    forall u | Exists(s', u) ensures StateFits(s'.attrs[u], s'.tasks[u], Begun(s', u), Completing(s', u)) {
      if u != e.task {
        assert StagesKept(s, s', u);
        SameInstances(s, s', u);
      }
    }
  }

  lemma StatesByCreation(c: Config, s: State, s': State, t: nat, attr: Attributes)
    requires Staged(s) && States(s) && CreateStep(c, s, s', t, attr)
    ensures States(s')
  {
    assert t !in s.attrs.Keys;
    NewFits(s, s', t, attr);
    forall u | Exists(s', u) ensures StateFits(s'.attrs[u], s'.tasks[u], Begun(s', u), Completing(s', u)) {
      if u != t {
        assert StagesKept(s, s', u);
        SameInstances(s, s', u);
      }
    }
  }

  lemma NewFits(s: State, s': State, t: nat, attr: Attributes)
    requires (forall e :: e in s.stage ==> e.task != t) && s'.stage == s.stage + FreshEntries(t, attr.instances)
    ensures StateFits(attr, NewTask(attr), Begun(s', t), Completing(s', t))
  {
    assert attr.instances > 0 ==> 0 in Below(attr.instances);
    assert forall k: nat :: Entry(t, k) in s'.stage ==> s'.stage[Entry(t, k)].Fresh?;
  }

  // ----- producers --------------------------------------------------------

  /** Only instance `e` changes its stage, and it has not begun. */
  lemma NotBegun(s: State, s': State, e: Entry)
    requires e in s.stage && e in s'.stage && s'.stage == s.stage[e := s'.stage[e]]
    requires !PastStart(s.stage[e]) && !PastStart(s'.stage[e])
    ensures forall u :: StagesKept(s, s', u)
  {
  }

  lemma StagesByProducer(c: Config, s: State, s': State, step: Step)
    requires ProducerMoves(c, s, s', step) && Working(s, step.t)
    ensures forall u :: StagesKept(s, s', u)
  {
    if Plain(step) {
      PlainEffect(c, s, s', step);
    } else {
      NotBegun(s, s', Entry(step.t, if step.RollsBack? then 0 else s.tasks[step.t].producer.k));
    }
  }

  /** A failing start has begun nothing. */
  lemma FailsUnbegun(s: State, t: nat)
    requires Staged(s) && Counting(s) && States(s) && Exists(s, t)
    requires s.tasks[t].producer.Fail? || s.tasks[t].producer.Publish?
    ensures !Begun(s, t) && !Completing(s, t)
  {
    assert TaskOk(s.attrs[t], s.tasks[t]);
    forall k: nat | Entry(t, k) in s.stage ensures !PastStart(s.stage[Entry(t, k)]) {
      assert EntryOk(s.attrs[t], s.tasks[t], k, s.stage[Entry(t, k)]);
    }
  }

  lemma SameRecord(c: Config, s: State, s': State, step: Step)
    requires ProducerMoves(c, s, s', step) && !step.Fails? && !step.Publishes? && !step.Joins?
    ensures Exists(s, step.t) && step.t in s'.tasks
    ensures s'.tasks[step.t] == s.tasks[step.t].(producer := s'.tasks[step.t].producer)
  {
  }

  lemma FitsAfter(c: Config, s: State, s': State, step: Step)
    requires Staged(s) && Counting(s) && States(s) && ProducerMoves(c, s, s', step)
    ensures step.t in s'.tasks && StateFits(s.attrs[step.t], s'.tasks[step.t], Begun(s, step.t), Completing(s, step.t))
  {
    var t := step.t;
    assert TaskOk(s.attrs[t], s.tasks[t]);
    if step.Fails? || step.Publishes? { FailsUnbegun(s, t); }
    else if !step.Joins? { SameRecord(c, s, s', step); }
    else { JoinEffect(s, s', t); }
  }

  lemma StatesByProducer(c: Config, s: State, s': State, step: Step)
    requires Staged(s) && Counting(s) && States(s) && ProducerMoves(c, s, s', step)
    ensures States(s')
  {
    CurrentEntry(s, step.t);
    StagesByProducer(c, s, s', step);
    TasksByProducer(c, s, s', step);
    FitsAfter(c, s, s', step);
    RecordKept(s, s', step.t);
  }

  // ----- executors --------------------------------------------------------

  predicate KeepsRecord(step: Step) {
    step.Checks? || step.Claims? || step.ReturnsFrom? || step.Reports?
  }

  lemma StatesByQuiet(c: Config, s: State, s': State, step: Step)
    requires States(s) && ExecutorMoves(c, s, s', step) && KeepsRecord(step)
    ensures States(s')
  {
    forall u ensures StagesKept(s, s', u) {
    }
    RecordKept(s, s', step.e.task);
  }

  lemma BegunBy(s: State, e: Entry)
    requires e in s.stage && PastStart(s.stage[e])
    ensures Begun(s, e.task)
  {
    assert e == Entry(e.task, e.instance);
  }

  lemma StatesByStart(s: State, s': State, e: Entry)
    requires Counting(s) && States(s) && StartStep(s, s', e)
    ensures States(s')
  {
    assert EntryOk(s.attrs[e.task], s.tasks[e.task], e.instance, s.stage[e]);
    BegunBy(s', e);
    InstanceMoves(s, s', e);
  }

  lemma StatesByCountdown(s: State, s': State, e: Entry)
    requires Counting(s) && States(s) && CountdownStep(s, s', e)
    ensures States(s')
  {
    var attr, task := s.attrs[e.task], s.tasks[e.task];
    LiveState(attr, task, e.instance, s.stage[e]);
    CountdownLocal(attr, task, e.instance, s.stage[e]);
    BegunBy(s, e);
    BegunBy(s', e);
    InstanceMoves(s, s', e);
  }

  lemma StatesByFinish(s: State, s': State, e: Entry)
    requires Counting(s) && States(s) && FinishStep(s, s', e)
    ensures States(s')
  {
    BegunBy(s', e);
    forall k: nat | Entry(e.task, k) in s'.stage 
      ensures !(s'.stage[Entry(e.task, k)].Settling? && s'.stage[Entry(e.task, k)].spc.Finish?)
    {
      assert EntryOk(s.attrs[e.task], s.tasks[e.task], e.instance, s.stage[e]);
      if k != e.instance { assert EntryOk(s.attrs[e.task], s.tasks[e.task], k, s.stage[Entry(e.task, k)]); }
    }
    InstanceMoves(s, s', e);
  }

  lemma StatesByLast(c: Config, s: State, s': State, step: Step)
    requires Counting(s) && States(s) && ExecutorMoves(c, s, s', step) && (step.Releases? || step.Notifies?)
    ensures States(s')
  {
    var e := step.e;
    assert TaskOk(s.attrs[e.task], s.tasks[e.task]);
    assert EntryOk(s.attrs[e.task], s.tasks[e.task], e.instance, s.stage[e]);
    forall u ensures StagesKept(s, s', u) {
    }
    RecordKept(s, s', e.task);
  }

  lemma StatesByExecutor(c: Config, s: State, s': State, step: Step)
    requires Counting(s) && States(s) && ExecutorMoves(c, s, s', step)
    ensures States(s')
  {
    if step.Starts? { StatesByStart(s, s', step.e); }
    else if step.CountsDown? { StatesByCountdown(s, s', step.e); }
    else if step.Finishes? { StatesByFinish(s, s', step.e); }
    else if KeepsRecord(step) { StatesByQuiet(c, s, s', step); }
    else { StatesByLast(c, s, s', step); }
  }

  // ----- collectors and runs ----------------------------------------------

  lemma StatesByCollector(c: Config, s: State, s': State, step: Step)
    requires Counting(s) && States(s) && CollectorMoves(s, s', step)
    ensures States(s')
  {
    CollectorLeaves(s, s', step);
    forall u | Exists(s', u) ensures StateFits(s'.attrs[u], s'.tasks[u], Begun(s', u), Completing(s', u)) {
      assert TaskOk(s.attrs[u], s.tasks[u]);
      assert StagesKept(s, s', u);
      SameInstances(s, s', u);
    }
  }

  lemma StatesByPop(c: Config, s: State, s': State, q: QueueId, w: nat, inspect: bool)
    requires States(s) && PopStep(c, s, s', q, w, inspect)
    requires s.queues[q][0] in s.stage && s.stage[s.queues[q][0]].Queued?
    ensures States(s')
  {
    NotBegun(s, s', s.queues[q][0]);
    forall u | Exists(s', u) ensures StateFits(s'.attrs[u], s'.tasks[u], Begun(s', u), Completing(s', u)) {
      SameInstances(s, s', u);
    }
  }

  lemma StatesKept(c: Config, s: State, s': State)
    requires Inv(c, s) && States(s) && Moves(c, s, s')
    ensures States(s')
  {
    var step :| Next(c, s, s', step);
    assert Keeps(c, s, OfCounts) && Keeps(c, s, OfStages) && Keeps(c, s, OfPlaces);
    if ProducerMoves(c, s, s', step) { StatesByProducer(c, s, s', step); }
    else if ExecutorMoves(c, s, s', step) { StatesByExecutor(c, s, s', step); }
    else if CollectorMoves(s, s', step) { StatesByCollector(c, s, s', step); }
    else if step.CreateTask? { StatesByCreation(c, s, s', step.t, step.attr); }
    else { StatesByPop(c, s, s', step.q, step.w, step.inspect); }
  }

  lemma {:induction false} StatesAt(c: Config, run: seq<State>, i: nat)
    requires Run(c, run) && i < |run|
    ensures States(run[i])
  {
    if i > 0 {
      StatesAt(c, run, i - 1);
      RunSafe(c, run, i - 1);
      assert StepAt(c, run, i);
      StatesKept(c, run[i - 1], run[i]);
    }
  }

  /** Every instance is past its countdown, and the one whose countdown read 1 has written
      the completion. */
  ghost predicate AllDone(s: State, t: nat)
    requires t in s.attrs
  {
    s.attrs[t].instances > 0 && Remaining(s, t) == {} && !Completing(s, t)
  }

  /** In every state of every run the state variable of a task says exactly how far its
      instances have come: prenatal until the task is published; an error when its start
      has failed or it has been deleted; otherwise completed when all instances are done,
      running from the moment an action is called until then, and scheduled before. */
  lemma StateExact(c: Config, run: seq<State>, i: nat, t: nat)
    requires Run(c, run) && i < |run| && t in run[i].tasks
    ensures t in run[i].attrs
    ensures var s := run[i]; var task := s.tasks[t]; var pc := task.producer;
            task.state == if pc.Join? || pc.Publish? then Prenatal
                          else if Gone(task) then Error
                          else if AllDone(s, t) then Completed
                          else if Begun(s, t) then Running
                          else Scheduled
  {
    RunSafe(c, run, i);
    StatesAt(c, run, i);
    var s := run[i];
    assert Keeps(c, s, OfCounts) && Keeps(c, s, OfStages);
    assert t in s.attrs.Keys;
    StateIs(s, t);
  }

  lemma StateIs(s: State, t: nat)
    requires Staged(s) && Counting(s) && States(s) && Exists(s, t)
    ensures var task := s.tasks[t]; var pc := task.producer;
            task.state == if pc.Join? || pc.Publish? then Prenatal
                          else if Gone(task) then Error
                          else if AllDone(s, t) then Completed
                          else if Begun(s, t) then Running
                          else Scheduled
  {
    var attr, task := s.attrs[t], s.tasks[t];
    assert TaskOk(attr, task) && StateFits(attr, task, Begun(s, t), Completing(s, t));
    RemainingIsPending(s, t);
    if task.finisher.Some? {
      var e := Entry(t, task.finisher.value);
      assert e in s.stage && EntryOk(attr, task, e.instance, s.stage[e]);
    }
  }
}
