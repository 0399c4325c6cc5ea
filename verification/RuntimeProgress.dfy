/** The task runtime does not get stuck: whatever has been started can go on. */
module RuntimeProgress {
  import opened Common
  import opened Affinity
  import opened Runtime
  import opened RuntimeInvariants
  import opened RuntimePlacement
  import opened RuntimeSafety

  ghost predicate Can(c: Config, s: State, step: Step) {
    exists s' :: Next(c, s, s', step)
  }

  /** The producer of task `t` wants to push to queue `q`. */
  ghost predicate BlockedBy(s: State, t: nat, q: QueueId) {
    Exists(s, t) && s.tasks[t].producer.Push? && s.tasks[t].producer.queue == q
  }

  /** The step takes instance `e`, its task's producer or the queue in its way further. */
  ghost predicate Advances(s: State, e: Entry, step: Step) {
    match step
    case Joins(t) => t == e.task
    case Publishes(t) => t == e.task
    case Counts(t) => t == e.task
    case Aims(t, _) => t == e.task
    case Pushes(t) => t == e.task
    case FindsFull(t) => t == e.task
    case RollsBack(t) => t == e.task
    case Fails(t) => t == e.task
    case Pops(q, _, _) => e in s.stage && (s.stage[e] == Queued(q) || BlockedBy(s, e.task, q))
    case Checks(x) => x == e
    case Claims(x) => x == e
    case Starts(x) => x == e
    case ReturnsFrom(x) => x == e
    case CountsDown(x) => x == e
    case Finishes(x) => x == e
    case Releases(x) => x == e
    case Notifies(x) => x == e
    case Reports(x) => x == e
    case _ => false
  }

  /** What the code relies on and does not test: a worker in the affinity, and queues
      that can hold a task. */
  ghost predicate Provided(c: Config, s: State, t: nat) {
    c.Valid() && c.limit > 0 && Exists(s, t) && HasWorker(MaskOf(c, s.attrs[t]), c.workers)
  }

  // ----- producers --------------------------------------------------------

  lemma JoinCan(c: Config, s: State, t: nat)
    requires Named(c, s) && Exists(s, t) && s.tasks[t].producer.Join?
    ensures Can(c, s, Joins(t))
  {
    match s.attrs[t].group
    case None =>
      var s' := s.(tasks := s.tasks[t := s.tasks[t].(producer := Publish)]);
      assert Next(c, s, s', Joins(t));
    case Some(g) =>
      var group := s.groups[g];
      var s' := s.(groups := s.groups[g := group.(numTasks := group.numTasks + 1, open := group.open + {t})],
                   tasks := s.tasks[t := s.tasks[t].(producer := Publish, phase := Unfinished)]);
      assert Next(c, s, s', Joins(t));
  }

  lemma PublishCan(c: Config, s: State, t: nat)
    requires Exists(s, t) && s.tasks[t].producer.Publish? && s.attrs[t].accepted
    ensures Can(c, s, Publishes(t))
  {
    var s' := s.(tasks := s.tasks[t := s.tasks[t].(state := Scheduled, producer := Count(0))]);
    assert Next(c, s, s', Publishes(t));
  }

  lemma FailCan(c: Config, s: State, t: nat)
    requires Exists(s, t) && s.tasks[t].producer.Publish? && !s.attrs[t].accepted
    ensures Can(c, s, Fails(t))
  {
    var task := s.tasks[t];
    var s' := s.(tasks := s.tasks[t := task.(state := Error, producer := Failed,
                                             phase := if s.attrs[t].group.Some? then Lost else Outside)],
                 slots := s.slots - {s.attrs[t].slot});
    assert Next(c, s, s', Fails(t));
  }

  lemma CountCan(c: Config, s: State, t: nat)
    requires Named(c, s) && Exists(s, t) && s.tasks[t].producer.Count? && s.tasks[t].producer.k < s.attrs[t].instances
    requires s.attrs[t].accepted
    ensures Can(c, s, Counts(t))
  {
    var task, a := s.tasks[t], s.attrs[t].action;
    assert Acceptable(c, s, s.attrs[t]);
    assert a in s.numTasks.Keys && a in s.inFlight.Keys;
    var e := Entry(t, task.producer.k);
    var s' := s.(numTasks := s.numTasks[a := s.numTasks[a] + 1], inFlight := s.inFlight[a := s.inFlight[a] + {e}],
                 stage := s.stage[e := Counted], tasks := s.tasks[t := task.(producer := Aim(task.producer.k))]);
    assert Next(c, s, s', Counts(t));
  }

  /** With a worker in the affinity the search for a queue has an outcome. */
  lemma AimExists(c: Config, attr: Attributes, k: nat, counter: nat) returns (q: QueueId)
    requires c.Valid() && HasWorker(MaskOf(c, attr), c.workers)
    ensures AimsAt(c, attr, k, counter, q)
  {
    q := Public((attr.slot + k) % c.workers, attr.priority);
    if Restricted(c, attr) {
      TargetExists(MaskOf(c, attr), counter, c.workers);
      var w :| IsTarget(MaskOf(c, attr), counter, c.workers, w);
      q := Private(w, attr.priority);
    }
  }

  lemma AimAt(c: Config, s: State, t: nat, q: QueueId)
    requires c.Valid() && Exists(s, t) && s.tasks[t].producer.Aim?
    requires AimsAt(c, s.attrs[t], s.tasks[t].producer.k, s.counter, q)
    ensures Can(c, s, Aims(t, q))
  {
    var task := s.tasks[t];
    var s' := s.(counter := if Restricted(c, s.attrs[t]) then (s.counter + 1) % UINT_RANGE else s.counter,
                 tasks := s.tasks[t := task.(producer := Push(task.producer.k, q))]);
    assert Next(c, s, s', Aims(t, q));
  }

  lemma AimCan(c: Config, s: State, t: nat)
    requires c.Valid() && Exists(s, t) && s.tasks[t].producer.Aim? && HasWorker(MaskOf(c, s.attrs[t]), c.workers)
    ensures exists q :: Can(c, s, Aims(t, q))
  {
    var q := AimExists(c, s.attrs[t], s.tasks[t].producer.k, s.counter);
    AimAt(c, s, t, q);
  }

  lemma PushCan(c: Config, s: State, t: nat)
    requires Exists(s, t) && s.tasks[t].producer.Push? && s.tasks[t].producer.queue in s.queues
    requires |s.queues[s.tasks[t].producer.queue]| < c.limit
    ensures Can(c, s, Pushes(t))
  {
    var task := s.tasks[t];
    var k, q := task.producer.k, task.producer.queue;
    var e := Entry(t, k);
    var s' := s.(queues := s.queues[q := s.queues[q] + [e]], pushes := s.pushes + [(q, e)],
                 stage := s.stage[e := Queued(q)], tasks := s.tasks[t := task.(producer := Count(k + 1))]);
    assert Next(c, s, s', Pushes(t));
  }

  /** The owner of a queue that is not empty can take its head. */
  lemma PopCan(c: Config, s: State, q: QueueId)
    requires Named(c, s) && q in s.queues && s.queues[q] != []
    ensures Can(c, s, Pops(q, q.worker, true))
  {
    var head := s.queues[q][0];
    var s' := s.(queues := s.queues[q := s.queues[q][1..]], pops := s.pops + [(q, head)],
                 stage := s.stage[head := Popped(q.worker, true)], mains := s.mains + {head});
    assert Next(c, s, s', Pops(q, q.worker, true));
  }

  /** A push finds room, or its queue has a head that can be taken. */
  lemma PushGoesOn(c: Config, s: State, e: Entry)
    requires Named(c, s) && Aimed(c, s) && s.tasks.Keys == s.attrs.Keys && Provided(c, s, e.task)
    requires e in s.stage && s.tasks[e.task].producer.Push?
    ensures exists step :: Advances(s, e, step) && Can(c, s, step)
  {
    var t := e.task;
    var q := s.tasks[t].producer.queue;
    assert Suits(c, s.attrs[t], q);
    if |s.queues[q]| < c.limit {
      PushCan(c, s, t);
      assert Advances(s, e, Pushes(t));
    } else {
      PopCan(c, s, q);
      assert Advances(s, e, Pops(q, q.worker, true));
    }
  }

  lemma RollbackCan(c: Config, s: State, t: nat)
    requires Named(c, s) && Exists(s, t) && s.tasks[t].producer.Rollback? && s.attrs[t].accepted
    ensures Can(c, s, RollsBack(t))
  {
    var a, e := s.attrs[t].action, Entry(t, 0);
    assert Acceptable(c, s, s.attrs[t]);
    assert a in s.numTasks.Keys && a in s.inFlight.Keys;
    var s' := s.(numTasks := s.numTasks[a := s.numTasks[a] - 1], inFlight := s.inFlight[a := s.inFlight[a] - {e}],
                 stage := s.stage[e := Abandoned], tasks := s.tasks[t := s.tasks[t].(producer := Fail)]);
    assert Next(c, s, s', RollsBack(t));
  }

  /** Before the instance loop a start can go on. */
  lemma StartCan(c: Config, s: State, e: Entry)
    requires Named(c, s) && Exists(s, e.task) && (s.tasks[e.task].producer.Join? || s.tasks[e.task].producer.Publish?)
    ensures exists step :: Advances(s, e, step) && Can(c, s, step)
  {
    var t := e.task;
    if s.tasks[t].producer.Join? {
      JoinCan(c, s, t);
      assert Advances(s, e, Joins(t));
    } else if s.attrs[t].accepted {
      PublishCan(c, s, t);
      assert Advances(s, e, Publishes(t));
    } else {
      FailCan(c, s, t);
      assert Advances(s, e, Fails(t));
    }
  }

  /** In the instance loop, a producer that is not pushing can go on. */
  lemma LoopCan(c: Config, s: State, e: Entry)
    requires Named(c, s) && Provided(c, s, e.task) && s.attrs[e.task].accepted
    requires var pc := s.tasks[e.task].producer;
             pc.Aim? || pc.Rollback? || (pc.Count? && pc.k < s.attrs[e.task].instances)
    ensures exists step :: Advances(s, e, step) && Can(c, s, step)
  {
    var t := e.task;
    if s.tasks[t].producer.Count? {
      CountCan(c, s, t);
      assert Advances(s, e, Counts(t));
    } else if s.tasks[t].producer.Aim? {
      AimCan(c, s, t);
      var q :| Can(c, s, Aims(t, q));
      assert Advances(s, e, Aims(t, q));
    } else {
      RollbackCan(c, s, t);
      assert Advances(s, e, RollsBack(t));
    }
  }

  /** An instance that has not been pushed waits for a producer that can go on, unless
      the start has failed. */
  lemma ProducerCan(c: Config, s: State, e: Entry)
    requires Named(c, s) && Counting(s) && Aimed(c, s) && s.tasks.Keys == s.attrs.Keys && Provided(c, s, e.task)
    requires e in s.stage && e.instance < s.attrs[e.task].instances && (s.stage[e].Fresh? || s.stage[e].Counted?)
    requires !s.tasks[e.task].producer.Failed?
    ensures exists step :: Advances(s, e, step) && Can(c, s, step)
  {
    var pc := s.tasks[e.task].producer;
    assert TaskOk(s.attrs[e.task], s.tasks[e.task])
           && EntryOk(s.attrs[e.task], s.tasks[e.task], e.instance, s.stage[e]);
    if pc.Join? || pc.Publish? { StartCan(c, s, e); }
    else if pc.Push? { PushGoesOn(c, s, e); }
    else { LoopCan(c, s, e); }
  }

  // ----- workers ----------------------------------------------------------

  /** The queue that holds an instance has a head that can be taken. */
  lemma QueuedCan(c: Config, s: State, e: Entry)
    requires Named(c, s) && Placed(s) && e in s.stage && s.stage[e].Queued?
    ensures exists step :: Advances(s, e, step) && Can(c, s, step)
  {
    var q := s.stage[e].queue;
    PopCan(c, s, q);
    assert Advances(s, e, Pops(q, q.worker, true));
  }

  lemma PoppedCan(c: Config, s: State, e: Entry)
    requires At(s, e) && s.stage[e].Popped?
    ensures Can(c, s, if s.stage[e].inspect then Checks(e) else Claims(e))
  {
    var task := s.tasks[e.task];
    if s.stage[e].inspect {
      var s' := s.(stage := s.stage[e := if task.state.Scheduled? || task.state.Running?
                                         then s.stage[e].(inspect := false) else Abandoned]);
      assert Next(c, s, s', Checks(e));
    } else {
      var s' := s.(tasks := s.tasks[e.task := task.(current := task.current + 1, handed := task.handed + [e.instance])],
                   stage := s.stage[e := Executing(s.stage[e].worker, task.current, Start)]);
      assert Next(c, s, s', Claims(e));
    }
  }

  function ExecuteStep(e: Entry, pc: ExecutePc): Step {
    match pc case Start => Starts(e) case Body => ReturnsFrom(e) case Countdown => CountsDown(e)
  }

  lemma ExecutingCan(c: Config, s: State, e: Entry)
    requires At(s, e) && s.stage[e].Executing?
    ensures Can(c, s, ExecuteStep(e, s.stage[e].epc))
  {
    var task, st := s.tasks[e.task], s.stage[e];
    match st.epc
    case Start =>
      var s' := s.(tasks := s.tasks[e.task := task.(state := Running)], stage := s.stage[e := st.(epc := Body)]);
      assert Next(c, s, s', Starts(e));
    case Body =>
      var s' := s.(stage := s.stage[e := st.(epc := Countdown)]);
      assert Next(c, s, s', ReturnsFrom(e));
    case Countdown =>
      var s' := s.(tasks := s.tasks[e.task := CountedDown(task, e.instance)],
                   stage := s.stage[e := Settling(st.worker, if task.todo == 1 then Finish else Release(false))]);
      assert Next(c, s, s', CountsDown(e));
  }

  function SettleStep(e: Entry, pc: SettlePc): Step {
    match pc
    case Finish => Finishes(e)
    case Release(_) => Releases(e)
    case Notify => Notifies(e)
    case Report => Reports(e)
  }

  lemma ReleaseCan(c: Config, s: State, e: Entry)
    requires Named(c, s) && Settles(s, e) && s.stage[e].spc.Release? && s.attrs[e.task].accepted
    ensures Can(c, s, Releases(e))
  {
    assert Acceptable(c, s, s.attrs[e.task]);
    var task, a, last := s.tasks[e.task], s.attrs[e.task].action, s.stage[e].spc.last;
    var notify := last && s.attrs[e.task].group.Some?;
    assert a in s.numTasks.Keys && a in s.inFlight.Keys;
    var s' := s.(numTasks := s.numTasks[a := s.numTasks[a] - 1], inFlight := s.inFlight[a := s.inFlight[a] - {e}],
                 stage := s.stage[e := if notify then s.stage[e].(spc := Notify) else Leaving(s, e, s.stage[e].worker)],
                 tasks := s.tasks[e.task := task.(finisher := if last && !notify then None else task.finisher)]);
    assert Next(c, s, s', Releases(e));
  }

  lemma NotifyCan(c: Config, s: State, e: Entry)
    requires Named(c, s) && Settles(s, e) && s.stage[e].spc.Notify? && s.attrs[e.task].group.Some?
    ensures Can(c, s, Notifies(e))
  {
    var t := e.task;
    var g := s.attrs[t].group.value;
    var group, room := s.groups[g], |s.groups[g].queue| < c.limit;
    var s' := s.(groups := s.groups[g := group.(queue := if room then group.queue + [t] else group.queue)],
                 tasks := s.tasks[t := s.tasks[t].(finisher := None, phase := if room then Waiting else Lost)],
                 stage := s.stage[e := Leaving(s, e, s.stage[e].worker)]);
    assert Next(c, s, s', Notifies(e));
  }

  lemma FinishCan(c: Config, s: State, e: Entry)
    requires Settles(s, e) && s.stage[e].spc.Finish?
    ensures Can(c, s, Finishes(e))
  {
    var s' := s.(tasks := s.tasks[e.task := s.tasks[e.task].(state := Completed)],
                 stage := s.stage[e := s.stage[e].(spc := Release(true))]);
    assert Next(c, s, s', Finishes(e));
  }

  lemma ReportCan(c: Config, s: State, e: Entry)
    requires Settles(s, e) && s.stage[e].spc.Report?
    ensures Can(c, s, Reports(e))
  {
    var slot := s.attrs[e.task].slot;
    var s' := s.(stage := s.stage[e := Done],
                 lookups := s.lookups + [Lookup(e, if slot in s.slots then Some(s.slots[slot]) else None)]);
    assert Next(c, s, s', Reports(e));
  }

  lemma SettlingCan(c: Config, s: State, e: Entry)
    requires Named(c, s) && Counting(s) && Settles(s, e)
    ensures Can(c, s, SettleStep(e, s.stage[e].spc))
  {
    assert TaskOk(s.attrs[e.task], s.tasks[e.task])
           && EntryOk(s.attrs[e.task], s.tasks[e.task], e.instance, s.stage[e]);
    match s.stage[e].spc
    case Finish => FinishCan(c, s, e);
    case Release(_) => ReleaseCan(c, s, e);
    case Notify => NotifyCan(c, s, e);
    case Report => ReportCan(c, s, e);
  }

  lemma PoppedGoes(c: Config, s: State, e: Entry)
    requires At(s, e) && s.stage[e].Popped?
    ensures exists step :: Advances(s, e, step) && Can(c, s, step)
  {
    PoppedCan(c, s, e);
    assert Advances(s, e, if s.stage[e].inspect then Checks(e) else Claims(e));
  }

  lemma ExecutingGoes(c: Config, s: State, e: Entry)
    requires At(s, e) && s.stage[e].Executing?
    ensures exists step :: Advances(s, e, step) && Can(c, s, step)
  {
    ExecutingCan(c, s, e);
    assert Advances(s, e, ExecuteStep(e, s.stage[e].epc));
  }

  lemma SettlingGoes(c: Config, s: State, e: Entry)
    requires Named(c, s) && Counting(s) && Settles(s, e)
    ensures exists step :: Advances(s, e, step) && Can(c, s, step)
  {
    SettlingCan(c, s, e);
    assert Advances(s, e, SettleStep(e, s.stage[e].spc));
  }

  /** An instance that is with a worker can go on. */
  lemma ExecutorCan(c: Config, s: State, e: Entry)
    requires Named(c, s) && Counting(s) && At(s, e)
    requires (s.stage[e].Popped? || s.stage[e].Executing? || s.stage[e].Settling?)
    ensures exists step :: Advances(s, e, step) && Can(c, s, step)
  {
    if s.stage[e].Popped? { PoppedGoes(c, s, e); }
    else if s.stage[e].Executing? { ExecutingGoes(c, s, e); }
    else { SettlingGoes(c, s, e); }
  }

  /** In every state of every run, each instance that is neither done nor abandoned nor
      of a task whose start failed has an enabled step that takes it, or what it waits
      for, further. */
  lemma NeverStuck(c: Config, run: seq<State>, i: nat, e: Entry)
    requires Run(c, run) && i < |run| && e in run[i].stage && !run[i].stage[e].Done? && !run[i].stage[e].Abandoned?
    requires Provided(c, run[i], e.task) && !run[i].tasks[e.task].producer.Failed?
    ensures exists step :: Advances(run[i], e, step) && Can(c, run[i], step)
  {
    RunSafe(c, run, i);
    StuckNowhere(c, run[i], e);
  }

  lemma StuckNowhere(c: Config, s: State, e: Entry)
    requires Inv(c, s) && e in s.stage && !s.stage[e].Done? && !s.stage[e].Abandoned?
    requires Provided(c, s, e.task) && !s.tasks[e.task].producer.Failed?
    ensures exists step :: Advances(s, e, step) && Can(c, s, step)
  {
    assert Keeps(c, s, OfNames) && Keeps(c, s, OfStages) && Keeps(c, s, OfCounts);
    assert Keeps(c, s, OfPlaces) && Keeps(c, s, OfAims);
    if s.stage[e].Queued? { QueuedCan(c, s, e); }
    else if s.stage[e].Fresh? || s.stage[e].Counted? { ProducerCan(c, s, e); }
    else { ExecutorCan(c, s, e); }
  }
}
