/** Tasks that keep their group waiting for ever. */
module RuntimeStuck {
  import opened Common
  import opened Affinity
  import opened Runtime
  import opened RuntimeInvariants
  import opened RuntimePlacement
  import opened RuntimeGroups
  import opened RuntimeSafety
  import opened RuntimePhases

  // ----- stuck tasks ------------------------------------------------------

  /** The producer still has to choose a queue for some instance. */
  predicate AimsLeft(attr: Attributes, pc: ProducerPc) {
    pc.Publish? || (pc.Count? && pc.k < attr.instances) || pc.Aim?
  }

  /** A task of which no instance will ever be the last to finish, or whose end its group
      will not hear of. */
  ghost predicate Doomed(c: Config, attr: Attributes, task: Task)
    requires c.Valid()
  {
    || attr.instances == 0
    || !attr.accepted
    || task.producer.Rollback? || task.producer.Fail?
    || (!HasWorker(MaskOf(c, attr), c.workers) && AimsLeft(attr, task.producer))
    || task.phase.Lost?
    || (c.limit == 0 && task.phase.Unfinished?)
  }

  /** A doomed task that its group has counted. */
  ghost predicate Stuck(c: Config, s: State, g: nat, t: nat) {
    && c.Valid() && t in s.tasks && t in s.attrs && !PhaseIn(s, g, t).Outside?
    && Doomed(c, s.attrs[t], s.tasks[t])
  }

  ghost predicate NoneStuck(c: Config, s: State, g: nat) {
    forall t :: !Stuck(c, s, g, t)
  }

  /** Before the last choice of a queue some instance has not been pushed. */
  lemma AimsPending(s: State, t: nat)
    requires Staged(s) && Counting(s) && t in s.tasks && AimsLeft(s.attrs[t], s.tasks[t].producer)
    requires s.attrs[t].instances > 0
    ensures s.tasks[t].pending != {}
  {
    var attr, task := s.attrs[t], s.tasks[t];
    assert TaskOk(attr, task);
    if !task.producer.Publish? {
      var e := Entry(t, task.producer.k);
      assert e in s.stage && EntryOk(attr, task, e.instance, s.stage[e]);
    }
  }

  /** A group goes on counting a stuck task. */
  lemma StuckCounted(c: Config, s: State, g: nat, t: nat)
    requires Staged(s) && Counting(s) && Stuck(c, s, g, t)
    ensures PhaseIn(s, g, t).Unfinished? || PhaseIn(s, g, t).Lost?
  {
    var attr, task := s.attrs[t], s.tasks[t];
    assert TaskOk(attr, task);
    if AimsLeft(attr, task.producer) && attr.instances > 0 { AimsPending(s, t); }
  }

  // ----- stuck tasks stay stuck -------------------------------------------

  /** A task aims only at workers in its mask. */
  lemma AimNeedsWorker(c: Config, attr: Attributes, k: nat, counter: nat, q: QueueId)
    requires c.Valid() && AimsAt(c, attr, k, counter, q)
    ensures HasWorker(MaskOf(c, attr), c.workers)
  {
    if Restricted(c, attr) {
      var n: nat :| Hit(MaskOf(c, attr), counter, n, c.workers, q.worker);
      assert Get(MaskOf(c, attr), q.worker, c.workers);
    } else {
      assert Get(MaskOf(c, attr), 0, c.workers);
    }
  }

  /** How a producer step changes the producer of its task. */
  lemma ProducerPcs(c: Config, s: State, s': State, step: Step)
    requires ProducerMoves(c, s, s', step) && c.Valid()
    ensures var attr, pc, pc' := s.attrs[step.t], s.tasks[step.t].producer, s'.tasks[step.t].producer;
            && (pc.Rollback? ==> pc'.Fail?) && (pc.Fail? ==> step.Fails?)
            && (pc.Publish? ==> step.Fails? || pc' == Count(0))
            && (pc.Count? && pc.k < attr.instances ==> pc' == Aim(pc.k))
            && (pc.Aim? ==> pc'.Push? && HasWorker(MaskOf(c, attr), c.workers))
  {
    if step.Aims? { AimNeedsWorker(c, s.attrs[step.t], s.tasks[step.t].producer.k, s.counter, step.q); }
  }

  lemma DoomedByProducer(c: Config, s: State, s': State, step: Step)
    requires ProducerMoves(c, s, s', step) && c.Valid() && Doomed(c, s.attrs[step.t], s.tasks[step.t])
    requires s.attrs[step.t].group.Some? && !s.tasks[step.t].producer.Join?
    ensures Doomed(c, s.attrs[step.t], s'.tasks[step.t])
  {
    ProducerPcs(c, s, s', step);
    JoinedPhase(c, s, s', step);
  }

  lemma JoinedPhase(c: Config, s: State, s': State, step: Step)
    requires ProducerMoves(c, s, s', step) && !s.tasks[step.t].producer.Join?
    ensures step.t in s'.tasks
    ensures step.Fails? && s.attrs[step.t].group.Some? ==> s'.tasks[step.t].phase.Lost?
    ensures !step.Fails? ==> s'.tasks[step.t].phase == s.tasks[step.t].phase
  {
  }

  /** A step that leaves a task's producer alone leaves it stuck, unless it waits. */
  lemma StuckThrough(c: Config, s: State, s': State, g: nat, t: nat)
    requires Stuck(c, s, g, t) && Exists(s', t) && s'.attrs[t] == s.attrs[t]
    requires s'.tasks[t].producer == s.tasks[t].producer && PhaseMoves(PhaseIn(s, g, t), PhaseIn(s', g, t))
    requires PhaseIn(s, g, t).Unfinished? || PhaseIn(s, g, t).Lost?
    requires c.limit == 0 ==> !PhaseIn(s', g, t).Waiting?
    ensures Stuck(c, s', g, t)
  {
  }

  lemma StuckByProducer(c: Config, s: State, s': State, step: Step, g: nat, t: nat)
    requires Counting(s) && Grouped(c, s) && ProducerMoves(c, s, s', step) && Stuck(c, s, g, t)
    ensures Stuck(c, s', g, t)
  {
    assert TaskOk(s.attrs[t], s.tasks[t]);
    TasksByProducer(c, s, s', step);
    if step.t == t {
      DoomedByProducer(c, s, s', step);
      JoinedPhase(c, s, s', step);
    }
  }

  /** With a limit of zero no task waits in a group's queue. */
  lemma NothingWaits(c: Config, s: State, g: nat, t: nat)
    requires Named(c, s) && Grouped(c, s) && c.limit == 0
    ensures !PhaseIn(s, g, t).Waiting?
  {
    if !PhaseIn(s, g, t).Outside? {
      assert Acceptable(c, s, s.attrs[t]);
      assert GroupOk(c.limit, s, g, s.groups[g]);
    }
  }

  lemma ProducersByExecutor(c: Config, s: State, s': State, step: Step)
    requires ExecutorMoves(c, s, s', step)
    ensures s'.attrs == s.attrs && forall t :: t in s.tasks ==>
              t in s'.tasks && s'.tasks[t].producer == s.tasks[t].producer
  {
    ExecutorEffect(c, s, s', step);
    NamesByExecutor(c, s, s', step);
    assert forall t :: t in s.tasks ==> t in s'.tasks.Keys;
  }

  lemma ProducersByCollector(s: State, s': State, step: Step)
    requires CollectorMoves(s, s', step)
    ensures s'.attrs == s.attrs && forall t :: t in s.tasks ==>
              t in s'.tasks && s'.tasks[t].producer == s.tasks[t].producer
  {
  }

  /** Every step but a producer's leaves producers alone. */
  lemma ProducersKept(c: Config, s: State, s': State, step: Step, t: nat)
    requires Next(c, s, s', step) && !ProducerMoves(c, s, s', step) && Exists(s, t)
    ensures Exists(s', t) && s'.attrs[t] == s.attrs[t] && s'.tasks[t].producer == s.tasks[t].producer
  {
    if ExecutorMoves(c, s, s', step) { ProducersByExecutor(c, s, s', step); }
    else if CollectorMoves(s, s', step) { ProducersByCollector(s, s', step); }
  }

  lemma StuckByOthers(c: Config, s: State, s': State, step: Step, g: nat, t: nat)
    requires Staged(s) && Counting(s) && Grouped(c, s) && Named(c, s') && Grouped(c, s') && Stuck(c, s, g, t)
    requires Next(c, s, s', step) && !ProducerMoves(c, s, s', step)
    ensures Stuck(c, s', g, t)
  {
    ProducersKept(c, s, s', step, t);
    PhaseAdvances(c, s, s', step, g, t);
    StuckCounted(c, s, g, t);
    if c.limit == 0 { NothingWaits(c, s', g, t); }
    StuckThrough(c, s, s', g, t);
  }

  lemma StuckKept(c: Config, s: State, s': State, step: Step, g: nat, t: nat)
    requires Staged(s) && Counting(s) && Grouped(c, s) && Named(c, s') && Grouped(c, s') && Stuck(c, s, g, t)
    requires Next(c, s, s', step)
    ensures Stuck(c, s', g, t)
  {
    if ProducerMoves(c, s, s', step) { StuckByProducer(c, s, s', step, g, t); }
    else { StuckByOthers(c, s, s', step, g, t); }
  }

  // ----- how tasks get stuck ----------------------------------------------

  /** Attributes with which a task is stuck as soon as its group counts it. */
  ghost predicate Unfit(c: Config, attr: Attributes)
    requires c.Valid()
  {
    attr.instances == 0 || !attr.accepted || !HasWorker(MaskOf(c, attr), c.workers) || c.limit == 0
  }

  /** An unfit task joins the group, a single instance finds its queue full, or a finished
      task finds the group's queue full. */
  ghost predicate Sticks(c: Config, s: State, step: Step, g: nat) {
    c.Valid() &&
    match step
    case Joins(t) => t in s.attrs && s.attrs[t].group == Some(g) && Unfit(c, s.attrs[t])
    case FindsFull(t) => t in s.attrs && s.attrs[t].group == Some(g)
    case Notifies(e) =>
      e.task in s.attrs && s.attrs[e.task].group == Some(g) && g in s.groups && |s.groups[g].queue| >= c.limit
    case _ => false
  }

  /** Who is about to push has a worker in the mask. */
  lemma PushHasWorker(c: Config, s: State, t: nat)
    requires Aimed(c, s) && Exists(s, t) && s.tasks[t].producer.Push?
    ensures HasWorker(MaskOf(c, s.attrs[t]), c.workers)
  {
    var q := s.tasks[t].producer.queue;
    assert Suits(c, s.attrs[t], q);
    if Restricted(c, s.attrs[t]) {
      assert Get(MaskOf(c, s.attrs[t]), q.worker, c.workers);
    } else {
      assert Get(MaskOf(c, s.attrs[t]), 0, c.workers);
    }
  }

  lemma NewlyByJoin(c: Config, s: State, s': State, t: nat, g: nat)
    requires Counting(s) && JoinStep(s, s', t) && Stuck(c, s', g, t)
    ensures Sticks(c, s, Joins(t), g)
  {
    assert TaskOk(s.attrs[t], s.tasks[t]);
  }

  /** A task is as doomed as before, or its producer has run into a full queue. */
  lemma NewlyDoomed(c: Config, s: State, s': State, step: Step)
    requires Aimed(c, s) && ProducerMoves(c, s, s', step) && !step.Joins? && !step.FindsFull?
    requires Doomed(c, s.attrs[step.t], s'.tasks[step.t]) && s.attrs[step.t].group.Some?
    requires ProducerOk(s.attrs[step.t], s.tasks[step.t])
    ensures Doomed(c, s.attrs[step.t], s.tasks[step.t])
  {
    JoinedPhase(c, s, s', step);
    if step.Pushes? { PushHasWorker(c, s, step.t); }
  }

  lemma NewlyByProducer(c: Config, s: State, s': State, step: Step, g: nat)
    requires Counting(s) && Aimed(c, s) && ProducerMoves(c, s, s', step)
    requires Stuck(c, s', g, step.t) && !Stuck(c, s, g, step.t)
    ensures Sticks(c, s, step, g)
  {
    assert TaskOk(s.attrs[step.t], s.tasks[step.t]);
    if step.Joins? { NewlyByJoin(c, s, s', step.t, g); }
    else if !step.FindsFull? {
      TasksByProducer(c, s, s', step);
      JoinedPhase(c, s, s', step);
      NewlyDoomed(c, s, s', step);
    }
  }

  /** A task that gets stuck without its producer moving is lost. */
  lemma NewlyLost(c: Config, s: State, s': State, g: nat, t: nat)
    requires Counting(s') && Exists(s, t) && s'.attrs == s.attrs && Stuck(c, s', g, t) && !Stuck(c, s, g, t)
    requires Counting(s) && s'.tasks[t].producer == s.tasks[t].producer
    requires PhaseMoves(PhaseIn(s, g, t), PhaseIn(s', g, t))
    ensures PhaseIn(s', g, t).Lost? && !PhaseIn(s, g, t).Lost?
  {
    assert TaskOk(s.attrs[t], s.tasks[t]) && TaskOk(s'.attrs[t], s'.tasks[t]);
  }

  lemma NewlyByExecutor(c: Config, s: State, s': State, step: Step, g: nat, t: nat)
    requires Counting(s) && Counting(s') && Grouped(c, s) && ExecutorMoves(c, s, s', step) && Exists(s, t)
    requires Stuck(c, s', g, t) && !Stuck(c, s, g, t)
    ensures Sticks(c, s, step, g)
  {
    ProducersByExecutor(c, s, s', step);
    PhaseOfExecutor(c, s, s', step, g, t);
    NewlyLost(c, s, s', g, t);
  }

  lemma NewlyByCollector(c: Config, s: State, s': State, step: Step, g: nat, t: nat)
    requires Counting(s) && Counting(s') && Grouped(c, s) && CollectorMoves(s, s', step) && Exists(s, t)
    requires Stuck(c, s', g, t)
    ensures Stuck(c, s, g, t)
  {
    if !Stuck(c, s, g, t) {
      ProducersByCollector(s, s', step);
      PhaseOfCollector(c, s, s', step, g, t);
      NewlyLost(c, s, s', g, t);
    }
  }

  lemma NewlyByOthers(c: Config, s: State, s': State, step: Step, g: nat, t: nat)
    requires Next(c, s, s', step) && (step.CreateTask? || step.Pops?) && Stuck(c, s', g, t)
    ensures Stuck(c, s, g, t)
  {
  }

  lemma StuckBeside(c: Config, s: State, s': State, g: nat, t: nat)
    requires Stuck(c, s', g, t) && s'.attrs == s.attrs && t in s.tasks && s'.tasks[t] == s.tasks[t]
    ensures Stuck(c, s, g, t)
  {
  }

  lemma NewlyOfProducer(c: Config, s: State, s': State, step: Step, g: nat, t: nat)
    requires Counting(s) && Aimed(c, s) && ProducerMoves(c, s, s', step) && Stuck(c, s', g, t) && !Stuck(c, s, g, t)
    ensures Sticks(c, s, step, g)
  {
    TasksByProducer(c, s, s', step);
    if step.t == t { NewlyByProducer(c, s, s', step, g); } else { StuckBeside(c, s, s', g, t); }
  }

  lemma StuckExisted(s: State, s': State, t: nat)
    requires SameNames(s, s') && s.attrs.Keys == s.tasks.Keys && t in s'.tasks
    ensures Exists(s, t)
  {
    assert t in s'.tasks.Keys;
  }

  lemma NewlyOfOthers(c: Config, s: State, s': State, step: Step, g: nat, t: nat)
    requires Staged(s) && Counting(s) && Grouped(c, s) && Counting(s') && Next(c, s, s', step)
    requires !ProducerMoves(c, s, s', step)
    requires !step.CreateTask? && !step.Pops? && Stuck(c, s', g, t) && !Stuck(c, s, g, t)
    ensures Sticks(c, s, step, g)
  {
    NamesKept(c, s, s', step);
    StuckExisted(s, s', t);
    if ExecutorMoves(c, s, s', step) { NewlyByExecutor(c, s, s', step, g, t); }
    else { NewlyByCollector(c, s, s', step, g, t); }
  }

  /** A task becomes stuck only by a sticking step. */
  lemma NewlyStuck(c: Config, s: State, s': State, step: Step, g: nat, t: nat)
    requires Staged(s) && Counting(s) && Aimed(c, s) && Grouped(c, s) && Counting(s') && Next(c, s, s', step)
    requires Stuck(c, s', g, t) && !Stuck(c, s, g, t)
    ensures Sticks(c, s, step, g)
  {
    if ProducerMoves(c, s, s', step) { NewlyOfProducer(c, s, s', step, g, t); }
    else if step.CreateTask? || step.Pops? { NewlyByOthers(c, s, s', step, g, t); }
    else { NewlyOfOthers(c, s, s', step, g, t); }
  }

  lemma JoinSticks(c: Config, s: State, s': State, t: nat, g: nat)
    requires Counting(s) && JoinStep(s, s', t) && Sticks(c, s, Joins(t), g)
    ensures Stuck(c, s', g, t)
  {
    assert TaskOk(s.attrs[t], s.tasks[t]);
  }

  lemma FullSticks(c: Config, s: State, s': State, t: nat, g: nat)
    requires Counting(s) && FullStep(c, s, s', t) && Sticks(c, s, FindsFull(t), g)
    ensures Stuck(c, s', g, t)
  {
    assert TaskOk(s.attrs[t], s.tasks[t]);
  }

  lemma NotifySticks(c: Config, s: State, s': State, e: Entry, g: nat)
    requires NotifyStep(c, s, s', e) && Sticks(c, s, Notifies(e), g)
    ensures Stuck(c, s', g, e.task)
  {
  }

  /** A sticking step gets a task stuck. */
  lemma SticksStuck(c: Config, s: State, s': State, step: Step, g: nat)
    requires Counting(s) && Next(c, s, s', step) && Sticks(c, s, step, g)
    ensures Stuck(c, s', g, if step.Notifies? then step.e.task else step.t)
  {
    match step
    case Joins(t) => JoinSticks(c, s, s', t, g);
    case FindsFull(t) => FullSticks(c, s, s', t, g);
    case Notifies(e) => NotifySticks(c, s, s', e, g);
  }
}
