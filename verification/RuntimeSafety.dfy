/** The invariants of the task runtime hold in every state of every run. */
module RuntimeSafety {
  import opened Common
  import opened Rings
  import opened Runtime
  import opened RuntimeInvariants
  import opened RuntimePlacement
  import opened RuntimeGroups
  import opened RuntimeSlots

  /** Names refer to existing things. */
  ghost predicate Named(c: Config, s: State) {
    && (forall q :: q in s.queues <==> QueueExists(q, c.workers, c.priorities))
    && s.numTasks.Keys == c.actions.Keys && s.inFlight.Keys == c.actions.Keys
    && (forall t :: t in s.attrs ==> Acceptable(c, s, s.attrs[t]))
  }

  /** The parts of the invariant. */
  datatype Part =
    | OfNames | OfStages | OfCounts | OfPlaces | OfLogs | OfFlights | OfAims | OfSuits | OfGroups | OfCalls | OfHouses
    | OfLookups

  ghost predicate Keeps(c: Config, s: State, part: Part) {
    match part
    case OfNames => Named(c, s)
    case OfStages => Staged(s)
    case OfCounts => Counting(s)
    case OfPlaces => Placed(s)
    case OfLogs => Logged(s)
    case OfFlights => Flights(s)
    case OfAims => Aimed(c, s)
    case OfSuits => LogSuits(c, s.attrs, s.pushes) && LogSuits(c, s.attrs, s.pops)
    case OfGroups => Grouped(c, s)
    case OfCalls => Collecting(s)
    case OfHouses => Housed(s)
    case OfLookups => Reported(s)
  }

  ghost predicate Inv(c: Config, s: State) {
    forall part :: Keeps(c, s, part)
  }

  /** The instance the producer of `t` is working on has a stage, and which. */
  ghost predicate Working(s: State, t: nat) {
    Exists(s, t) &&
    var pc := s.tasks[t].producer;
    && (pc.Count? && pc.k < s.attrs[t].instances ==> Entry(t, pc.k) in s.stage && s.stage[Entry(t, pc.k)].Fresh?)
    && (pc.Aim? || pc.Push? ==> Entry(t, pc.k) in s.stage && s.stage[Entry(t, pc.k)].Counted?)
    && (pc.Rollback? ==> Entry(t, 0) in s.stage && s.stage[Entry(t, 0)].Counted?)
    && (s.attrs[t].instances == 1 ==> Entry(t, 0) in s.stage)
  }

  lemma CurrentEntry(s: State, t: nat)
    requires Staged(s) && Counting(s) && Exists(s, t)
    ensures Working(s, t)
  {
    assert TaskOk(s.attrs[t], s.tasks[t]);
  }

  /** Everything but the creation of a task leaves the attributes, the names of the
      groups and the sets of keys alone. */
  ghost predicate SameNames(s: State, s': State) {
    && s'.attrs == s.attrs && s'.tasks.Keys == s.tasks.Keys && s'.queues.Keys == s.queues.Keys
    && s'.numTasks.Keys == s.numTasks.Keys && s'.inFlight.Keys == s.inFlight.Keys && s'.groups.Keys == s.groups.Keys
  }

  lemma UpdateKeys<K, V>(m: map<K, V>, k: K, v: V)
    requires k in m
    ensures m[k := v].Keys == m.Keys
  {
  }

  lemma NamesByCount(s: State, s': State, t: nat)
    requires CountStep(s, s', t) || RollbackStep(s, s', t)
    ensures SameNames(s, s')
  {
    var a := s.attrs[t].action;
    UpdateKeys(s.tasks, t, s'.tasks[t]);
    UpdateKeys(s.numTasks, a, s'.numTasks[a]);
    UpdateKeys(s.inFlight, a, s'.inFlight[a]);
  }

  lemma NamesByJoin(s: State, s': State, t: nat)
    requires JoinStep(s, s', t)
    ensures SameNames(s, s')
  {
    UpdateKeys(s.tasks, t, s'.tasks[t]);
    if s.attrs[t].group.Some? { UpdateKeys(s.groups, s.attrs[t].group.value, s'.groups[s.attrs[t].group.value]); }
  }

  lemma NamesByPush(c: Config, s: State, s': State, t: nat)
    requires PushStep(c, s, s', t)
    ensures SameNames(s, s')
  {
    UpdateKeys(s.tasks, t, s'.tasks[t]);
    UpdateKeys(s.queues, s.tasks[t].producer.queue, s'.queues[s.tasks[t].producer.queue]);
  }

  /** The producer steps that leave queues, stages and counters of actions alone. */
  predicate PlainStart(step: Step) {
    step.Joins? || step.Publishes? || step.HasStarted?
  }

  predicate PlainLoop(step: Step) {
    step.Aims? || step.FindsFull? || step.Fails?
  }

  predicate Plain(step: Step) {
    PlainStart(step) || PlainLoop(step)
  }

  /** Only the record of the producer's task changes, and perhaps a group. */
  ghost predicate OnlyTask(s: State, s': State, t: nat) {
    && t in s.tasks && t in s'.tasks && s'.tasks == s.tasks[t := s'.tasks[t]] && !s.tasks[t].producer.Started?
    && s'.queues == s.queues && s'.attrs == s.attrs && s'.stage == s.stage && s'.numTasks == s.numTasks
       && s'.inFlight == s.inFlight
    && s'.pushes == s.pushes && s'.pops == s.pops && s'.collectors == s.collectors
    && s'.mains == s.mains && s'.lookups == s.lookups
  }

  /** The record of a task after its group, if there is one, has counted it. */
  function JoinedTask(attr: Attributes, task: Task): Task {
    task.(producer := Publish, phase := if attr.group.Some? then Unfinished else task.phase)
  }

  lemma JoinEffectAlone(s: State, s': State, t: nat)
    requires JoinStep(s, s', t) && s.attrs[t].group.None?
    ensures OnlyTask(s, s', t) && s'.slots == s.slots && s'.tasks[t] == JoinedTask(s.attrs[t], s.tasks[t])
  {
  }

  lemma JoinEffectIn(s: State, s': State, t: nat, g: nat)
    requires JoinStep(s, s', t) && s.attrs[t].group == Some(g)
    ensures OnlyTask(s, s', t) && s'.slots == s.slots && s'.tasks[t] == JoinedTask(s.attrs[t], s.tasks[t])
  {
  }

  lemma JoinEffect(s: State, s': State, t: nat)
    requires JoinStep(s, s', t)
    ensures OnlyTask(s, s', t) && s'.slots == s.slots && s'.tasks[t] == JoinedTask(s.attrs[t], s.tasks[t])
  {
    match s.attrs[t].group
    case None => JoinEffectAlone(s, s', t);
    case Some(g) => JoinEffectIn(s, s', t, g);
  }

  lemma StartPlain(c: Config, s: State, s': State, step: Step)
    requires ProducerMoves(c, s, s', step) && PlainStart(step)
    ensures OnlyTask(s, s', step.t) && !s'.tasks[step.t].producer.Push?
  {
    match step
    case Joins(t) => JoinEffect(s, s', t);
    case Publishes(_) =>
    case HasStarted(_) =>
  }

  lemma LoopPlain(c: Config, s: State, s': State, step: Step)
    requires ProducerMoves(c, s, s', step) && PlainLoop(step)
    ensures OnlyTask(s, s', step.t) && (!step.Aims? ==> !s'.tasks[step.t].producer.Push?)
  {
  }

  lemma PlainEffect(c: Config, s: State, s': State, step: Step)
    requires ProducerMoves(c, s, s', step) && Plain(step)
    ensures OnlyTask(s, s', step.t) && (!step.Aims? ==> !s'.tasks[step.t].producer.Push?)
  {
    if PlainStart(step) { StartPlain(c, s, s', step); } else { LoopPlain(c, s, s', step); }
  }

  /** A producer that has finished its loop takes no more steps; the others change one
      task's record. */
  lemma TasksByProducer(c: Config, s: State, s': State, step: Step)
    requires ProducerMoves(c, s, s', step)
    ensures step.t in s.tasks && step.t in s'.tasks && s'.tasks == s.tasks[step.t := s'.tasks[step.t]]
    ensures !s.tasks[step.t].producer.Started? && s'.attrs == s.attrs && s'.collectors == s.collectors
  {
    if Plain(step) { PlainEffect(c, s, s', step); }
  }

  lemma NamesByProducer(c: Config, s: State, s': State, step: Step)
    requires ProducerMoves(c, s, s', step)
    ensures SameNames(s, s')
  {
    if step.Joins? { NamesByJoin(s, s', step.t); }
    else if step.Pushes? { NamesByPush(c, s, s', step.t); }
    else if step.Counts? || step.RollsBack? { NamesByCount(s, s', step.t); }
    else { UpdateKeys(s.tasks, step.t, s'.tasks[step.t]); }
  }

  lemma NamesByExecutor(c: Config, s: State, s': State, step: Step)
    requires (ExecutorMoves(c, s, s', step) || (step.Pops? && PopStep(c, s, s', step.q, step.w, step.inspect)))
    ensures SameNames(s, s')
  {
    if step.Pops? {
      UpdateKeys(s.queues, step.q, s'.queues[step.q]);
    } else {
      var t := step.e.task;
      UpdateKeys(s.tasks, t, s'.tasks[t]);
      if step.Releases? {
        UpdateKeys(s.numTasks, s.attrs[t].action, s'.numTasks[s.attrs[t].action]);
        UpdateKeys(s.inFlight, s.attrs[t].action, s'.inFlight[s.attrs[t].action]);
      } else if step.Notifies? {
        UpdateKeys(s.groups, s.attrs[t].group.value, s'.groups[s.attrs[t].group.value]);
      }
    }
  }

  lemma NamesByCollector(c: Config, s: State, s': State, step: Step)
    requires CollectorMoves(s, s', step)
    ensures SameNames(s, s')
  {
  }

  lemma NamesKept(c: Config, s: State, s': State, step: Step)
    requires Next(c, s, s', step) && !step.CreateTask?
    ensures SameNames(s, s')
  {
    if ProducerMoves(c, s, s', step) { NamesByProducer(c, s, s', step); }
    else if CollectorMoves(s, s', step) { NamesByCollector(c, s, s', step); }
    else { NamesByExecutor(c, s, s', step); }
  }

  lemma StageKeysByProducer(c: Config, s: State, s': State, step: Step)
    requires ProducerMoves(c, s, s', step) && Working(s, step.t)
    ensures s'.stage.Keys == s.stage.Keys
  {
    if Plain(step) {
      PlainEffect(c, s, s', step);
    } else {
      var e := Entry(step.t, if step.RollsBack? then 0 else s.tasks[step.t].producer.k);
      UpdateKeys(s.stage, e, s'.stage[e]);
    }
  }

  lemma StageKeysByExecutor(c: Config, s: State, s': State, step: Step)
    requires ExecutorMoves(c, s, s', step)
    ensures s'.stage.Keys == s.stage.Keys
  {
    UpdateKeys(s.stage, step.e, s'.stage[step.e]);
  }

  lemma CollectorLeaves(s: State, s': State, step: Step)
    requires CollectorMoves(s, s', step)
    ensures s'.stage == s.stage && s'.attrs == s.attrs && s'.queues == s.queues && s'.pushes == s.pushes
    ensures s'.pops == s.pops
    ensures s'.mains == s.mains && s'.lookups == s.lookups
  {
  }

  lemma NamedKept(c: Config, s: State, s': State, step: Step)
    requires Named(c, s) && Next(c, s, s', step)
    ensures Named(c, s')
  {
    if !step.CreateTask? {
      NamesKept(c, s, s', step);
    }
  }

  lemma NamesStaged(s: State, s': State)
    requires Staged(s) && SameNames(s, s') && s'.stage.Keys == s.stage.Keys
    ensures Staged(s')
  {
    assert forall e :: e in s'.stage <==> e in s'.stage.Keys;
  }

  lemma StagedByCreation(c: Config, s: State, s': State, t: nat, attr: Attributes)
    requires Staged(s) && CreateStep(c, s, s', t, attr)
    ensures Staged(s')
  {
  }

  lemma StageKeysOfProducer(c: Config, s: State, s': State, step: Step)
    requires Staged(s) && Counting(s) && ProducerMoves(c, s, s', step)
    ensures s'.stage.Keys == s.stage.Keys
  {
    CurrentEntry(s, step.t);
    StageKeysByProducer(c, s, s', step);
  }

  lemma StageKeysByPop(c: Config, s: State, s': State, q: QueueId, w: nat, inspect: bool)
    requires Placed(s) && PopStep(c, s, s', q, w, inspect)
    ensures s'.stage.Keys == s.stage.Keys
  {
    UpdateKeys(s.stage, s.queues[q][0], Popped(w, inspect));
  }

  lemma StageKeysKept(c: Config, s: State, s': State, step: Step)
    requires Staged(s) && Counting(s) && Placed(s) && Next(c, s, s', step) && !step.CreateTask?
    ensures s'.stage.Keys == s.stage.Keys
  {
    if step.Pops? { StageKeysByPop(c, s, s', step.q, step.w, step.inspect); }
    else if ProducerMoves(c, s, s', step) { StageKeysOfProducer(c, s, s', step); }
    else if ExecutorMoves(c, s, s', step) { StageKeysByExecutor(c, s, s', step); }
    else { CollectorLeaves(s, s', step); }
  }

  lemma StagedKept(c: Config, s: State, s': State, step: Step)
    requires Staged(s) && Counting(s) && Placed(s) && Next(c, s, s', step)
    ensures Staged(s')
  {
    if step.CreateTask? {
      StagedByCreation(c, s, s', step.t, step.attr);
    } else {
      NamesKept(c, s, s', step);
      StageKeysKept(c, s, s', step);
      NamesStaged(s, s');
    }
  }

  lemma CountingByStart(c: Config, s: State, s': State, step: Step)
    requires Counting(s) && ProducerMoves(c, s, s', step) && PlainStart(step)
    ensures Counting(s')
  {
    match step
    case Joins(t) => JoinCounting(s, s', t);
    case Publishes(t) => PublishCounting(s, s', t);
    case HasStarted(t) => StartedCounting(s, s', t);
  }

  lemma CountingByLoop(c: Config, s: State, s': State, step: Step)
    requires Counting(s) && ProducerMoves(c, s, s', step) && Working(s, step.t) && PlainLoop(step)
    ensures Counting(s')
  {
    match step
    case Aims(t, q) => AimCounting(c, s, s', t, q);
    case FindsFull(t) => FullCounting(c, s, s', t);
    case Fails(t) => FailCounting(s, s', t);
  }

  lemma CountingByProducer(c: Config, s: State, s': State, step: Step)
    requires Counting(s) && ProducerMoves(c, s, s', step) && Working(s, step.t)
    ensures Counting(s')
  {
    if step.Counts? { CountCounting(s, s', step.t); }
    else if step.Pushes? { PushCounting(c, s, s', step.t); }
    else if step.RollsBack? { RollbackCounting(s, s', step.t); }
    else if PlainStart(step) { CountingByStart(c, s, s', step); }
    else { CountingByLoop(c, s, s', step); }
  }

  lemma CountingOfProducer(c: Config, s: State, s': State, step: Step)
    requires Staged(s) && Counting(s) && ProducerMoves(c, s, s', step)
    ensures Counting(s')
  {
    CurrentEntry(s, step.t);
    CountingByProducer(c, s, s', step);
  }

  lemma CountingByExecutor(c: Config, s: State, s': State, step: Step)
    requires Counting(s) && ExecutorMoves(c, s, s', step)
    ensures Counting(s')
  {
    match step
    case Checks(e) => CheckCounting(s, s', e);
    case Claims(e) => ClaimCounting(s, s', e);
    case Starts(e) => StartCounting(s, s', e);
    case ReturnsFrom(e) => BodyCounting(s, s', e);
    case CountsDown(e) => CountdownCounting(s, s', e);
    case Finishes(e) => FinishCounting(s, s', e);
    case Releases(e) => ReleaseCounting(s, s', e);
    case Notifies(e) => NotifyCounting(c, s, s', e);
    case Reports(e) => ReportCounting(s, s', e);
  }

  lemma CountingByCollector(c: Config, s: State, s': State, step: Step)
    requires Counting(s) && Grouped(c, s) && CollectorMoves(s, s', step)
    ensures Counting(s')
  {
    match step
    case Takes(j) =>
      HeadWaits(c, s, s.collectors[j].group);
      TakeCounting(s, s', j);
    case Deletes(j) => DeleteCounting(s, s', j);
    case Uncounts(j) => UncountCounting(s, s', j);
    case _ =>
  }

  lemma CountingKept(c: Config, s: State, s': State, step: Step)
    requires Staged(s) && Counting(s) && Placed(s) && Grouped(c, s) && Next(c, s, s', step)
    ensures Counting(s')
  {
    if ProducerMoves(c, s, s', step) { CountingOfProducer(c, s, s', step); }
    else if ExecutorMoves(c, s, s', step) { CountingByExecutor(c, s, s', step); }
    else if CollectorMoves(s, s', step) { CountingByCollector(c, s, s', step); }
    else if step.CreateTask? { CreateCounting(c, s, s', step.t, step.attr); }
    else { PopCounting(c, s, s', step.q, step.w, step.inspect); }
  }

  // ----- placement --------------------------------------------------------

  lemma QueuesByProducer(c: Config, s: State, s': State, step: Step)
    requires ProducerMoves(c, s, s', step) && Working(s, step.t) && !step.Pushes?
    ensures QueuesUntouched(s, s')
  {
    if Plain(step) { PlainEffect(c, s, s', step); }
    else if step.Counts? { QueuesByCount(s, s', step.t); }
    else { QueuesByRollback(s, s', step.t); }
  }

  lemma QueuesByCount(s: State, s': State, t: nat)
    requires CountStep(s, s', t) && Working(s, t)
    ensures QueuesUntouched(s, s')
  {
  }

  lemma QueuesByRollback(s: State, s': State, t: nat)
    requires RollbackStep(s, s', t) && Working(s, t)
    ensures QueuesUntouched(s, s')
  {
  }

  lemma QueuesByExecutor(c: Config, s: State, s': State, step: Step)
    requires ExecutorMoves(c, s, s', step)
    ensures QueuesUntouched(s, s')
  {
  }

  lemma QueuesByOthers(c: Config, s: State, s': State, step: Step)
    requires (ExecutorMoves(c, s, s', step) || CollectorMoves(s, s', step))
    ensures QueuesUntouched(s, s')
  {
    if ExecutorMoves(c, s, s', step) { QueuesByExecutor(c, s, s', step); } else { CollectorLeaves(s, s', step); }
  }

  lemma QueuesByCreation(c: Config, s: State, s': State, t: nat, attr: Attributes)
    requires Staged(s) && CreateStep(c, s, s', t, attr)
    ensures QueuesUntouched(s, s')
  {
  }

  lemma PlacedKept(c: Config, s: State, s': State, step: Step)
    requires Staged(s) && Counting(s) && Placed(s) && Logged(s) && Next(c, s, s', step)
    ensures Placed(s') && Logged(s')
  {
    if step.Pushes? {
      CurrentEntry(s, step.t);
      PushPlaced(c, s, s', step.t);
      PushLogged(c, s, s', step.t);
    } else if step.Pops? {
      PopPlaced(c, s, s', step.q, step.w, step.inspect);
      PopLogged(c, s, s', step.q, step.w, step.inspect);
    } else {
      if ProducerMoves(c, s, s', step) {
        CurrentEntry(s, step.t);
        QueuesByProducer(c, s, s', step);
      }
      else if step.CreateTask? { QueuesByCreation(c, s, s', step.t, step.attr); }
      else { QueuesByOthers(c, s, s', step); }
      UntouchedPlaced(s, s');
    }
  }

  /** Every step leaves a queue alone, appends to it or takes its head, as
      `ConcurrentQueue.Refines` shows of the code. */
  lemma QueueSteps(c: Config, s: State, s': State, step: Step, q: QueueId)
    requires Staged(s) && Counting(s) && Next(c, s, s', step) && q in s.queues
    ensures q in s'.queues
    ensures || s'.queues[q] == s.queues[q]
            || (exists e :: Appends(s.queues[q], s'.queues[q], c.limit, e))
            || (exists e :: TakesHead(s.queues[q], s'.queues[q], e))
  {
    if step.Pushes? {
      var e := Entry(step.t, s.tasks[step.t].producer.k);
      assert q == s.tasks[step.t].producer.queue ==> Appends(s.queues[q], s'.queues[q], c.limit, e);
    } else if step.Pops? {
      assert q == step.q ==> TakesHead(s.queues[q], s'.queues[q], s.queues[q][0]);
    } else if step.CreateTask? {
      QueuesByCreation(c, s, s', step.t, step.attr);
    } else if ProducerMoves(c, s, s', step) {
      CurrentEntry(s, step.t);
      QueuesByProducer(c, s, s', step);
    } else {
      QueuesByOthers(c, s, s', step);
    }
  }

  // ----- actions ----------------------------------------------------------

  lemma FlightsByPush(c: Config, s: State, s': State, t: nat)
    requires Flights(s) && PushStep(c, s, s', t) && Working(s, t)
    ensures Flights(s')
  {
    StageFlights(s, s', Entry(t, s.tasks[t].producer.k), Queued(s.tasks[t].producer.queue));
    UntouchedFlights(s, s');
  }

  lemma FlightsByProducer(c: Config, s: State, s': State, step: Step)
    requires Flights(s) && ProducerMoves(c, s, s', step) && Working(s, step.t)
    ensures Flights(s')
  {
    if Plain(step) {
      PlainEffect(c, s, s', step);
      UntouchedFlights(s, s');
    }
    else if step.Counts? { CountFlights(s, s', step.t); }
    else if step.RollsBack? { LandFlights(s, s', Entry(step.t, 0), s.attrs[step.t].action); }
    else { FlightsByPush(c, s, s', step.t); }
  }

  lemma FlightsByExecutor(c: Config, s: State, s': State, step: Step)
    requires Flights(s) && ExecutorMoves(c, s, s', step)
    requires step.Checks? ==> s.tasks[step.e.task].state.Scheduled? || s.tasks[step.e.task].state.Running?
    ensures Flights(s')
  {
    if step.Releases? {
      LandFlights(s, s', step.e, s.attrs[step.e.task].action);
    } else {
      StageFlights(s, s', step.e, s'.stage[step.e]);
      UntouchedFlights(s, s');
    }
  }

  lemma FlightsByCollector(s: State, s': State, step: Step)
    requires Flights(s) && CollectorMoves(s, s', step)
    ensures Flights(s')
  {
    CollectorLeaves(s, s', step);
    UntouchedFlights(s, s');
  }

  lemma FlightsByPop(c: Config, s: State, s': State, q: QueueId, w: nat, inspect: bool)
    requires Flights(s) && PopStep(c, s, s', q, w, inspect)
    requires s.queues[q][0] in s.stage && s.stage[s.queues[q][0]].Queued?
    ensures Flights(s')
  {
    StageFlights(s, s', s.queues[q][0], Popped(w, inspect));
    UntouchedFlights(s, s');
  }

  lemma FlightsOfProducer(c: Config, s: State, s': State, step: Step)
    requires Staged(s) && Counting(s) && Flights(s) && ProducerMoves(c, s, s', step)
    ensures Flights(s')
  {
    CurrentEntry(s, step.t);
    FlightsByProducer(c, s, s', step);
  }

  lemma FlightsOfExecutor(c: Config, s: State, s': State, step: Step)
    requires Counting(s) && Flights(s) && ExecutorMoves(c, s, s', step)
    ensures Flights(s')
  {
    if step.Checks? { LiveState(s.attrs[step.e.task], s.tasks[step.e.task], step.e.instance, s.stage[step.e]); }
    FlightsByExecutor(c, s, s', step);
  }

  lemma FlightsByCreation(c: Config, s: State, s': State, t: nat, attr: Attributes)
    requires Staged(s) && Flights(s) && CreateStep(c, s, s', t, attr)
    ensures Flights(s')
  {
    CreateFlights(c, s, s', t, attr);
    UntouchedFlights(s, s');
  }

  lemma FlightsKept(c: Config, s: State, s': State, step: Step)
    requires Staged(s) && Counting(s) && Placed(s) && Flights(s) && Next(c, s, s', step)
    ensures Flights(s')
  {
    if ProducerMoves(c, s, s', step) { FlightsOfProducer(c, s, s', step); }
    else if ExecutorMoves(c, s, s', step) { FlightsOfExecutor(c, s, s', step); }
    else if CollectorMoves(s, s', step) { FlightsByCollector(s, s', step); }
    else if step.CreateTask? { FlightsByCreation(c, s, s', step.t, step.attr); }
    else { FlightsByPop(c, s, s', step.q, step.w, step.inspect); }
  }

  // ----- affinity ---------------------------------------------------------

  /** Only instance `e` changes its stage and only task `t` its producer. */
  lemma OneAimed(c: Config, s: State, s': State, e: Entry, t: nat)
    requires Aimed(c, s) && s'.attrs == s.attrs
    requires forall x :: x in s'.stage && x != e ==> x in s.stage && s'.stage[x] == s.stage[x]
    requires e in s'.stage && e.task in s.attrs ==> StageSuits(c, s.attrs[e.task], s'.stage[e])
    requires forall u :: u in s'.tasks && u != t ==> u in s.tasks && s'.tasks[u].producer == s.tasks[u].producer
    requires t in s'.tasks && t in s.attrs && s'.tasks[t].producer.Push? ==>
               Suits(c, s.attrs[t], s'.tasks[t].producer.queue)
    ensures Aimed(c, s')
  {
  }

  lemma AimedByAim(c: Config, s: State, s': State, t: nat, q: QueueId)
    requires Aimed(c, s) && AimStep(c, s, s', t, q) && s.attrs[t].accepted
    ensures Aimed(c, s')
  {
    AimSuits(c, s.attrs[t], s.tasks[t].producer.k, s.counter, q);
  }

  lemma AimedByPush(c: Config, s: State, s': State, t: nat)
    requires Aimed(c, s) && PushStep(c, s, s', t)
    ensures Aimed(c, s')
  {
    OneAimed(c, s, s', Entry(t, s.tasks[t].producer.k), t);
  }

  lemma AimedByCount(c: Config, s: State, s': State, t: nat)
    requires Aimed(c, s) && (CountStep(s, s', t) || RollbackStep(s, s', t))
    ensures Aimed(c, s')
  {
    OneAimed(c, s, s', Entry(t, if s.tasks[t].producer.Count? then s.tasks[t].producer.k else 0), t);
  }

  lemma AimedByProducer(c: Config, s: State, s': State, step: Step)
    requires Aimed(c, s) && ProducerMoves(c, s, s', step) && (step.Aims? ==> s.attrs[step.t].accepted)
    ensures Aimed(c, s')
  {
    if step.Aims? { AimedByAim(c, s, s', step.t, step.q); }
    else if step.Pushes? { AimedByPush(c, s, s', step.t); }
    else if step.Counts? || step.RollsBack? { AimedByCount(c, s, s', step.t); }
    else { AimedUntouched(c, s, s', step); }
  }

  lemma AimedUntouched(c: Config, s: State, s': State, step: Step)
    requires Aimed(c, s) && ProducerMoves(c, s, s', step) && Plain(step) && !step.Aims?
    ensures Aimed(c, s')
  {
    PlainEffect(c, s, s', step);
  }

  predicate WithWorker(st: Stage) {
    st.Popped? || st.Executing? || st.Settling?
  }

  /** An executor changes one instance and its task; it stays on its worker. */
  ghost predicate OneInstance(s: State, s': State, e: Entry) {
    && e in s.stage && e in s'.stage && s'.attrs == s.attrs && s'.stage == s.stage[e := s'.stage[e]]
    && (forall u :: u in s'.tasks ==> u in s.tasks && s'.tasks[u].producer == s.tasks[u].producer)
    && WithWorker(s.stage[e])
    && (s'.stage[e].Abandoned? || s'.stage[e].Done?
        || (WithWorker(s'.stage[e]) && s'.stage[e].worker == s.stage[e].worker))
  }

  predicate AfterCountdown(step: Step) {
    step.Finishes? || step.Releases? || step.Notifies? || step.Reports?
  }

  lemma ExecuteEffect(c: Config, s: State, s': State, step: Step)
    requires ExecutorMoves(c, s, s', step) && !AfterCountdown(step)
    ensures OneInstance(s, s', step.e)
  {
  }

  lemma SettleEffect(c: Config, s: State, s': State, step: Step)
    requires ExecutorMoves(c, s, s', step) && AfterCountdown(step)
    ensures OneInstance(s, s', step.e)
  {
  }

  lemma ExecutorEffect(c: Config, s: State, s': State, step: Step)
    requires ExecutorMoves(c, s, s', step)
    ensures OneInstance(s, s', step.e)
  {
    if AfterCountdown(step) { SettleEffect(c, s, s', step); } else { ExecuteEffect(c, s, s', step); }
  }

  lemma InstanceAimed(c: Config, s: State, s': State, e: Entry)
    requires Aimed(c, s) && OneInstance(s, s', e)
    ensures Aimed(c, s')
  {
    if e.task in s.attrs { assert StageSuits(c, s.attrs[e.task], s.stage[e]); }
    OneAimed(c, s, s', e, e.task);
  }

  lemma AimedByExecutor(c: Config, s: State, s': State, step: Step)
    requires Aimed(c, s) && ExecutorMoves(c, s, s', step)
    ensures Aimed(c, s')
  {
    ExecutorEffect(c, s, s', step);
    InstanceAimed(c, s, s', step.e);
  }

  lemma AimedByPop(c: Config, s: State, s': State, q: QueueId, w: nat, inspect: bool)
    requires Aimed(c, s) && PopStep(c, s, s', q, w, inspect)
    requires var e := s.queues[q][0]; e in s.stage && s.stage[e] == Queued(q)
    ensures Aimed(c, s')
  {
    var e := s.queues[q][0];
    if e.task in s.attrs {
      assert StageSuits(c, s.attrs[e.task], s.stage[e]);
      PopAdmits(c, s.attrs[e.task], q, w);
      assert StageSuits(c, s.attrs[e.task], Popped(w, inspect));
    }
    OneAimed(c, s, s', e, e.task);
  }

  lemma AimedByCreation(c: Config, s: State, s': State, t: nat, attr: Attributes)
    requires Aimed(c, s) && CreateStep(c, s, s', t, attr)
    requires forall e :: e in s.stage ==> e.task in s.attrs
    ensures Aimed(c, s')
  {
    forall x | x in s'.stage && x.task in s'.attrs ensures StageSuits(c, s'.attrs[x.task], s'.stage[x]) {
      assert x in FreshEntries(t, attr.instances) || x in s.stage;
    }
  }

  lemma AimedByCollector(c: Config, s: State, s': State, step: Step)
    requires Aimed(c, s) && CollectorMoves(s, s', step)
    ensures Aimed(c, s')
  {
    assert s'.stage == s.stage && s'.attrs == s.attrs;
    forall t | t in s'.tasks ensures t in s.tasks && s'.tasks[t].producer == s.tasks[t].producer {
    }
  }

  lemma AimedOfProducer(c: Config, s: State, s': State, step: Step)
    requires Counting(s) && Aimed(c, s) && ProducerMoves(c, s, s', step)
    ensures Aimed(c, s')
  {
    assert TaskOk(s.attrs[step.t], s.tasks[step.t]);
    AimedByProducer(c, s, s', step);
  }

  lemma AimedKept(c: Config, s: State, s': State, step: Step)
    requires Staged(s) && Counting(s) && Placed(s) && Aimed(c, s) && Next(c, s, s', step)
    ensures Aimed(c, s')
  {
    if ProducerMoves(c, s, s', step) { AimedOfProducer(c, s, s', step); }
    else if ExecutorMoves(c, s, s', step) { AimedByExecutor(c, s, s', step); }
    else if CollectorMoves(s, s', step) { AimedByCollector(c, s, s', step); }
    else if step.CreateTask? { AimedByCreation(c, s, s', step.t, step.attr); }
    else { AimedByPop(c, s, s', step.q, step.w, step.inspect); }
  }

  lemma LogGrows(c: Config, attrs: map<nat, Attributes>, log: seq<(QueueId, Entry)>, q: QueueId, e: Entry)
    requires LogSuits(c, attrs, log) && e.task in attrs && Suits(c, attrs[e.task], q)
    ensures LogSuits(c, attrs, log + [(q, e)])
  {
  }

  lemma LogsByPush(c: Config, s: State, s': State, t: nat)
    requires Aimed(c, s) && PushStep(c, s, s', t) && LogSuits(c, s.attrs, s.pushes)
    ensures LogSuits(c, s'.attrs, s'.pushes) && s'.attrs == s.attrs && s'.pops == s.pops
  {
    LogGrows(c, s.attrs, s.pushes, s.tasks[t].producer.queue, Entry(t, s.tasks[t].producer.k));
  }

  lemma LogsByPop(c: Config, s: State, s': State, q: QueueId, w: nat, inspect: bool)
    requires Staged(s) && Placed(s) && Aimed(c, s) && PopStep(c, s, s', q, w, inspect) && LogSuits(c, s.attrs, s.pops)
    ensures LogSuits(c, s'.attrs, s'.pops) && s'.attrs == s.attrs && s'.pushes == s.pushes
  {
    var e := s.queues[q][0];
    assert StageSuits(c, s.attrs[e.task], s.stage[e]);
    LogGrows(c, s.attrs, s.pops, q, e);
  }

  lemma LogsKept(c: Config, s: State, s': State, step: Step)
    requires Staged(s) && Placed(s) && Aimed(c, s) && Next(c, s, s', step)
    requires LogSuits(c, s.attrs, s.pushes) && LogSuits(c, s.attrs, s.pops)
    ensures LogSuits(c, s'.attrs, s'.pushes) && LogSuits(c, s'.attrs, s'.pops)
  {
    if step.Pushes? { LogsByPush(c, s, s', step.t); }
    else if step.Pops? { LogsByPop(c, s, s', step.q, step.w, step.inspect); }
    else { LogsByOthers(c, s, s', step); }
  }

  lemma LogsByOthers(c: Config, s: State, s': State, step: Step)
    requires Next(c, s, s', step) && !step.Pushes? && !step.Pops?
    requires LogSuits(c, s.attrs, s.pushes) && LogSuits(c, s.attrs, s.pops)
    ensures LogSuits(c, s'.attrs, s'.pushes) && LogSuits(c, s'.attrs, s'.pops)
  {
    LogsUntouched(c, s, s', step);
    if !step.CreateTask? { NamesKept(c, s, s', step); }
  }

  lemma LogsUntouched(c: Config, s: State, s': State, step: Step)
    requires Next(c, s, s', step) && !step.Pushes? && !step.Pops?
    ensures s'.pushes == s.pushes && s'.pops == s.pops
  {
    if CollectorMoves(s, s', step) { CollectorLeaves(s, s', step); }
    else if ExecutorMoves(c, s, s', step) { QueuesByOthers(c, s, s', step); }
    else if ProducerMoves(c, s, s', step) { LogsByProducer(c, s, s', step); }
  }

  lemma LogsByProducer(c: Config, s: State, s': State, step: Step)
    requires ProducerMoves(c, s, s', step) && !step.Pushes?
    ensures s'.pushes == s.pushes && s'.pops == s.pops
  {
    if Plain(step) { PlainEffect(c, s, s', step); }
  }

  // ----- groups -----------------------------------------------------------

  lemma GroupedByProducer(c: Config, s: State, s': State, step: Step)
    requires Named(c, s) && Counting(s) && Grouped(c, s) && Collecting(s) && Next(c, s, s', step)
    requires step.Joins? || step.Fails?
    ensures Grouped(c, s') && Collecting(s')
  {
    assert TaskOk(s.attrs[step.t], s.tasks[step.t]);
    if step.Joins? { JoinGrouped(c, s, s', step.t); } else { FailGrouped(c, s, s', step.t); }
  }

  lemma GroupedByNotify(c: Config, s: State, s': State, e: Entry)
    requires Counting(s) && Grouped(c, s) && Collecting(s) && NotifyStep(c, s, s', e)
    ensures Grouped(c, s') && Collecting(s')
  {
    assert TaskOk(s.attrs[e.task], s.tasks[e.task])
           && EntryOk(s.attrs[e.task], s.tasks[e.task], e.instance, s.stage[e]);
    NotifyGrouped(c, s, s', e);
  }

  lemma GroupedByCollector(c: Config, s: State, s': State, step: Step)
    requires Grouped(c, s) && Collecting(s) && CollectorMoves(s, s', step)
    ensures Grouped(c, s') && Collecting(s')
  {
    if step.Takes? { TakeGrouped(c, s, s', step.j); }
    else if step.Deletes? { DeleteGrouped(c, s, s', step.j); }
    else if step.Uncounts? { UncountGrouped(c, s, s', step.j); }
    else { GroupedByOpening(c, s, s', step); }
  }

  lemma GroupedByOpening(c: Config, s: State, s': State, step: Step)
    requires Grouped(c, s) && Collecting(s) && CollectorMoves(s, s', step) && !step.Takes? && !step.Deletes?
    requires !step.Uncounts?
    ensures Grouped(c, s') && Collecting(s')
  {
    GroupedByWaiting(c, s, s', step);
    if step.Opens? { OpenCollecting(s, s', step.j, step.g, step.all); }
    else { CollectingByWaiting(s, s', step); }
  }

  lemma GroupedKept(c: Config, s: State, s': State, step: Step)
    requires Named(c, s) && Counting(s) && Grouped(c, s) && Collecting(s) && Next(c, s, s', step)
    ensures Grouped(c, s') && Collecting(s')
  {
    if step.Joins? || step.Fails? { GroupedByProducer(c, s, s', step); }
    else if step.Notifies? { GroupedByNotify(c, s, s', step.e); }
    else if CollectorMoves(s, s', step) { GroupedByCollector(c, s, s', step); }
    else { GroupedByOthers(c, s, s', step); }
  }

  /** A change of one task's record that leaves its phase alone. */
  lemma SamePhases(s: State, s': State, t: nat)
    requires s'.attrs == s.attrs && t in s.tasks && t in s'.tasks && s'.tasks == s.tasks[t := s'.tasks[t]]
    requires s'.tasks[t].phase == s.tasks[t].phase
    ensures PhasesUntouched(s, s')
  {
  }

  lemma PhasesByProducer(c: Config, s: State, s': State, step: Step)
    requires ProducerMoves(c, s, s', step) && !step.Joins? && !step.Fails?
    ensures PhasesUntouched(s, s') && s'.groups == s.groups && s'.collectors == s.collectors
  {
    SamePhases(s, s', step.t);
  }

  lemma PhasesByExecutor(c: Config, s: State, s': State, step: Step)
    requires ExecutorMoves(c, s, s', step) && !step.Notifies?
    ensures PhasesUntouched(s, s') && s'.groups == s.groups && s'.collectors == s.collectors
  {
    assert s'.tasks == s.tasks[step.e.task := s'.tasks[step.e.task]];
    SamePhases(s, s', step.e.task);
  }

  lemma GroupedByWaiting(c: Config, s: State, s': State, step: Step)
    requires Grouped(c, s) && CollectorMoves(s, s', step) && (step.Opens? || step.Loads? || step.Misses? || step.Helps?)
    ensures Grouped(c, s')
  {
    assert PhasesUntouched(s, s');
    UntouchedGrouped(c, s, s');
  }

  /** Only call `j` goes on, which has no task in hand. */
  ghost predicate CallOnly(s: State, s': State, j: nat) {
    && s'.tasks == s.tasks && s'.attrs == s.attrs && s'.groups == s.groups && j in s.collectors && j in s'.collectors
    && s'.collectors == s.collectors[j := s.collectors[j].(pc := s'.collectors[j].pc)]
    && !s.collectors[j].pc.Busy? && !s.collectors[j].pc.Returned? && !s'.collectors[j].pc.Busy?
  }

  lemma WaitingCall(s: State, s': State, step: Step)
    requires CollectorMoves(s, s', step) && (step.Loads? || step.Misses? || step.Helps?)
    ensures CallOnly(s, s', step.j)
  {
  }

  lemma CallCollecting(s: State, s': State, j: nat)
    requires Collecting(s) && CallOnly(s, s', j)
    ensures Collecting(s')
  {
    assert PhasesUntouched(s, s');
    forall i | i in s'.collectors ensures CollectorOk(s', i, s'.collectors[i]) {
      assert CollectorOk(s, i, s.collectors[i]);
    }
  }

  lemma CollectingByWaiting(s: State, s': State, step: Step)
    requires Collecting(s) && CollectorMoves(s, s', step) && (step.Loads? || step.Misses? || step.Helps?)
    ensures Collecting(s')
  {
    WaitingCall(s, s', step);
    CallCollecting(s, s', step.j);
  }

  lemma GroupedByOthers(c: Config, s: State, s': State, step: Step)
    requires Grouped(c, s) && Collecting(s) && Next(c, s, s', step)
    requires !CollectorMoves(s, s', step) && !step.Joins? && !step.Fails? && !step.Notifies?
    ensures Grouped(c, s') && Collecting(s')
  {
    if ProducerMoves(c, s, s', step) { PhasesByProducer(c, s, s', step); }
    else if ExecutorMoves(c, s, s', step) { PhasesByExecutor(c, s, s', step); }
    else { assert PhasesUntouched(s, s'); }
    PhasesGrouped(c, s, s');
  }

  // ----- slots and callbacks ----------------------------------------------

  /** A failing start deletes a living task. */
  lemma HousedByFail(s: State, s': State, t: nat)
    requires Counting(s) && Housed(s) && FailStep(s, s', t)
    ensures Housed(s')
  {
    assert TaskOk(s.attrs[t], s.tasks[t]);
    MoveOut(s, s', t);
  }

  ghost predicate AliveSame(s: State, s': State, t: nat) {
    s'.slots == s.slots && t in s.tasks && t in s'.tasks && (Alive(s'.tasks[t]) <==> Alive(s.tasks[t]))
  }

  lemma AliveByStart(c: Config, s: State, s': State, step: Step)
    requires ProducerMoves(c, s, s', step) && PlainStart(step) && (step.Joins? ==> s.tasks[step.t].phase.Outside?)
    ensures AliveSame(s, s', step.t)
  {
    match step
    case Joins(t) => JoinEffect(s, s', t);
    case Publishes(_) =>
    case HasStarted(_) =>
  }

  lemma AliveByLoop(c: Config, s: State, s': State, step: Step)
    requires ProducerMoves(c, s, s', step) && (step.Aims? || step.FindsFull?)
    ensures AliveSame(s, s', step.t)
  {
  }

  lemma AliveByPushing(c: Config, s: State, s': State, step: Step)
    requires ProducerMoves(c, s, s', step) && !Plain(step)
    ensures AliveSame(s, s', step.t)
  {
  }

  lemma AliveByProducer(c: Config, s: State, s': State, step: Step)
    requires ProducerMoves(c, s, s', step) && !step.Fails? && (step.Joins? ==> s.tasks[step.t].phase.Outside?)
    ensures AliveSame(s, s', step.t)
  {
    if PlainStart(step) { AliveByStart(c, s, s', step); }
    else if PlainLoop(step) { AliveByLoop(c, s, s', step); }
    else { AliveByPushing(c, s, s', step); }
  }

  lemma HousedByProducer(c: Config, s: State, s': State, step: Step)
    requires Counting(s) && Housed(s) && ProducerMoves(c, s, s', step) && !step.Fails?
    ensures Housed(s')
  {
    assert TaskOk(s.attrs[step.t], s.tasks[step.t]);
    TasksByProducer(c, s, s', step);
    AliveByProducer(c, s, s', step);
    TaskHouses(s, s', step.t);
    UntouchedHoused(s, s');
  }

  lemma AliveByExecutor(c: Config, s: State, s': State, step: Step)
    requires ExecutorMoves(c, s, s', step) && (step.Notifies? ==> s.tasks[step.e.task].phase.Unfinished?)
    ensures s'.slots == s.slots && s'.attrs == s.attrs && step.e.task in s.tasks && step.e.task in s'.tasks
    ensures s'.tasks == s.tasks[step.e.task := s'.tasks[step.e.task]]
    ensures Alive(s'.tasks[step.e.task]) <==> Alive(s.tasks[step.e.task])
  {
  }

  lemma HousedByExecutor(c: Config, s: State, s': State, step: Step)
    requires Counting(s) && Housed(s) && ExecutorMoves(c, s, s', step)
    ensures Housed(s')
  {
    var e := step.e;
    assert TaskOk(s.attrs[e.task], s.tasks[e.task]);
    assert EntryOk(s.attrs[e.task], s.tasks[e.task], e.instance, s.stage[e]);
    AliveByExecutor(c, s, s', step);
    TaskHouses(s, s', e.task);
    UntouchedHoused(s, s');
  }

  lemma HousedByDelete(s: State, s': State, j: nat)
    requires Counting(s) && Housed(s) && DeleteStep(s, s', j)
    ensures Housed(s')
  {
    var t := s.collectors[j].pc.task;
    assert TaskOk(s.attrs[t], s.tasks[t]);
    MoveOut(s, s', t);
  }

  lemma HousedByCollector(c: Config, s: State, s': State, step: Step)
    requires Counting(s) && Grouped(c, s) && Housed(s) && CollectorMoves(s, s', step)
    ensures Housed(s')
  {
    if step.Deletes? {
      HousedByDelete(s, s', step.j);
    } else {
      if step.Takes? { HeadWaits(c, s, s.collectors[step.j].group); }
      assert HousesUntouched(s, s');
      UntouchedHoused(s, s');
    }
  }

  lemma HousedKept(c: Config, s: State, s': State, step: Step)
    requires Counting(s) && Grouped(c, s) && Housed(s) && Next(c, s, s', step)
    ensures Housed(s')
  {
    if step.Fails? { HousedByFail(s, s', step.t); }
    else if ProducerMoves(c, s, s', step) { HousedByProducer(c, s, s', step); }
    else if ExecutorMoves(c, s, s', step) { HousedByExecutor(c, s, s', step); }
    else if CollectorMoves(s, s', step) { HousedByCollector(c, s, s', step); }
    else if step.CreateTask? { CreateHoused(c, s, s', step.t, step.attr); }
    else { UntouchedHoused(s, s'); }
  }

  lemma ReportedByProducer(c: Config, s: State, s': State, step: Step)
    requires Reported(s) && ProducerMoves(c, s, s', step) && Working(s, step.t)
    ensures Reported(s')
  {
    if Plain(step) {
      PlainEffect(c, s, s', step);
      SameReported(s, s');
    } else {
      var e := Entry(step.t, if step.RollsBack? then 0 else s.tasks[step.t].producer.k);
      StageReported(s, s', e);
    }
  }

  lemma ReportedOfProducer(c: Config, s: State, s': State, step: Step)
    requires Staged(s) && Counting(s) && Reported(s) && ProducerMoves(c, s, s', step)
    ensures Reported(s')
  {
    CurrentEntry(s, step.t);
    ReportedByProducer(c, s, s', step);
  }

  lemma ReportedByExecutor(c: Config, s: State, s': State, step: Step)
    requires Reported(s) && ExecutorMoves(c, s, s', step)
    ensures Reported(s')
  {
    if step.Reports? { ReportReported(s, s', step.e); } else { StageReported(s, s', step.e); }
  }

  lemma ReportedByCollector(s: State, s': State, step: Step)
    requires Reported(s) && CollectorMoves(s, s', step)
    ensures Reported(s')
  {
    CollectorLeaves(s, s', step);
    SameReported(s, s');
  }

  lemma ReportedKept(c: Config, s: State, s': State, step: Step)
    requires Staged(s) && Counting(s) && Reported(s) && Next(c, s, s', step)
    ensures Reported(s')
  {
    if ProducerMoves(c, s, s', step) { ReportedOfProducer(c, s, s', step); }
    else if ExecutorMoves(c, s, s', step) { ReportedByExecutor(c, s, s', step); }
    else if CollectorMoves(s, s', step) { ReportedByCollector(s, s', step); }
    else if step.CreateTask? { CreateReported(c, s, s', step.t, step.attr); }
    else { PopReported(c, s, s', step.q, step.w, step.inspect); }
  }

  // ----- every run --------------------------------------------------------

  lemma PlacesKept(c: Config, s: State, s': State, step: Step, part: Part)
    requires Inv(c, s) && Next(c, s, s', step)
    ensures part.OfNames? || part.OfStages? || part.OfPlaces? || part.OfLogs? || part.OfFlights? ==> Keeps(c, s', part)
  {
    assert Keeps(c, s, OfStages) && Keeps(c, s, OfCounts) && Keeps(c, s, OfPlaces);
    if part.OfNames? {
      assert Keeps(c, s, OfNames);
      NamedKept(c, s, s', step);
    } else if part.OfStages? {
      StagedKept(c, s, s', step);
    } else if part.OfPlaces? || part.OfLogs? {
      assert Keeps(c, s, OfLogs);
      PlacedKept(c, s, s', step);
    } else if part.OfFlights? {
      assert Keeps(c, s, OfFlights);
      FlightsKept(c, s, s', step);
    }
  }

  lemma CountsKept(c: Config, s: State, s': State, step: Step, part: Part)
    requires Inv(c, s) && Next(c, s, s', step)
    ensures part.OfCounts? || part.OfAims? || part.OfSuits? ==> Keeps(c, s', part)
  {
    assert Keeps(c, s, OfStages) && Keeps(c, s, OfCounts) && Keeps(c, s, OfPlaces);
    if part.OfCounts? {
      assert Keeps(c, s, OfGroups);
      CountingKept(c, s, s', step);
    } else if part.OfAims? {
      assert Keeps(c, s, OfAims);
      AimedKept(c, s, s', step);
    } else if part.OfSuits? {
      assert Keeps(c, s, OfAims) && Keeps(c, s, OfSuits);
      LogsKept(c, s, s', step);
    }
  }

  lemma GroupsKept(c: Config, s: State, s': State, step: Step, part: Part)
    requires Inv(c, s) && Next(c, s, s', step)
    ensures part.OfGroups? || part.OfCalls? || part.OfHouses? || part.OfLookups? ==> Keeps(c, s', part)
  {
    assert Keeps(c, s, OfCounts) && Keeps(c, s, OfGroups);
    if part.OfGroups? || part.OfCalls? {
      assert Keeps(c, s, OfNames) && Keeps(c, s, OfCalls);
      GroupedKept(c, s, s', step);
    } else if part.OfHouses? {
      assert Keeps(c, s, OfHouses);
      HousedKept(c, s, s', step);
    } else if part.OfLookups? {
      assert Keeps(c, s, OfStages) && Keeps(c, s, OfLookups);
      ReportedKept(c, s, s', step);
    }
  }

  lemma NextKept(c: Config, s: State, s': State, step: Step)
    requires Inv(c, s) && Next(c, s, s', step)
    ensures Inv(c, s')
  {
    forall part ensures Keeps(c, s', part) {
      PlacesKept(c, s, s', step, part);
      CountsKept(c, s, s', step, part);
      GroupsKept(c, s, s', step, part);
    }
  }

  lemma InitInv(c: Config, s: State)
    requires Init(c, s)
    ensures Inv(c, s)
  {
    forall part ensures Keeps(c, s, part) {
    }
  }

  lemma MovesKept(c: Config, s: State, s': State)
    requires Inv(c, s) && Moves(c, s, s')
    ensures Inv(c, s')
  {
    var step :| Next(c, s, s', step);
    NextKept(c, s, s', step);
  }

  lemma PathExtends(c: Config, path: seq<State>, s': State)
    requires Path(c, path) && Moves(c, path[|path| - 1], s')
    ensures Path(c, path + [s'])
  {
    var longer := path + [s'];
    forall i | 0 < i < |longer| ensures StepAt(c, longer, i) {
      assert longer[i - 1] == path[i - 1];
      assert i < |path| ==> longer[i] == path[i] && StepAt(c, path, i);
    }
  }

  /** The invariant holds on the rest of a path once it holds. */
  lemma {:induction false} SafeAlong(c: Config, path: seq<State>, i: nat, k: nat)
    requires Path(c, path) && i <= k < |path| && Inv(c, path[i])
    ensures Inv(c, path[k])
  {
    if i < k {
      SafeAlong(c, path, i, k - 1);
      assert StepAt(c, path, k);
      MovesKept(c, path[k - 1], path[k]);
    }
  }

  lemma RunSafe(c: Config, run: seq<State>, i: nat)
    requires Run(c, run) && i < |run|
    ensures Inv(c, run[i])
  {
    InitInv(c, run[0]);
    SafeAlong(c, run, 0, i);
  }
}
