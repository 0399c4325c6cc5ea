/** The task runtime as a transition system: any number of threads start tasks,
    execute instances and collect groups, one atomic operation per step.

    The program counter of an activity is kept with what it acts on: the start of a
    task in the task, the execution of an instance in the instance's stage, a wait
    for a group in a collector. Nothing restricts which activities overlap, so the
    runs include those of every assignment of activities to threads, with actions
    that wait and thereby execute further tasks on the same thread.

    Queue operations are single steps: `RuntimeSafety.QueueSteps` and
    `ConcurrentQueue.Refines` show that both layers append to and take the head of
    the same bounded queues. An entry of a queue is a task pointer; it carries the
    instance it was pushed for so that the entries of a multi-instance task can be
    told apart, but no step depends on that number. Fields below a "history" comment
    only record what happened. */
module Runtime {
  import opened Common
  import opened Affinity

  datatype TaskState = Prenatal | Scheduled | Running | Completed | Error

  datatype Entry = Entry(task: nat, instance: nat)

  /** The start of a task, up to the end of its instance loop. */
  datatype ProducerPc =
    | Join | Publish
    | Count(k: nat) | Aim(k: nat) | Push(k: nat, queue: QueueId)
    | Rollback | Fail
    | Started | Failed

  datatype ExecutePc = Start | Body | Countdown

  datatype SettlePc = Finish | Release(last: bool) | Notify | Report

  /** Where an instance of a task stands. */
  datatype Stage =
    | Fresh                                             // not yet counted by its action
    | Counted                                           // counted, not yet pushed
    | Queued(queue: QueueId)
    | Popped(worker: nat, inspect: bool)                // taken out of a queue
    | Executing(worker: nat, number: nat, epc: ExecutePc) // up to the countdown
    | Settling(worker: nat, spc: SettlePc)              // after the countdown
    | Done
    | Abandoned                                         // push failed, or dropped by a worker

  /** Where a task stands towards its group. */
  datatype Phase =
    | Outside               // not counted by a group (yet)
    | Unfinished            // counted, not yet handed to the group's queue
    | Waiting               // in the group's queue
    | Taken(collector: nat)       // popped by a collector
    | Deleted(collector: nat)     // deleted by that collector, still counted
    | Collected(collector: nat) // no longer counted
    | Lost                  // counted for ever: start failed or group queue full

  /** What a task is started with. */
  datatype Attributes = Attributes(
    slot: nat,              // pool id
    instances: nat,
    action: nat,
    priority: nat,
    mask: Mask,
    queue: Option<nat>,
    group: Option<nat>,
    accepted: bool)         // whether action and priority pass the checks of the start

  datatype Task = Task(
    state: TaskState,
    todo: int,              // instances_todo
    current: nat,           // current_instance
    producer: ProducerPc,
    // history
    handed: seq<nat>,       // instances in the order of the numbers they got
    pending: set<nat>,      // instances not yet past the countdown
    lasts: nat,             // countdowns that read 1
    finisher: Option<nat>,  // the instance whose countdown read 1, until it is done
    phase: Phase)

  datatype Group = Group(
    numTasks: int,
    queue: seq<nat>,
    // history
    open: set<nat>,         // tasks the counter stands for
    collected: seq<nat>)    // tasks in the order of their deletion

  /** After the execution of `entry` the main loop has looked for a callback in the task's
      slot, where it has found `found`. */
  datatype Lookup = Lookup(entry: Entry, found: Option<nat>)

  datatype CollectorPc = Load | Take | Busy(task: nat) | Help | Returned

  /** A call of wait_all or wait_any. */
  datatype Collector = Collector(
    group: nat, all: bool, pc: CollectorPc,
    // history
    got: seq<nat>)          // tasks this call has collected

  datatype QueueAttributes = QueueAttributes(slot: nat, priority: nat, ordered: bool)

  /** What does not change: the node's limits, the actions' masks, the queues'
      attributes. */
  datatype Config = Config(
    workers: nat,
    priorities: nat,
    limit: nat,
    actions: map<nat, Mask>,
    queues: map<nat, QueueAttributes>)
  {
    ghost predicate Valid() {
      0 < workers < UINT_RANGE
    }
  }

  datatype State = State(
    queues: map<QueueId, seq<Entry>>,
    attrs: map<nat, Attributes>,        // fixed when the task is created
    tasks: map<nat, Task>,
    stage: map<Entry, Stage>,
    numTasks: map<nat, int>,            // per action
    groups: map<nat, Group>,
    collectors: map<nat, Collector>,
    counter: nat,                       // affine_task_counter
    slots: map<nat, nat>,               // which task lives in which slot of the pool
    mains: set<Entry>,                  // instances taken by the main loop of a worker
    // history
    inFlight: map<nat, set<Entry>>,     // per action: the entries numTasks stands for
    pushes: seq<(QueueId, Entry)>,
    pops: seq<(QueueId, Entry)>,
    lookups: seq<Lookup>)

  // ----- derived notions --------------------------------------------------

  ghost function OrderedMaskOf(c: Config, queue: Option<nat>): (m: Option<Mask>)
    requires c.Valid()
  {
    if queue.Some? && queue.value in c.queues && c.queues[queue.value].ordered
    then Some(OrderedMask(c.queues[queue.value].slot, c.workers)) else None
  }

  /** The mask a task is scheduled with. */
  ghost function MaskOf(c: Config, attr: Attributes): (m: Mask)
    requires c.Valid()
  {
    Effective(if attr.action in c.actions then c.actions[attr.action] else {}, attr.mask,
              OrderedMaskOf(c, attr.queue), c.workers)
  }

  ghost predicate Restricted(c: Config, attr: Attributes)
    requires c.Valid()
  {
    MaskOf(c, attr) != AllCores(c.workers)
  }

  /** The queue instance `k` of a task is pushed to when the shared counter reads
      `counter`. */
  ghost predicate AimsAt(c: Config, attr: Attributes, k: nat, counter: nat, q: QueueId)
    requires c.Valid()
  {
    && q.priority == attr.priority
    && if Restricted(c, attr)
       then q.Private? && IsTarget(MaskOf(c, attr), counter, c.workers, q.worker)
       else q.Public? && q.worker == (attr.slot + k) % c.workers
  }

  /** What a start may be called with; `task_enqueue` forces the priority of its queue. */
  ghost predicate Acceptable(c: Config, s: State, attr: Attributes) {
    && attr.accepted == (attr.action in c.actions && attr.priority < c.priorities)
    && (attr.queue.Some? ==> attr.queue.value in c.queues && attr.priority == c.queues[attr.queue.value].priority)
    && (attr.group.Some? ==> attr.group.value in s.groups)
  }

  /** A task before anything else can see it. */
  ghost function NewTask(attr: Attributes): Task {
    Task(Prenatal, attr.instances, 0, Join, [], Below(attr.instances), 0, None, Outside)
  }

  function FreshEntries(t: nat, n: nat): (m: map<Entry, Stage>)
    ensures forall e :: e in m <==> e.task == t && e.instance < n
    ensures forall e :: e in m ==> m[e] == Fresh
  {
    if n == 0 then map[] else FreshEntries(t, n - 1)[Entry(t, n - 1) := Fresh]
  }

  // ----- initial states ---------------------------------------------------

  ghost predicate Init(c: Config, s: State) {
    && c.Valid()
    && (forall q :: q in s.queues <==> QueueExists(q, c.workers, c.priorities))
    && (forall q :: q in s.queues ==> s.queues[q] == [])
    && s.attrs == map[] && s.tasks == map[] && s.stage == map[] && s.collectors == map[]
    && s.numTasks.Keys == c.actions.Keys && s.inFlight.Keys == c.actions.Keys
    && (forall a :: a in s.numTasks ==> s.numTasks[a] == 0)
    && (forall a :: a in s.inFlight ==> s.inFlight[a] == {})
    && (forall g :: g in s.groups ==> s.groups[g] == Group(0, [], {}, []))
    && s.counter == 0 && s.pushes == [] && s.pops == []
    && s.slots == map[] && s.mains == {} && s.lookups == []
  }

  // ----- starting a task --------------------------------------------------

  ghost predicate CreateStep(c: Config, s: State, s': State, t: nat, attr: Attributes) {
    && t !in s.tasks && t !in s.attrs && attr.slot !in s.slots && Acceptable(c, s, attr)
    && s' == s.(attrs := s.attrs[t := attr], tasks := s.tasks[t := NewTask(attr)],
                stage := s.stage + FreshEntries(t, attr.instances), slots := s.slots[attr.slot := t])
  }

  predicate Exists(s: State, t: nat) {
    t in s.tasks && t in s.attrs
  }

  /** The group, if there is one, counts the new task. */
  ghost predicate JoinStep(s: State, s': State, t: nat) {
    Exists(s, t) && s.tasks[t].producer.Join? &&
    match s.attrs[t].group
    case None =>
      s' == s.(tasks := s.tasks[t := s.tasks[t].(producer := Publish)])
    case Some(g) =>
      g in s.groups &&
      var group := s.groups[g];
      s' == s.(groups := s.groups[g := group.(numTasks := group.numTasks + 1, open := group.open + {t})],
               tasks := s.tasks[t := s.tasks[t].(producer := Publish, phase := Unfinished)])
  }

  ghost predicate PublishStep(s: State, s': State, t: nat) {
    Exists(s, t) && s.tasks[t].producer.Publish? && s.attrs[t].accepted &&
    s' == s.(tasks := s.tasks[t := s.tasks[t].(state := Scheduled, producer := Count(0))])
  }

  /** All instances have been pushed. */
  ghost predicate StartedStep(s: State, s': State, t: nat) {
    Exists(s, t) && s.tasks[t].producer.Count? && s.tasks[t].producer.k == s.attrs[t].instances &&
    s' == s.(tasks := s.tasks[t := s.tasks[t].(producer := Started)])
  }

  /** The action counts instance `k`. */
  ghost predicate CountStep(s: State, s': State, t: nat) {
    Exists(s, t) && s.tasks[t].producer.Count? && s.tasks[t].producer.k < s.attrs[t].instances &&
    var task := s.tasks[t]; var k := task.producer.k; var a := s.attrs[t].action; var e := Entry(t, k);
    && a in s.numTasks && a in s.inFlight
    && s' == s.(numTasks := s.numTasks[a := s.numTasks[a] + 1],
                inFlight := s.inFlight[a := s.inFlight[a] + {e}],
                stage := s.stage[e := Counted],
                tasks := s.tasks[t := task.(producer := Aim(k))])
  }

  ghost predicate AimStep(c: Config, s: State, s': State, t: nat, q: QueueId) {
    c.Valid() && Exists(s, t) && s.tasks[t].producer.Aim? &&
    var task := s.tasks[t];
    && AimsAt(c, s.attrs[t], task.producer.k, s.counter, q)
    && s' == s.(counter := if Restricted(c, s.attrs[t]) then (s.counter + 1) % UINT_RANGE else s.counter,
                tasks := s.tasks[t := task.(producer := Push(task.producer.k, q))])
  }

  ghost predicate PushStep(c: Config, s: State, s': State, t: nat) {
    Exists(s, t) && s.tasks[t].producer.Push? &&
    var k := s.tasks[t].producer.k; var q := s.tasks[t].producer.queue; var e := Entry(t, k);
    && q in s.queues && |s.queues[q]| < c.limit
    && s' == s.(queues := s.queues[q := s.queues[q] + [e]],
                pushes := s.pushes + [(q, e)],
                stage := s.stage[e := Queued(q)],
                tasks := s.tasks[t := s.tasks[t].(producer := Count(k + 1))])
  }

  /** The queue is full; followed up for single-instance tasks only. */
  ghost predicate FullStep(c: Config, s: State, s': State, t: nat) {
    Exists(s, t) && s.tasks[t].producer.Push? && s.attrs[t].instances == 1 &&
    var q := s.tasks[t].producer.queue;
    && q in s.queues && |s.queues[q]| >= c.limit
    && s' == s.(tasks := s.tasks[t := s.tasks[t].(producer := Rollback)])
  }

  ghost predicate RollbackStep(s: State, s': State, t: nat) {
    Exists(s, t) && s.tasks[t].producer.Rollback? &&
    var a := s.attrs[t].action; var e := Entry(t, 0);
    && a in s.numTasks && a in s.inFlight
    && s' == s.(numTasks := s.numTasks[a := s.numTasks[a] - 1],
                inFlight := s.inFlight[a := s.inFlight[a] - {e}],
                stage := s.stage[e := Abandoned],
                tasks := s.tasks[t := s.tasks[t].(producer := Fail)])
  }

  /** The start reports an invalid action or priority, or the task limit, and deletes
      the task; its group goes on counting it. */
  ghost predicate FailStep(s: State, s': State, t: nat) {
    Exists(s, t) && (s.tasks[t].producer.Fail? || (s.tasks[t].producer.Publish? && !s.attrs[t].accepted)) &&
    var task := s.tasks[t];
    s' == s.(tasks := s.tasks[t := task.(state := Error, producer := Failed,
                                         phase := if s.attrs[t].group.Some? then Lost else Outside)],
             slots := s.slots - {s.attrs[t].slot})
  }

  // ----- executing an instance --------------------------------------------

  /** Worker `w` takes the head of an eligible queue. Its main loop inspects the
      task's state before executing; a nested wait does not. */
  ghost predicate PopStep(c: Config, s: State, s': State, q: QueueId, w: nat, inspect: bool) {
    w < c.workers && q in s.queues && Eligible(w, q) && s.queues[q] != [] &&
    var e := s.queues[q][0];
    s' == s.(queues := s.queues[q := s.queues[q][1..]],
             pops := s.pops + [(q, e)],
             stage := s.stage[e := Popped(w, inspect)],
             mains := if inspect then s.mains + {e} else s.mains)
  }

  predicate At(s: State, e: Entry) {
    e in s.stage && Exists(s, e.task)
  }

  /** The main loop drops a task that is neither scheduled nor running. */
  ghost predicate CheckStep(s: State, s': State, e: Entry) {
    At(s, e) && s.stage[e].Popped? && s.stage[e].inspect &&
    var state := s.tasks[e.task].state;
    s' == s.(stage := s.stage[e := if state.Scheduled? || state.Running?
                                   then s.stage[e].(inspect := false) else Abandoned])
  }

  /** The task context receives the instance number. */
  ghost predicate ClaimStep(s: State, s': State, e: Entry) {
    At(s, e) && s.stage[e].Popped? && !s.stage[e].inspect &&
    var task := s.tasks[e.task];
    s' == s.(tasks := s.tasks[e.task := task.(current := task.current + 1, handed := task.handed + [e.instance])],
             stage := s.stage[e := Executing(s.stage[e].worker, task.current, Start)])
  }

  predicate Executes(s: State, e: Entry, pc: ExecutePc) {
    At(s, e) && s.stage[e].Executing? && s.stage[e].epc == pc
  }

  predicate Settles(s: State, e: Entry) {
    At(s, e) && s.stage[e].Settling?
  }

  ghost predicate StartStep(s: State, s': State, e: Entry) {
    Executes(s, e, Start) &&
    s' == s.(tasks := s.tasks[e.task := s.tasks[e.task].(state := Running)],
             stage := s.stage[e := s.stage[e].(epc := Body)])
  }

  /** The action function returns. */
  ghost predicate BodyStep(s: State, s': State, e: Entry) {
    Executes(s, e, Body) && s' == s.(stage := s.stage[e := s.stage[e].(epc := Countdown)])
  }

  /** The task after the countdown of instance `k`. */
  function CountedDown(task: Task, k: nat): Task {
    var last := task.todo == 1;
    task.(todo := task.todo - 1, pending := task.pending - {k},
          lasts := task.lasts + (if last then 1 else 0),
          finisher := if last then Some(k) else task.finisher)
  }

  ghost predicate CountdownStep(s: State, s': State, e: Entry) {
    Executes(s, e, Countdown) &&
    var task := s.tasks[e.task];
    s' == s.(tasks := s.tasks[e.task := CountedDown(task, e.instance)],
             stage := s.stage[e := Settling(s.stage[e].worker, if task.todo == 1 then Finish else Release(false))])
  }

  ghost predicate FinishStep(s: State, s': State, e: Entry) {
    Settles(s, e) && s.stage[e].spc.Finish? &&
    s' == s.(tasks := s.tasks[e.task := s.tasks[e.task].(state := Completed)],
             stage := s.stage[e := s.stage[e].(spc := Release(true))])
  }

  /** How the execution of an instance ends: the main loop still looks for a callback. */
  function Leaving(s: State, e: Entry, worker: nat): Stage {
    if e in s.mains then Settling(worker, Report) else Done
  }

  /** The action stops counting the instance; only the last one goes on. */
  ghost predicate ReleaseStep(s: State, s': State, e: Entry) {
    Settles(s, e) && s.stage[e].spc.Release? &&
    var task := s.tasks[e.task]; var a := s.attrs[e.task].action; var last := s.stage[e].spc.last;
    var notify := last && s.attrs[e.task].group.Some?;
    && a in s.numTasks && a in s.inFlight
    && s' == s.(numTasks := s.numTasks[a := s.numTasks[a] - 1],
                inFlight := s.inFlight[a := s.inFlight[a] - {e}],
                stage := s.stage[e := if notify then s.stage[e].(spc := Notify) else Leaving(s, e, s.stage[e].worker)],
                tasks := s.tasks[e.task := task.(finisher := if last && !notify then None else task.finisher)])
  }

  /** The task is pushed to its group's queue; the result of the push is ignored. */
  ghost predicate NotifyStep(c: Config, s: State, s': State, e: Entry) {
    Settles(s, e) && s.stage[e].spc.Notify? &&
    var t := e.task; var task := s.tasks[t];
    s.attrs[t].group.Some? && s.attrs[t].group.value in s.groups &&
    var g := s.attrs[t].group.value; var group := s.groups[g]; var room := |group.queue| < c.limit;
    s' == s.(groups := s.groups[g := group.(queue := if room then group.queue + [t] else group.queue)],
             tasks := s.tasks[t := task.(finisher := None, phase := if room then Waiting else Lost)],
             stage := s.stage[e := Leaving(s, e, s.stage[e].worker)])
  }

  /** The main loop reads callback and handle through the pointer it took from the queue. */
  ghost predicate ReportStep(s: State, s': State, e: Entry) {
    Settles(s, e) && s.stage[e].spc.Report? &&
    var slot := s.attrs[e.task].slot;
    s' == s.(stage := s.stage[e := Done],
             lookups := s.lookups + [Lookup(e, if slot in s.slots then Some(s.slots[slot]) else None)])
  }

  // ----- collecting a group -----------------------------------------------

  ghost predicate OpenStep(s: State, s': State, j: nat, g: nat, all: bool) {
    && j !in s.collectors && g in s.groups
    && s' == s.(collectors := s.collectors[j := Collector(g, all, Load, [])])
  }

  predicate Collects(s: State, j: nat) {
    j in s.collectors && s.collectors[j].group in s.groups
  }

  /** The counter is read; at zero the call returns. */
  ghost predicate LoadStep(s: State, s': State, j: nat) {
    Collects(s, j) && s.collectors[j].pc.Load? &&
    var zero := s.groups[s.collectors[j].group].numTasks == 0;
    s' == s.(collectors := s.collectors[j := s.collectors[j].(pc := if zero then Returned else Take)])
  }

  ghost predicate TakeStep(s: State, s': State, j: nat) {
    Collects(s, j) && s.collectors[j].pc.Take? &&
    var g := s.collectors[j].group; var group := s.groups[g];
    group.queue != [] && group.queue[0] in s.tasks &&
    var t := group.queue[0];
    s' == s.(groups := s.groups[g := group.(queue := group.queue[1..])],
             tasks := s.tasks[t := s.tasks[t].(phase := Taken(j))],
             collectors := s.collectors[j := s.collectors[j].(pc := Busy(t))])
  }

  /** The pop found the queue empty or its lock contended. */
  ghost predicate MissStep(s: State, s': State, j: nat) {
    Collects(s, j) && s.collectors[j].pc.Take? &&
    s' == s.(collectors := s.collectors[j := s.collectors[j].(pc := Help)])
  }

  ghost predicate DeleteStep(s: State, s': State, j: nat) {
    Collects(s, j) && s.collectors[j].pc.Busy? && s.collectors[j].pc.task in s.tasks &&
    var g := s.collectors[j].group; var group := s.groups[g]; var t := s.collectors[j].pc.task;
    && s.tasks[t].phase == Taken(j) && t in s.attrs
    && s' == s.(slots := s.slots - {s.attrs[t].slot},
                groups := s.groups[g := group.(collected := group.collected + [t])],
                tasks := s.tasks[t := s.tasks[t].(state := Error, phase := Deleted(j))],
                collectors := s.collectors[j := s.collectors[j].(got := s.collectors[j].got + [t])])
  }

  ghost predicate UncountStep(s: State, s': State, j: nat) {
    Collects(s, j) && s.collectors[j].pc.Busy? && s.collectors[j].pc.task in s.tasks &&
    var g := s.collectors[j].group; var group := s.groups[g]; var t := s.collectors[j].pc.task;
    && s.tasks[t].phase == Deleted(j)
    && s' == s.(groups := s.groups[g := group.(numTasks := group.numTasks - 1, open := group.open - {t})],
                tasks := s.tasks[t := s.tasks[t].(phase := Collected(j))],
                collectors := s.collectors[j := s.collectors[j].(pc := if s.collectors[j].all then Take else Returned)])
  }

  /** After helping out or yielding, wait_all reads the counter again and wait_any
      tries the queue again. */
  ghost predicate HelpStep(s: State, s': State, j: nat) {
    Collects(s, j) && s.collectors[j].pc.Help? &&
    s' == s.(collectors := s.collectors[j := s.collectors[j].(pc := if s.collectors[j].all then Load else Take)])
  }

  // ----- runs -------------------------------------------------------------

  datatype Step =
    | CreateTask(t: nat, attr: Attributes)
    | Joins(t: nat) | Publishes(t: nat) | Counts(t: nat) | Aims(t: nat, q: QueueId)
    | Pushes(t: nat) | FindsFull(t: nat) | RollsBack(t: nat) | Fails(t: nat) | HasStarted(t: nat)
    | Pops(q: QueueId, w: nat, inspect: bool)
    | Checks(e: Entry) | Claims(e: Entry) | Starts(e: Entry) | ReturnsFrom(e: Entry)
    | CountsDown(e: Entry) | Finishes(e: Entry) | Releases(e: Entry) | Notifies(e: Entry) | Reports(e: Entry)
    | Opens(j: nat, g: nat, all: bool)
    | Loads(j: nat) | Takes(j: nat) | Misses(j: nat) | Deletes(j: nat) | Uncounts(j: nat) | Helps(j: nat)

  ghost predicate ProducerMoves(c: Config, s: State, s': State, step: Step) {
    match step
    case Joins(t) => JoinStep(s, s', t)
    case Publishes(t) => PublishStep(s, s', t)
    case Counts(t) => CountStep(s, s', t)
    case Aims(t, q) => AimStep(c, s, s', t, q)
    case Pushes(t) => PushStep(c, s, s', t)
    case FindsFull(t) => FullStep(c, s, s', t)
    case RollsBack(t) => RollbackStep(s, s', t)
    case Fails(t) => FailStep(s, s', t)
    case HasStarted(t) => StartedStep(s, s', t)
    case _ => false
  }

  ghost predicate ExecutorMoves(c: Config, s: State, s': State, step: Step) {
    match step
    case Checks(e) => CheckStep(s, s', e)
    case Claims(e) => ClaimStep(s, s', e)
    case Starts(e) => StartStep(s, s', e)
    case ReturnsFrom(e) => BodyStep(s, s', e)
    case CountsDown(e) => CountdownStep(s, s', e)
    case Finishes(e) => FinishStep(s, s', e)
    case Releases(e) => ReleaseStep(s, s', e)
    case Notifies(e) => NotifyStep(c, s, s', e)
    case Reports(e) => ReportStep(s, s', e)
    case _ => false
  }

  ghost predicate CollectorMoves(s: State, s': State, step: Step) {
    match step
    case Opens(j, g, all) => OpenStep(s, s', j, g, all)
    case Loads(j) => LoadStep(s, s', j)
    case Takes(j) => TakeStep(s, s', j)
    case Misses(j) => MissStep(s, s', j)
    case Deletes(j) => DeleteStep(s, s', j)
    case Uncounts(j) => UncountStep(s, s', j)
    case Helps(j) => HelpStep(s, s', j)
    case _ => false
  }

  ghost predicate Next(c: Config, s: State, s': State, step: Step) {
    match step
    case CreateTask(t, attr) => CreateStep(c, s, s', t, attr)
    case Pops(q, w, inspect) => PopStep(c, s, s', q, w, inspect)
    case _ => ProducerMoves(c, s, s', step) || ExecutorMoves(c, s, s', step) || CollectorMoves(s, s', step)
  }

  ghost predicate Moves(c: Config, s: State, s': State) {
    exists step :: Next(c, s, s', step)
  }

  /** State `i` of a path follows from the one before by one step. */
  ghost predicate StepAt(c: Config, path: seq<State>, i: nat)
    requires 0 < i < |path|
  {
    Moves(c, path[i - 1], path[i])
  }

  /** States reached one after the other. */
  ghost predicate Path(c: Config, path: seq<State>) {
    |path| > 0 && forall i :: 0 < i < |path| ==> StepAt(c, path, i)
  }

  /** A run: a path from an initial state. */
  ghost predicate Run(c: Config, run: seq<State>) {
    Path(c, run) && Init(c, run[0])
  }
}
